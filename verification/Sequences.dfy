/** Facts about sequences that the verifier does better without deriving each time. */
module Sequences {

  lemma {:induction false} SliceOfConcat<T>(a: seq<T>, b: seq<T>, start: nat, end: nat)
    requires start <= end <= |a|
    ensures (a + b)[start..end] == a[start..end] && (a + b)[end..] == a[end..] + b
  {
  }

  lemma {:induction false} DropTwice<T>(a: seq<T>, m: nat, n: nat)
    requires m + n <= |a|
    ensures a[m..][n..] == a[m + n..]
  {
  }

  lemma {:induction false} Regroup<T>(x: seq<T>, y: seq<T>, z: seq<T>)
    ensures x + (y + z) == x + y + z
  {
  }
}
