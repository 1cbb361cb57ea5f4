/**
 One AirPlay receiver for each zone (src/audio/airplay_manager.rs), and the port and device id of its slot
 (src/audio/airplay.rs). The factory is foreign: each of its calls may fail, and the model logs them.
 */
module AirplayManager {
  import opened Wrappers

  datatype Managed = Managed(name: Text, slot: nat)

  /** A zone that should have a receiver. */
  datatype Wanted = Wanted(id: Id, name: Text)

  datatype FactoryCall =
    | Create(id: Id, name: Text, slot: nat)
    | Rename(id: Id, name: Text)

  type Receivers = map<Id, Managed>

  function Ids(desired: seq<Wanted>): (ids: set<Id>) {
    set w | w in desired :: w.id
  }

  // ----- Slots ------------------------------------------------------------------------------------

  function Used(receivers: Receivers): (used: set<nat>) {
    set id | id in receivers :: receivers[id].slot
  }

  function Below(n: nat): (numbers: set<nat>)
    ensures |numbers| == n && forall k: nat :: k in numbers <==> k < n
  {
    if n == 0 then {} else Below(n - 1) + {n - 1}
  }

  lemma {:induction false} SubsetIsNoLarger(a: set<nat>, b: set<nat>)
    requires a <= b
    ensures |a| <= |b|
  {
    assert b == a + (b - a);
  }

  /** If all slots below `s` are used, at least `s` slots are. */
  lemma {:induction false} Pigeonhole(used: set<nat>, s: nat)
    requires Below(s) <= used
    ensures s <= |used|
  {
    SubsetIsNoLarger(Below(s), used);
  }

  /** The first slot from `s` on that is not used. */
  function FreeFrom(used: set<nat>, s: nat): (slot: nat)
    requires Below(s) <= used
    ensures slot !in used && Below(slot) <= used
    decreases |used| - s
  {
    Pigeonhole(used, s);
    if s in used then
      assert Below(s + 1) <= used;
      Pigeonhole(used, s + 1);
      FreeFrom(used, s + 1)
    else s
  }

  function LowestFree(receivers: Receivers): (slot: nat) {
    assert Below(0) == {};
    FreeFrom(Used(receivers), 0)
  }

  /** Slots of distinct receivers are distinct. */
  ghost predicate Distinct(receivers: Receivers) {
    forall a, b :: a in receivers && b in receivers && a != b ==> receivers[a].slot != receivers[b].slot
  }

  lemma {:induction false} UsedIsNoLarger(receivers: Receivers)
    ensures |Used(receivers)| <= |receivers|
    decreases |receivers|
  {
    if receivers.Keys != {} {
      var id :| id in receivers;
      var fewer := receivers - {id};
      UsedIsNoLarger(fewer);
      assert fewer.Keys == receivers.Keys - {id};
      forall slot | slot in Used(receivers) ensures slot in Used(fewer) + {receivers[id].slot} {
        var owner :| owner in receivers && receivers[owner].slot == slot;
        assert owner != id ==> owner in fewer && fewer[owner].slot == slot;
      }
      SubsetIsNoLarger(Used(receivers), Used(fewer) + {receivers[id].slot});
    } else {
      assert Used(receivers) == {};
    }
  }

  ghost predicate Taken(receivers: Receivers, slot: nat) {
    exists id :: id in receivers && receivers[id].slot == slot
  }

  /** The search ends, and no further than the number of receivers. */
  lemma {:induction false} LowestFreeIsLow(receivers: Receivers)
    ensures LowestFree(receivers) <= |receivers|
    ensures !Taken(receivers, LowestFree(receivers))
    ensures forall s: nat :: s < LowestFree(receivers) ==> Taken(receivers, s)
  {
    var slot := LowestFree(receivers);
    assert Below(0) == {};
    Pigeonhole(Used(receivers), slot);
    UsedIsNoLarger(receivers);
    forall s: nat | s < slot ensures Taken(receivers, s) {
      assert s in Below(slot);
    }
  }

  method LowestFreeSlot(receivers: Receivers) returns (slot: nat)
    ensures slot == LowestFree(receivers)
  {
    var used := Used(receivers);
    slot := 0;
    assert Below(0) == {};
    while slot in used
      invariant Below(slot) <= used && FreeFrom(used, slot) == LowestFree(receivers)
      decreases |used| - slot
    {
      assert Below(slot + 1) <= used;
      Pigeonhole(used, slot + 1);
      slot := slot + 1;
    }
  }

  // ----- Reconciling ------------------------------------------------------------------------------

  /** Receivers whose zone is gone are dropped. */
  function Retained(receivers: Receivers, desired: seq<Wanted>): (kept: Receivers) {
    map id | id in receivers && id in Ids(desired) :: receivers[id]
  }

  /** One wanted zone; `ok` is the outcome of the factory call it may need. */
  function AfterEntry(receivers: Receivers, w: Wanted, ok: bool): (r: (Receivers, seq<FactoryCall>)) {
    if w.id in receivers then
      var m := receivers[w.id];
      if m.name == w.name then (receivers, [])
      else (if ok then receivers[w.id := m.(name := w.name)] else receivers, [Rename(w.id, w.name)])
    else
      var slot := LowestFree(receivers);
      (if ok then receivers[w.id := Managed(w.name, slot)] else receivers, [Create(w.id, w.name, slot)])
  }

  function AfterEntries(receivers: Receivers, desired: seq<Wanted>, oks: seq<bool>): (r: (Receivers, seq<FactoryCall>))
    requires |oks| == |desired|
  {
    if desired == [] then (receivers, [])
    else
      var n := |desired| - 1;
      var before := AfterEntries(receivers, desired[..n], oks[..n]);
      var after := AfterEntry(before.0, desired[n], oks[n]);
      (after.0, before.1 + after.1)
  }

  function AfterReconcile(receivers: Receivers, desired: seq<Wanted>, oks: seq<bool>)
    : (r: (Receivers, seq<FactoryCall>))
    requires |oks| == |desired|
  {
    AfterEntries(Retained(receivers, desired), desired, oks)
  }

  class ShairportManager {
    var receivers: Receivers

    constructor ()
      ensures receivers == map[]
    {
      receivers := map[];
    }

    /** `oks[i]` is the outcome of the call that entry `i` may need. */
    method Reconcile(desired: seq<Wanted>, oks: seq<bool>) returns (killed: set<Id>, calls: seq<FactoryCall>)
      requires |oks| == |desired|
      modifies this
      ensures (receivers, calls) == AfterReconcile(old(receivers), desired, oks)
      ensures killed == old(receivers).Keys - Ids(desired)
    {
      var ids := Ids(desired);
      killed := receivers.Keys - ids;
      receivers := map id | id in receivers && id in ids :: receivers[id];
      calls := [];
      for i := 0 to |desired|
        invariant (receivers, calls) == AfterEntries(Retained(old(receivers), desired), desired[..i], oks[..i])
      {
        assert desired[..i + 1][..i] == desired[..i] && oks[..i + 1][..i] == oks[..i];
        var w := desired[i];
        if w.id in receivers {
          var m := receivers[w.id];
          if m.name != w.name {
            calls := calls + [Rename(w.id, w.name)];
            if oks[i] {
              receivers := receivers[w.id := m.(name := w.name)];
            }
          } else {
            assert calls + [] == calls;
          }
        } else {
          var slot := LowestFreeSlot(receivers);
          calls := calls + [Create(w.id, w.name, slot)];
          if oks[i] {
            receivers := receivers[w.id := Managed(w.name, slot)];
          }
        }
      }
      assert desired[..|desired|] == desired && oks[..|oks|] == oks;
    }
  }

  // ----- Slots over all runs ----------------------------------------------------------------------

  ghost predicate SlotsBelow(receivers: Receivers, peak: nat) {
    forall id :: id in receivers ==> receivers[id].slot < peak
  }

  /** Receivers in both states keep their slot. */
  ghost predicate SurvivorsKeepSlots(before: Receivers, after: Receivers) {
    forall id :: id in before && id in after ==> after[id].slot == before[id].slot
  }

  lemma {:induction false} InsertKeepsSlots(receivers: Receivers, w: Wanted, slot: nat, peak: nat)
    requires Distinct(receivers) && SlotsBelow(receivers, peak) && w.id !in receivers
    requires !Taken(receivers, slot) && slot <= |receivers|
    ensures var after := receivers[w.id := Managed(w.name, slot)];
            && Distinct(after) && after.Keys == receivers.Keys + {w.id} && |after| == |receivers| + 1
            && SlotsBelow(after, if peak > |after| then peak else |after|)
  {
    var after := receivers[w.id := Managed(w.name, slot)];
    assert after.Keys == receivers.Keys + {w.id};
  }

  /** One entry: slots stay distinct, nobody is moved or lost, and a new slot is below the new number of receivers. */
  lemma {:induction false} EntryKeepsSlots(receivers: Receivers, w: Wanted, ok: bool, peak: nat)
    requires Distinct(receivers) && SlotsBelow(receivers, peak)
    ensures var after := AfterEntry(receivers, w, ok).0;
            && Distinct(after) && SurvivorsKeepSlots(receivers, after) && receivers.Keys <= after.Keys
            && after.Keys <= receivers.Keys + {w.id}
            && |receivers| <= |after| && SlotsBelow(after, if peak > |after| then peak else |after|)
  {
    if w.id !in receivers && ok {
      LowestFreeIsLow(receivers);
      InsertKeepsSlots(receivers, w, LowestFree(receivers), peak);
    } else if w.id in receivers && ok {
      RenameKeepsSlots(receivers, w, peak);
    }
  }

  lemma {:induction false} RenameKeepsSlots(receivers: Receivers, w: Wanted, peak: nat)
    requires Distinct(receivers) && SlotsBelow(receivers, peak) && w.id in receivers
    ensures var after := receivers[w.id := receivers[w.id].(name := w.name)];
            && Distinct(after) && SurvivorsKeepSlots(receivers, after) && after.Keys == receivers.Keys
            && |after| == |receivers| && SlotsBelow(after, peak)
  {
    assert receivers[w.id := receivers[w.id].(name := w.name)].Keys == receivers.Keys;
  }

  lemma {:induction false} EntriesKeepSlots(receivers: Receivers, desired: seq<Wanted>, oks: seq<bool>, peak: nat)
    requires |oks| == |desired| && Distinct(receivers) && SlotsBelow(receivers, peak)
    ensures var after := AfterEntries(receivers, desired, oks).0;
            && Distinct(after) && SurvivorsKeepSlots(receivers, after) && receivers.Keys <= after.Keys
            && after.Keys <= receivers.Keys + Ids(desired)
            && |receivers| <= |after| && SlotsBelow(after, if peak > |after| then peak else |after|)
    decreases |desired|
  {
    if desired == [] {
    } else {
      var n := |desired| - 1;
      var before := AfterEntries(receivers, desired[..n], oks[..n]).0;
      EntriesKeepSlots(receivers, desired[..n], oks[..n], peak);
      EntryKeepsSlots(before, desired[n], oks[n], if peak > |before| then peak else |before|);
      assert Ids(desired[..n]) + {desired[n].id} <= Ids(desired);
    }
  }

  /** A run: one list of wanted zones and outcomes after the other. */
  datatype Pass = Pass(desired: seq<Wanted>, oks: seq<bool>)

  predicate IsRun(passes: seq<Pass>) {
    forall p :: 0 <= p < |passes| ==> |passes[p].oks| == |passes[p].desired|
  }

  function AfterRun(passes: seq<Pass>): (receivers: Receivers)
    requires IsRun(passes)
  {
    if passes == [] then map[]
    else
      var last := passes[|passes| - 1];
      AfterReconcile(AfterRun(passes[..|passes| - 1]), last.desired, last.oks).0
  }

  /** The largest number of receivers that were ever live after a pass; within a pass the number only grows. */
  function Peak(passes: seq<Pass>): (peak: nat)
    requires IsRun(passes)
  {
    if passes == [] then 0
    else
      var before, now := Peak(passes[..|passes| - 1]), |AfterRun(passes)|;
      if before > now then before else now
  }

  /** Over any run with any failures: live slots are distinct and below the peak. */
  lemma {:induction false} SlotsOverRuns(passes: seq<Pass>)
    requires IsRun(passes)
    ensures Distinct(AfterRun(passes)) && SlotsBelow(AfterRun(passes), Peak(passes))
    decreases |passes|
  {
    if passes == [] {
    } else {
      var before, last := passes[..|passes| - 1], passes[|passes| - 1];
      SlotsOverRuns(before);
      EntriesKeepSlots(Retained(AfterRun(before), last.desired), last.desired, last.oks, Peak(before));
    }
  }

  /** Over one pass with any failures: a receiver that survives keeps its slot, and only wanted zones have one. */
  lemma {:induction false} SurvivorsKeepTheirSlots(passes: seq<Pass>, desired: seq<Wanted>, oks: seq<bool>)
    requires IsRun(passes) && |oks| == |desired|
    ensures var after := AfterReconcile(AfterRun(passes), desired, oks).0;
            && SurvivorsKeepSlots(AfterRun(passes), after) && after.Keys <= Ids(desired)
            && forall id :: id in AfterRun(passes) && id in Ids(desired) ==> id in after
  {
    SlotsOverRuns(passes);
    EntriesKeepSlots(Retained(AfterRun(passes), desired), desired, oks, Peak(passes));
  }

  // ----- What the factory is asked for ------------------------------------------------------------

  /** The entry has its receiver, under its name. */
  predicate Named(receivers: Receivers, w: Wanted) { w.id in receivers && receivers[w.id].name == w.name }

  /** What exists after a call that succeeded: the factory's own account of it. */
  function Made(live: Receivers, call: FactoryCall): (live': Receivers) {
    match call
    case Create(id, name, slot) => live[id := Managed(name, slot)]
    case Rename(id, name) => if id in live then live[id := Managed(name, live[id].slot)] else live
  }

  /** What exists after the calls asked for, entry by entry, of which those succeed that `oks` says. */
  function MadeBy(live: Receivers, asked: seq<Option<FactoryCall>>, oks: seq<bool>): (live': Receivers)
    requires |oks| == |asked|
  {
    if asked == [] then live
    else
      var n := |asked| - 1;
      var before := MadeBy(live, asked[..n], oks[..n]);
      if asked[n].Some? && oks[n] then Made(before, asked[n].value) else before
  }

  function Somes(asked: seq<Option<FactoryCall>>): (calls: seq<FactoryCall>) {
    if asked == [] then []
    else
      var n := |asked| - 1;
      Somes(asked[..n]) + (if asked[n].Some? then [asked[n].value] else [])
  }

  /** The lowest slot that none of `live` has. */
  ghost predicate IsLowestFree(live: Receivers, slot: nat) {
    !Taken(live, slot) && forall s: nat :: s < slot ==> Taken(live, s)
  }

  /**
   What is asked for an entry when `live` exists: nothing if it has its receiver under its name; a new name if it has
   one under another; else a receiver with the lowest free slot.
   */
  ghost predicate AskedRight(live: Receivers, w: Wanted, asked: Option<FactoryCall>) {
    match asked
    case None => Named(live, w)
    case Some(Rename(id, name)) => id == w.id && name == w.name && id in live && live[id].name != name
    case Some(Create(id, name, slot)) => id == w.id && name == w.name && id !in live && IsLowestFree(live, slot)
  }

  /** `asked[i]` is right for entry `i` when its turn comes. */
  ghost predicate AskedRightAt(live: Receivers, desired: seq<Wanted>, oks: seq<bool>, asked: seq<Option<FactoryCall>>,
                               i: nat)
    requires |oks| == |desired| == |asked| && i < |asked|
  {
    AskedRight(MadeBy(live, asked[..i], oks[..i]), desired[i], asked[i])
  }

  ghost predicate AllAskedRight(live: Receivers, desired: seq<Wanted>, oks: seq<bool>, asked: seq<Option<FactoryCall>>)
    requires |oks| == |desired| == |asked|
  {
    forall i :: 0 <= i < |asked| ==> AskedRightAt(live, desired, oks, asked, i)
  }

  lemma {:induction false} AskedRightInFront(live: Receivers, desired: seq<Wanted>, oks: seq<bool>,
                                             asked: seq<Option<FactoryCall>>, i: nat)
    requires |oks| == |desired| == |asked| && i < |asked| - 1
    ensures var n := |asked| - 1;
            AskedRightAt(live, desired[..n], oks[..n], asked[..n], i) <==> AskedRightAt(live, desired, oks, asked, i)
  {
    var n := |asked| - 1;
    assert asked[..n][..i] == asked[..i] && oks[..n][..i] == oks[..i];
  }

  lemma {:induction false} EntryAsks(receivers: Receivers, w: Wanted, ok: bool) returns (asked: Option<FactoryCall>)
    ensures AskedRight(receivers, w, asked)
    ensures AfterEntry(receivers, w, ok) ==
            (if asked.Some? && ok then Made(receivers, asked.value) else receivers,
             if asked.Some? then [asked.value] else [])
  {
    LowestFreeIsLow(receivers);
    var calls := AfterEntry(receivers, w, ok).1;
    asked := if calls == [] then None else Some(calls[0]);
  }

  lemma {:induction false} OneMoreAsked(live: Receivers, desired: seq<Wanted>, oks: seq<bool>,
                                        asked: seq<Option<FactoryCall>>, w: Wanted, ok: bool, last: Option<FactoryCall>)
    requires |oks| == |desired| == |asked| && AllAskedRight(live, desired, oks, asked)
    requires AskedRight(MadeBy(live, asked, oks), w, last)
    ensures AllAskedRight(live, desired + [w], oks + [ok], asked + [last])
  {
    var desired', oks', asked' := desired + [w], oks + [ok], asked + [last];
    assert desired'[..|desired|] == desired && oks'[..|oks|] == oks && asked'[..|asked|] == asked;
    forall i | 0 <= i < |asked'| ensures AskedRightAt(live, desired', oks', asked', i) {
      if i < |asked| {
        AskedRightInFront(live, desired', oks', asked', i);
      }
    }
  }

  lemma {:induction false} OneMoreMade(live: Receivers, asked: seq<Option<FactoryCall>>, oks: seq<bool>,
                                       last: Option<FactoryCall>, ok: bool)
    requires |oks| == |asked|
    ensures MadeBy(live, asked + [last], oks + [ok]) ==
            if last.Some? && ok then Made(MadeBy(live, asked, oks), last.value) else MadeBy(live, asked, oks)
    ensures Somes(asked + [last]) == Somes(asked) + (if last.Some? then [last.value] else [])
  {
    assert (asked + [last])[..|asked|] == asked && (oks + [ok])[..|oks|] == oks;
  }

  lemma {:induction false} EntriesAreTheirCalls(receivers: Receivers, desired: seq<Wanted>, oks: seq<bool>)
    returns (asked: seq<Option<FactoryCall>>)
    requires |oks| == |desired|
    ensures |asked| == |desired| && AllAskedRight(receivers, desired, oks, asked)
    ensures AfterEntries(receivers, desired, oks) == (MadeBy(receivers, asked, oks), Somes(asked))
    decreases |desired|
  {
    if desired == [] {
      asked := [];
    } else {
      var n := |desired| - 1;
      var before := EntriesAreTheirCalls(receivers, desired[..n], oks[..n]);
      var last := EntryAsks(MadeBy(receivers, before, oks[..n]), desired[n], oks[n]);
      OneMoreAsked(receivers, desired[..n], oks[..n], before, desired[n], oks[n], last);
      OneMoreMade(receivers, before, oks[..n], last, oks[n]);
      assert desired == desired[..n] + [desired[n]] && oks == oks[..n] + [oks[n]];
      asked := before + [last];
    }
  }

  /**
   The calls of a pass, for any outcomes: each is for an entry, in their order, and asks for what the entry lacks
   when its turn comes. What the manager records afterwards is what the successful ones have made of the receivers
   that were kept: the same names, and the same slots.
   */
  lemma {:induction false} RecordsAreWhatWasMade(receivers: Receivers, desired: seq<Wanted>, oks: seq<bool>)
    returns (asked: seq<Option<FactoryCall>>)
    requires |oks| == |desired|
    ensures |asked| == |desired| && AfterReconcile(receivers, desired, oks).1 == Somes(asked)
    ensures AllAskedRight(Retained(receivers, desired), desired, oks, asked)
    ensures AfterReconcile(receivers, desired, oks).0 == MadeBy(Retained(receivers, desired), asked, oks)
  {
    asked := EntriesAreTheirCalls(Retained(receivers, desired), desired, oks);
  }

  /** The slots that receivers were made with for `id`, by the calls that succeeded. */
  function SlotsMade(asked: seq<Option<FactoryCall>>, oks: seq<bool>, id: Id): (slots: seq<nat>)
    requires |oks| == |asked|
  {
    if asked == [] then []
    else
      var n, front := |asked| - 1, SlotsMade(asked[..|asked| - 1], oks[..|asked| - 1], id);
      if asked[n].Some? && oks[n] && asked[n].value.Create? && asked[n].value.id == id
      then front + [asked[n].value.slot]
      else front
  }

  lemma {:induction false} FrontAskedRight(live: Receivers, desired: seq<Wanted>, oks: seq<bool>,
                                           asked: seq<Option<FactoryCall>>)
    requires |oks| == |desired| == |asked| > 0 && AllAskedRight(live, desired, oks, asked)
    ensures var n := |asked| - 1;
            && AllAskedRight(live, desired[..n], oks[..n], asked[..n])
            && AskedRight(MadeBy(live, asked[..n], oks[..n]), desired[n], asked[n])
  {
    var n := |asked| - 1;
    assert AskedRightAt(live, desired, oks, asked, n);
    forall i | 0 <= i < n ensures AskedRightAt(live, desired[..n], oks[..n], asked[..n], i) {
      AskedRightInFront(live, desired, oks, asked, i);
    }
  }

  /**
   Nothing is made for a zone that has a receiver; a receiver that is new was made by one call alone, with the slot
   recorded; and where none is recorded none was made.
   */
  lemma {:induction false} EachMadeOnce(live: Receivers, desired: seq<Wanted>, oks: seq<bool>,
                                        asked: seq<Option<FactoryCall>>, id: Id)
    requires |oks| == |desired| == |asked| && AllAskedRight(live, desired, oks, asked)
    ensures var after := MadeBy(live, asked, oks);
            SlotsMade(asked, oks, id) == if id !in live && id in after then [after[id].slot] else []
    ensures id in live ==> id in MadeBy(live, asked, oks) && MadeBy(live, asked, oks)[id].slot == live[id].slot
    decreases |asked|
  {
    if asked == [] {
    } else {
      var n := |asked| - 1;
      FrontAskedRight(live, desired, oks, asked);
      EachMadeOnce(live, desired[..n], oks[..n], asked[..n], id);
    }
  }

  /** The calls of one pass turn what the factory had made before into `after`, and drop what is not wanted. */
  ghost predicate PassMakes(before: Receivers, pass: Pass, calls: seq<FactoryCall>, after: Receivers)
    requires |pass.oks| == |pass.desired|
  {
    exists asked ::
      && |asked| == |pass.desired| && Somes(asked) == calls
      && AllAskedRight(Retained(before, pass.desired), pass.desired, pass.oks, asked)
      && after == MadeBy(Retained(before, pass.desired), asked, pass.oks)
  }

  /** The calls of pass `p`. */
  function CallsOf(passes: seq<Pass>, p: nat): (calls: seq<FactoryCall>)
    requires IsRun(passes) && p < |passes|
  {
    AfterReconcile(AfterRun(passes[..p]), passes[p].desired, passes[p].oks).1
  }

  /** The receivers the factory has made and not been told to drop, over a run of passes. */
  ghost predicate IsFactorySide(passes: seq<Pass>, sides: seq<Receivers>)
    requires IsRun(passes)
  {
    && |sides| == |passes| + 1 && sides[0] == map[]
    && forall p :: 0 <= p < |passes| ==> PassMakes(sides[p], passes[p], CallsOf(passes, p), sides[p + 1])
  }

  lemma {:induction false} FactorySideGrows(passes: seq<Pass>, sides: seq<Receivers>, side: Receivers)
    requires passes != [] && IsRun(passes) && IsFactorySide(passes[..|passes| - 1], sides)
    requires var n := |passes| - 1; PassMakes(sides[n], passes[n], CallsOf(passes, n), side)
    ensures IsFactorySide(passes, sides + [side])
  {
    var n, all := |passes| - 1, sides + [side];
    forall p | 0 <= p < |passes| ensures PassMakes(all[p], passes[p], CallsOf(passes, p), all[p + 1]) {
      if p < n {
        assert passes[..n][..p] == passes[..p];
        assert PassMakes(sides[p], passes[..n][p], CallsOf(passes[..n], p), sides[p + 1]);
      }
    }
  }

  /**
   Over any run with any failures: the calls the manager makes are such that what the factory has made and not
   dropped is what the manager records, receiver by receiver, with name and slot.
   */
  lemma {:induction false} FactoryAgrees(passes: seq<Pass>) returns (sides: seq<Receivers>)
    requires IsRun(passes)
    ensures IsFactorySide(passes, sides) && sides[|passes|] == AfterRun(passes)
    decreases |passes|
  {
    if passes == [] {
      sides := [map[]];
    } else {
      var n := |passes| - 1;
      var front, last := passes[..n], passes[n];
      var before := FactoryAgrees(front);
      var asked := RecordsAreWhatWasMade(AfterRun(front), last.desired, last.oks);
      FactorySideGrows(passes, before, AfterRun(passes));
      sides := before + [AfterRun(passes)];
    }
  }

  /** So no two receivers that exist have one slot, one port or one device id. */
  lemma {:induction false} MadeReceiversDiffer(passes: seq<Pass>, a: Id, b: Id)
    returns (sides: seq<Receivers>)
    requires IsRun(passes)
    ensures IsFactorySide(passes, sides)
    ensures var live := sides[|passes|];
            a in live && b in live && a != b ==>
              && live[a].slot != live[b].slot && DeviceDigits(live[a].slot, 6) != DeviceDigits(live[b].slot, 6)
              && (Peak(passes) <= 60_481 ==> SlotPort(live[a].slot) != SlotPort(live[b].slot))
  {
    sides := FactoryAgrees(passes);
    var live := sides[|passes|];
    SlotsOverRuns(passes);
    if a in live && b in live && a != b {
      if DeviceDigits(live[a].slot, 6) == DeviceDigits(live[b].slot, 6) {
        DeviceIdsDiffer(live[a].slot, live[b].slot);
      }
      if Peak(passes) <= 60_481 {
        PortsAreDistinct(passes, a, b);
      }
    }
  }

  // ----- Reconciling again ------------------------------------------------------------------------

  /** No zone is wanted under two names. */
  predicate OneName(desired: seq<Wanted>) {
    forall i, j :: 0 <= i < j < |desired| && desired[i].id == desired[j].id ==> desired[i].name == desired[j].name
  }

  /** The name listed last for a zone. */
  function LastName(desired: seq<Wanted>, id: Id): (name: Option<Text>) {
    if desired == [] then None
    else if desired[|desired| - 1].id == id then Some(desired[|desired| - 1].name)
    else LastName(desired[..|desired| - 1], id)
  }

  function AllOk(desired: seq<Wanted>): (oks: seq<bool>)
    ensures |oks| == |desired| && forall i :: 0 <= i < |oks| ==> oks[i]
  {
    seq(|desired|, _ => true)
  }

  /** When nothing fails, every zone gone through has a receiver under its last name. */
  ghost predicate NamedLast(receivers: Receivers, desired: seq<Wanted>) {
    forall id :: LastName(desired, id).Some? ==> id in receivers && receivers[id].name == LastName(desired, id).value
  }

  lemma {:induction false} SuccessNamesLast(receivers: Receivers, desired: seq<Wanted>)
    ensures NamedLast(AfterEntries(receivers, desired, AllOk(desired)).0, desired)
    decreases |desired|
  {
    if desired == [] {
    } else {
      var n := |desired| - 1;
      assert AllOk(desired)[..n] == AllOk(desired[..n]);
      SuccessNamesLast(receivers, desired[..n]);
      var before := AfterEntries(receivers, desired[..n], AllOk(desired[..n])).0;
      var after := AfterEntry(before, desired[n], true).0;
      forall id | LastName(desired, id).Some? ensures id in after && after[id].name == LastName(desired, id).value {
        assert id != desired[n].id ==> LastName(desired, id) == LastName(desired[..n], id);
      }
    }
  }

  lemma {:induction false} LastNameIsListed(desired: seq<Wanted>, id: Id)
    ensures LastName(desired, id).Some? <==> id in Ids(desired)
    ensures LastName(desired, id).Some? ==> Wanted(id, LastName(desired, id).value) in desired
    decreases |desired|
  {
    if desired == [] {
    } else {
      var front, last := desired[..|desired| - 1], desired[|desired| - 1];
      LastNameIsListed(front, id);
      assert desired == front + [last];
      assert Ids(desired) == Ids(front) + {last.id};
    }
  }

  /** Every entry already has its receiver under its name. */
  ghost predicate Matches(receivers: Receivers, desired: seq<Wanted>) {
    forall i :: 0 <= i < |desired| ==> desired[i].id in receivers && receivers[desired[i].id].name == desired[i].name
  }

  /** A pass makes no factory call exactly when every entry matches already; and then it changes nothing. */
  lemma {:induction false} NoCallsExactly(receivers: Receivers, desired: seq<Wanted>, oks: seq<bool>)
    requires |oks| == |desired|
    ensures AfterEntries(receivers, desired, oks).1 == [] <==> Matches(receivers, desired)
    ensures Matches(receivers, desired) ==> AfterEntries(receivers, desired, oks).0 == receivers
    decreases |desired|
  {
    if desired == [] {
    } else {
      var n := |desired| - 1;
      NoCallsExactly(receivers, desired[..n], oks[..n]);
      if Matches(receivers, desired[..n]) {
        assert Matches(receivers, desired) <==>
               desired[n].id in receivers && receivers[desired[n].id].name == desired[n].name;
      } else {
        assert !Matches(receivers, desired) by {
          if Matches(receivers, desired) {
            assert forall i :: 0 <= i < n ==> desired[..n][i] == desired[i];
          }
        }
      }
    }
  }

  /**
   Repeating a fully successful pass, whatever was running before it: the repetition makes no factory call
   exactly when no zone is wanted under two names; and then it changes nothing and drops nobody.
   */
  lemma {:induction false} RepeatingIsFreeExactly(receivers: Receivers, desired: seq<Wanted>)
    ensures var once := AfterReconcile(receivers, desired, AllOk(desired)).0;
            && (AfterReconcile(once, desired, AllOk(desired)).1 == [] <==> OneName(desired))
            && (OneName(desired) ==> AfterReconcile(once, desired, AllOk(desired)).0 == once)
            && once.Keys - Ids(desired) == {}
  {
    var kept := Retained(receivers, desired);
    var once := AfterReconcile(receivers, desired, AllOk(desired)).0;
    SuccessNamesLast(kept, desired);
    EntriesKeepIds(kept, desired, AllOk(desired));
    assert Retained(once, desired) == once;
    NoCallsExactly(once, desired, AllOk(desired));
    MatchesExactly(once, desired);
  }

  lemma {:induction false} EntriesKeepIds(receivers: Receivers, desired: seq<Wanted>, oks: seq<bool>)
    requires |oks| == |desired|
    ensures AfterEntries(receivers, desired, oks).0.Keys <= receivers.Keys + Ids(desired)
    decreases |desired|
  {
    if desired == [] {
    } else {
      var n := |desired| - 1;
      EntriesKeepIds(receivers, desired[..n], oks[..n]);
      assert desired == desired[..n] + [desired[n]];
      assert desired[n] in desired;
    }
  }

  lemma {:induction false} MatchesExactly(receivers: Receivers, desired: seq<Wanted>)
    requires NamedLast(receivers, desired)
    ensures Matches(receivers, desired) <==> OneName(desired)
  {
    forall i | 0 <= i < |desired|
      ensures LastName(desired, desired[i].id).Some?
      ensures OneName(desired) ==> LastName(desired, desired[i].id) == Some(desired[i].name)
    {
      LastNameIsListed(desired, desired[i].id);
      assert desired[i] in desired;
    }
  }

  // ----- Ports and device ids ---------------------------------------------------------------------

  const RTSP_PORT_BASE := 5055
  const U16 := 0x1_0000

  /** `RTSP_PORT_BASE + slot as u16`: the cast truncates, and the sum wraps. */
  function SlotPort(slot: nat): (port: nat)
    ensures port < U16
  {
    (RTSP_PORT_BASE + slot % U16) % U16
  }

  /** Slots below a peak have the ports they should exactly while the peak is at most 60,481. */
  lemma {:induction false} PortsFitExactly(peak: nat)
    ensures (forall slot: nat :: slot < peak ==> SlotPort(slot) == RTSP_PORT_BASE + slot) <==> peak <= 60_481
  {
    if peak > 60_481 {
      var slot: nat := 60_481;
      assert SlotPort(slot) != RTSP_PORT_BASE + slot;
    }
  }

  /** So all live receivers have distinct ports, while no more than 60,481 have ever been live at once. */
  lemma {:induction false} PortsAreDistinct(passes: seq<Pass>, a: Id, b: Id)
    requires IsRun(passes) && Peak(passes) <= 60_481
    requires a in AfterRun(passes) && b in AfterRun(passes) && a != b
    ensures SlotPort(AfterRun(passes)[a].slot) != SlotPort(AfterRun(passes)[b].slot)
  {
    SlotsOverRuns(passes);
    PortsFitExactly(Peak(passes));
  }

  /** The digits of `{:06X}`: hexadecimal, at least six. */
  function DeviceDigits(slot: nat, width: nat): (digits: seq<nat>)
    decreases slot, width
  {
    if slot == 0 && width == 0 then []
    else DeviceDigits(slot / 16, if width > 0 then width - 1 else 0) + [slot % 16]
  }

  function ValueOf(digits: seq<nat>): (v: nat) {
    if digits == [] then 0 else ValueOf(digits[..|digits| - 1]) * 16 + digits[|digits| - 1]
  }

  lemma {:induction false} OneDigitMore(digits: seq<nat>, digit: nat)
    ensures ValueOf(digits + [digit]) == ValueOf(digits) * 16 + digit
  {
    assert (digits + [digit])[..|digits|] == digits;
  }

  lemma {:induction false} DigitsReadBack(slot: nat, width: nat)
    ensures ValueOf(DeviceDigits(slot, width)) == slot
    decreases slot, width
  {
    if slot == 0 && width == 0 {
    } else {
      var front := DeviceDigits(slot / 16, if width > 0 then width - 1 else 0);
      DigitsReadBack(slot / 16, if width > 0 then width - 1 else 0);
      OneDigitMore(front, slot % 16);
    }
  }

  function Power16(n: nat): (p: nat) { if n == 0 then 1 else 16 * Power16(n - 1) }

  lemma {:induction false} DigitsFit(slot: nat, width: nat)
    ensures forall i :: 0 <= i < |DeviceDigits(slot, width)| ==> DeviceDigits(slot, width)[i] < 16
    ensures |DeviceDigits(slot, width)| >= width
    ensures slot < Power16(width) <==> |DeviceDigits(slot, width)| == width
    decreases slot, width
  {
    if slot == 0 && width == 0 {
    } else {
      DigitsFit(slot / 16, if width > 0 then width - 1 else 0);
    }
  }

  /** A device id has six hexadecimal digits for its slot, and more only when six cannot hold it. */
  lemma {:induction false} SixDigitsExactly(slot: nat)
    ensures |DeviceDigits(slot, 6)| >= 6 && (|DeviceDigits(slot, 6)| == 6 <==> slot < 0x100_0000)
    ensures forall i :: 0 <= i < |DeviceDigits(slot, 6)| ==> DeviceDigits(slot, 6)[i] < 16
    ensures ValueOf(DeviceDigits(slot, 6)) == slot
  {
    DigitsFit(slot, 6);
    DigitsReadBack(slot, 6);
    assert Power16(3) == 4096 && Power16(6) == 16 * (16 * (16 * Power16(3)));
  }

  /** Different slots have different device ids. */
  lemma {:induction false} DeviceIdsDiffer(a: nat, b: nat)
    requires DeviceDigits(a, 6) == DeviceDigits(b, 6)
    ensures a == b
  {
    DigitsReadBack(a, 6);
    DigitsReadBack(b, 6);
  }
}
