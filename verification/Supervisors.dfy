/**
 A supervised child process (`SnapserverSupervisor` of src/audio/snapcast.rs and `ShairportSupervisor` of
 src/audio/airplay.rs, which are alike): a monitor thread takes the child out of a shared slot, waits for it, and
 launches another; dropping the supervisor sets a stop flag, kills what is in the slot, and joins the monitor.
 */
module Supervisors {
  import opened Wrappers
  import opened Reachability

  type Process = nat

  /** Where the monitor is in its loop; `Waited` and `Resting` are before its two looks at the stop flag. */
  datatype Phase = Taking | Waiting(child: Process) | Waited | Resting | Relaunching | Putting(child: Process) | Done

  /** How far the drop is: it has set the flag, it has looked into the slot, it has joined the monitor. */
  datatype Dropper = NotYet | Stopped | Joining | Dropped

  datatype State = State(stop: bool, slot: Option<Process>, running: set<Process>, monitor: Phase, dropper: Dropper)

  /** `Exit` is a process ending by itself; everything else is done by the two threads. */
  datatype Event = Watch | Launch(child: Process) | LaunchFails | Drop | Exit(child: Process)

  /** A supervisor as it is spawned, with its first child. */
  function Spawned(child: Process): (s: State) { State(false, Some(child), {child}, Taking, NotYet) }

  predicate Enabled(s: State, e: Event) {
    match e
    case Watch =>
      (match s.monitor
       case Waiting(child) => child !in s.running
       case Relaunching => false
       case Done => false
       case _ => true)
    case Launch(child) => s.monitor.Relaunching? && child !in s.running
    case LaunchFails => s.monitor.Relaunching?
    case Drop => s.dropper.NotYet? || s.dropper.Stopped? || (s.dropper.Joining? && s.monitor.Done?)
    case Exit(child) => child in s.running
  }

  function Watched(s: State): (s': State) {
    match s.monitor
    case Taking => s.(slot := None, monitor := if s.slot.Some? then Waiting(s.slot.value) else Waited)
    case Waiting(_) => s.(monitor := Waited)
    case Waited => s.(monitor := if s.stop then Done else Resting)
    case Resting => s.(monitor := if s.stop then Done else Relaunching)
    case Putting(child) => s.(slot := Some(child), monitor := Taking)
    case _ => s
  }

  function DropStep(s: State): (s': State) {
    match s.dropper
    case NotYet => s.(stop := true, dropper := Stopped)
    case Stopped =>
      var left := if s.slot.Some? then s.running - {s.slot.value} else s.running;
      s.(slot := None, running := left, dropper := Joining)
    case _ => s.(dropper := Dropped)
  }

  function Next(s: State, e: Event): (s': State)
    requires Enabled(s, e)
  {
    match e
    case Watch => Watched(s)
    case Launch(child) => s.(running := s.running + {child}, monitor := Putting(child))
    case LaunchFails => s.(monitor := Done)
    case Drop => DropStep(s)
    case Exit(child) => s.(running := s.running - {child})
  }

  ghost predicate IsRun(events: seq<Event>, states: seq<State>) {
    && |states| == |events| + 1 && (exists child :: states[0] == Spawned(child))
    && forall n :: 0 <= n < |events| ==> Enabled(states[n], events[n]) && states[n + 1] == Next(states[n], events[n])
  }

  /** A process that runs is in the slot, about to be put there, or being waited for. */
  predicate Tracked(s: State, child: Process) {
    s.slot == Some(child) || s.monitor == Waiting(child) || s.monitor == Putting(child)
  }

  ghost predicate Sound(s: State) {
    && (s.slot.Some? ==> s.monitor.Taking?)
    && (forall child :: child in s.running ==> Tracked(s, child))
    && (s.stop <==> !s.dropper.NotYet?)
    && (s.dropper.Dropped? ==> s.monitor.Done?)
  }

  lemma {:induction false} StepKeepsSound(s: State, e: Event)
    requires Sound(s) && Enabled(s, e)
    ensures Sound(Next(s, e))
  {
  }

  lemma {:induction false} RunsStaySound(events: seq<Event>, states: seq<State>, n: nat)
    requires IsRun(events, states) && n <= |events|
    ensures Sound(states[n])
  {
    if n == 0 {
    } else {
      RunsStaySound(events, states, n - 1);
      StepKeepsSound(states[n - 1], events[n - 1]);
    }
  }

  /** In every run: at most one process at a time, and none is left when the drop returns. */
  lemma {:induction false} NothingIsLeftRunning(events: seq<Event>, states: seq<State>, n: nat)
    requires IsRun(events, states) && n <= |events|
    ensures |states[n].running| <= 1
    ensures states[n].dropper.Dropped? ==> states[n].running == {}
  {
    var s := states[n];
    RunsStaySound(events, states, n);
    if child :| child in s.running {
      assert Tracked(s, child);
      forall other | other in s.running ensures other == child {
        assert Tracked(s, other);
      }
      assert s.running == {child};
    }
  }

  // ----- When the drop returns --------------------------------------------------------------------

  /** A step of one of the two threads; no process ends by itself. */
  ghost predicate Moves(s: State, s': State) {
    exists e: Event :: !e.Exit? && Enabled(s, e) && s' == Next(s, e)
  }

  /** The drop can come to its end although no process ends by itself. */
  ghost predicate CanReturn(s: State) {
    exists t: State, n: nat :: Steps(Moves, s, t, n) && t.dropper.Dropped?
  }

  lemma {:induction false} MoveKeepsHanging(s: State, s': State)
    requires Sound(s) && s.dropper.Joining? && s.running != {} && Moves(s, s')
    ensures Sound(s') && s'.dropper.Joining? && s'.running != {}
  {
    var e: Event :| !e.Exit? && Enabled(s, e) && s' == Next(s, e);
    StepKeepsSound(s, e);
    var child :| child in s.running;
    assert Tracked(s, child);
  }

  lemma {:induction false} HangingLasts(s: State, t: State, n: nat)
    requires Sound(s) && s.dropper.Joining? && s.running != {} && Steps(Moves, s, t, n)
    ensures t.dropper.Joining? && t.running != {}
    decreases n
  {
    if n == 0 {
    } else {
      var mid :| Moves(s, mid) && Steps(Moves, mid, t, n - 1);
      MoveKeepsHanging(s, mid);
      HangingLasts(mid, t, n - 1);
    }
  }

  function StepsLeft(phase: Phase): nat {
    match phase
    case Done => 0
    case Waited => 1
    case Resting => 1
    case Relaunching => 1
    case Waiting(_) => 2
    case Taking => 3
    case Putting(_) => 4
  }

  /** With nothing running the monitor comes to its end, and the drop after it. */
  lemma {:induction false} IdleReturns(s: State) returns (t: State, n: nat)
    requires Sound(s) && s.dropper.Joining? && s.running == {}
    ensures Steps(Moves, s, t, n) && t.dropper.Dropped?
    decreases StepsLeft(s.monitor)
  {
    if s.monitor.Done? {
      t, n := Next(s, Drop), 1;
      assert Moves(s, t) && Steps(Moves, t, t, 0);
    } else {
      var e := if s.monitor.Relaunching? then LaunchFails else Watch;
      var mid := Next(s, e);
      StepKeepsSound(s, e);
      assert Moves(s, mid);
      t, n := IdleReturns(mid);
      StepFirst(Moves, s, mid, t, n);
      n := n + 1;
    }
  }

  /** Once the drop has looked into the slot, it can return by itself exactly when no process runs. */
  lemma {:induction false} JoiningReturnsExactly(s: State)
    requires Sound(s) && s.dropper.Joining?
    ensures CanReturn(s) <==> s.running == {}
  {
    if s.running == {} {
      var t, n := IdleReturns(s);
    } else {
      forall t: State, n: nat | Steps(Moves, s, t, n) ensures !t.dropper.Dropped? {
        HangingLasts(s, t, n);
      }
    }
  }

  /**
   The look into the slot leaves nothing running exactly when the monitor has not taken the child yet or nothing
   ran; or else the drop cannot return until the process ends by itself.
   */
  lemma {:induction false} DropKillsExactly(s: State)
    requires Sound(s) && s.dropper.Stopped?
    ensures Next(s, Drop).running == {} <==> s.monitor.Taking? || s.running == {}
    ensures CanReturn(Next(s, Drop)) <==> s.monitor.Taking? || s.running == {}
  {
    StepKeepsSound(s, Drop);
    JoiningReturnsExactly(Next(s, Drop));
    if child :| child in s.running {
      assert Tracked(s, child);
      forall other | other in s.running ensures other == child {
        assert Tracked(s, other);
      }
    }
  }

  /** The usual case: the monitor waits for the first child when the supervisor is dropped. */
  lemma {:induction false} DropWaitsForALiveChild(child: Process)
    ensures exists states: seq<State> ::
              && IsRun([Watch, Drop, Drop], states)
              && states[3].dropper.Joining? && states[3].running == {child} && !CanReturn(states[3])
  {
    var s0 := Spawned(child);
    var s1 := Next(s0, Watch);
    var s2 := Next(s1, Drop);
    var s3 := Next(s2, Drop);
    var states := [s0, s1, s2, s3];
    assert states[0] == Spawned(child);
    assert IsRun([Watch, Drop, Drop], states);
    RunsStaySound([Watch, Drop, Drop], states, 3);
    JoiningReturnsExactly(s3);
  }

  /** When nothing runs and no launch is under way, every way on is short and ends with the drop. */
  lemma {:induction false} IdleSurelyReturns(s: State, s': State)
    requires Sound(s) && s.dropper.Joining? && s.running == {} && !s.monitor.Relaunching?
    ensures exists e: Event :: !e.Exit? && Enabled(s, e)
    ensures Moves(s, s') ==>
              s'.dropper.Dropped?
              || (Sound(s') && s'.dropper.Joining? && s'.running == {} && !s'.monitor.Relaunching?
                  && StepsLeft(s'.monitor) < StepsLeft(s.monitor))
  {
    assert Enabled(s, if s.monitor.Done? then Drop else Watch);
    if Moves(s, s') {
      var e: Event :| !e.Exit? && Enabled(s, e) && s' == Next(s, e);
      StepKeepsSound(s, e);
    }
  }

  /** Whatever the two threads do, the drop has returned or still can, although no process ends by itself. */
  ghost predicate SurelyReturns(s: State) {
    forall t: State, n: nat :: Steps(Moves, s, t, n) ==> t.dropper.Dropped? || CanReturn(t)
  }

  lemma {:induction false} NothingAfterDropped(s: State, t: State, n: nat)
    requires Sound(s) && s.dropper.Dropped? && Steps(Moves, s, t, n)
    ensures n == 0 && t == s
  {
  }

  lemma {:induction false} IdleStaysIdle(s: State, t: State, n: nat)
    requires Sound(s) && s.dropper.Joining? && s.running == {} && !s.monitor.Relaunching? && Steps(Moves, s, t, n)
    ensures t.dropper.Dropped? || (Sound(t) && t.dropper.Joining? && t.running == {})
    ensures n <= StepsLeft(s.monitor) + 1
    decreases n
  {
    if n == 0 {
    } else {
      var mid :| Moves(s, mid) && Steps(Moves, mid, t, n - 1);
      IdleSurelyReturns(s, mid);
      if mid.dropper.Dropped? {
        var e: Event :| !e.Exit? && Enabled(s, e) && mid == Next(s, e);
        StepKeepsSound(s, e);
        NothingAfterDropped(mid, t, n - 1);
      } else {
        IdleStaysIdle(mid, t, n - 1);
      }
    }
  }

  /**
   Every way on from the look into the slot lets the drop return without a process ending by itself, exactly when
   the monitor has not taken the child yet or nothing runs, and no launch is under way; then it is over in six steps.
   */
  lemma {:induction false} DropSurelyReturnsExactly(s: State)
    requires Sound(s) && s.dropper.Stopped?
    ensures SurelyReturns(Next(s, Drop)) <==> (s.monitor.Taking? || s.running == {}) && !s.monitor.Relaunching?
    ensures SurelyReturns(Next(s, Drop)) ==> forall t: State, n: nat :: Steps(Moves, Next(s, Drop), t, n) ==> n < 6
  {
    var looked := Next(s, Drop);
    StepKeepsSound(s, Drop);
    DropKillsExactly(s);
    JoiningReturnsExactly(looked);
    if (s.monitor.Taking? || s.running == {}) && !s.monitor.Relaunching? {
      forall t: State, n: nat | Steps(Moves, looked, t, n) ensures (t.dropper.Dropped? || CanReturn(t)) && n < 6 {
        IdleStaysIdle(looked, t, n);
        if !t.dropper.Dropped? {
          JoiningReturnsExactly(t);
        }
      }
    } else if s.monitor.Relaunching? {
      var launched := LaunchHangs(looked);
    } else {
      assert Steps(Moves, looked, looked, 0);
    }
  }

  /** A launch under way when the drop has looked: the fresh child runs, and nobody kills it. */
  lemma {:induction false} LaunchHangs(s: State) returns (t: State)
    requires Sound(s) && s.dropper.Joining? && s.monitor.Relaunching?
    ensures Steps(Moves, s, t, 1) && t.dropper.Joining? && t.running != {} && !CanReturn(t)
  {
    forall child ensures child !in s.running {
      assert !Tracked(s, child);
    }
    t := Next(s, Launch(0));
    StepKeepsSound(s, Launch(0));
    JoiningReturnsExactly(t);
    assert 0 in t.running;
    assert Moves(s, t) && Steps(Moves, t, t, 0);
  }

  /** The first child has ended, and the supervisor is dropped while the monitor launches another. */
  lemma {:induction false} DropDuringALaunch(first: Process, second: Process)
    ensures var events := [Watch, Exit(first), Watch, Watch, Watch, Drop, Drop, Launch(second)];
            exists states: seq<State> ::
              && IsRun(events, states) && states[6].dropper.Stopped? && states[6].running == {} && CanReturn(states[7])
              && states[8].dropper.Joining? && states[8].running == {second} && !CanReturn(states[8])
  {
    var events := [Watch, Exit(first), Watch, Watch, Watch, Drop, Drop, Launch(second)];
    var s0 := Spawned(first);
    var s1 := Next(s0, Watch);
    var s2 := Next(s1, Exit(first));
    var s3 := Next(s2, Watch);
    var s4 := Next(s3, Watch);
    var s5 := Next(s4, Watch);
    var s6 := Next(s5, Drop);
    var s7 := Next(s6, Drop);
    var s8 := Next(s7, Launch(second));
    var states := [s0, s1, s2, s3, s4, s5, s6, s7, s8];
    assert states[0] == Spawned(first);
    assert IsRun(events, states);
    RunsStaySound(events, states, 7);
    RunsStaySound(events, states, 8);
    JoiningReturnsExactly(s7);
    JoiningReturnsExactly(s8);
  }
}
