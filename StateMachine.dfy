/**
 * The proximity ladder of SWALaptop/StateMachine.swift.
 *
 * The machine walks idle -> searching -> unlocked -> lockedShort -> lockedLong -> idle,
 * driven by signal-strength samples and by one optional one-shot timer.  Every
 * assignment to `state` runs an observer that arms or clears the timer for the new
 * state and then notifies the delegate.
 *
 * The module first describes each operation as a function on a `Machine` snapshot
 * (the specification), then gives the class whose methods update the fields in place
 * and are proved to follow those functions, and ends with the properties of the ladder.
 */
module Proximity {
  import opened Wrappers

  datatype State = Idle | Searching | Unlocked | LockedShort | LockedLong

  /** A scheduled one-shot timer: whole seconds until it elapses, and the state it then assigns. */
  datatype Timer = Timer(duration: int, target: State)

  // Signal-strength bounds; only the threshold takes part in a decision.
  const MinRSSI := -80
  const MaxRSSI := -20
  const ThresholdRSSI := -45

  // Timeouts, in seconds.
  const SearchTimeout := 20
  const UnlockedToLockedShortTimeout := 5
  const LockedShortToLockedLongTimeout := 15
  const LockedLongToIdleTimeout := 20

  /**
   * Everything the machine holds: its state, the pending timer (Swift's `timer`), the
   * states reported to the delegate so far, and how many timers have been scheduled
   * (which tells a kept timer from a freshly scheduled one of the same duration).
   */
  datatype Machine = Machine(state: State, pending: Option<Timer>, notified: seq<State>, scheduled: nat)

  /** A new machine: idle, no timer, nothing reported (the initial value runs no observer). */
  const Initial := Machine(Idle, None, [], 0)

  /** A sample at the threshold itself counts as strong. */
  predicate IsAboveThreshold(rssi: int): (above: bool)
    ensures above <==> -45 <= rssi
  {
    rssi >= ThresholdRSSI
  }

  // ---------------------------------------------------------------------------
  // Specification of each operation

  /** `startTimer`: schedules `t` unless a timer is already pending. */
  function Arm(m: Machine, t: Timer): (r: Machine)
    ensures r.pending.Some? && r.state == m.state && r.notified == m.notified
    ensures m.pending.Some? ==> r == m
    ensures m.pending.None? ==> r.pending == Some(t) && r.scheduled == m.scheduled + 1
  {
    if m.pending.None? then m.(pending := Some(t), scheduled := m.scheduled + 1) else m
  }

  /** `stopTimer`: invalidates and forgets the pending timer, if any. */
  function Disarm(m: Machine): (r: Machine)
    ensures r.pending.None?
    ensures r.state == m.state && r.notified == m.notified && r.scheduled == m.scheduled
  {
    m.(pending := None)
  }

  /** `state = s` together with its observer: the timer of the new state, then the delegate. */
  function Enter(m: Machine, s: State): (r: Machine)
    ensures r.state == s && r.notified == m.notified + [s]
    ensures s == Idle || s == Unlocked ==> r.pending.None?
    ensures s != Unlocked && m.pending.None? ==> r.pending == Governing(s)
  {
    var m' := m.(state := s);
    var armed := match s
      case Idle => Disarm(m')
      case Searching => Arm(m', Timer(SearchTimeout, Idle))
      case Unlocked => Disarm(m')
      case LockedShort => Arm(m', Timer(LockedShortToLockedLongTimeout, LockedLong))
      case LockedLong => Arm(m', Timer(LockedLongToIdleTimeout, Idle));
    armed.(notified := armed.notified + [s])
  }

  /** `startSearch`: acts only from idle. */
  function OnStartSearch(m: Machine): Machine {
    if m.state == Idle then Enter(m, Searching) else m
  }

  /** `idle`: assigns idle from any state. */
  function OnIdle(m: Machine): Machine {
    Enter(m, Idle)
  }

  /** `updateRSSI`: one signal-strength sample. */
  function OnUpdateRSSI(m: Machine, rssi: int): Machine {
    match m.state
    case Idle => m
    case LockedLong => m
    case Searching =>
      if IsAboveThreshold(rssi) then Enter(Disarm(m), Unlocked) else m
    case Unlocked =>
      if IsAboveThreshold(rssi) then Disarm(m)
      else Arm(m, Timer(UnlockedToLockedShortTimeout, LockedShort))
    case LockedShort =>
      if IsAboveThreshold(rssi) then Enter(Disarm(m), Unlocked) else m
  }

  /** The pending timer elapses: its closure forgets the timer, then assigns its target. */
  function OnFire(m: Machine): Machine
    requires m.pending.Some?
  {
    Enter(m.(pending := None), m.pending.value.target)
  }

  // ---------------------------------------------------------------------------
  // The object, updated in place

  class StateMachine {
    var state: State
    var pending: Option<Timer>
    var notified: seq<State>
    ghost var scheduled: nat

    ghost function Snapshot(): Machine
      reads this
    {
      Machine(state, pending, notified, scheduled)
    }

    ghost predicate Valid()
      reads this
    {
      Invariant(Snapshot())
    }

    constructor ()
      ensures Valid() && Snapshot() == Initial
    {
      state, pending, notified, scheduled := State.Idle, None, [], 0;
    }

    /** The `didSet` observer of `state`, run by every assignment to it. */
    method SetState(s: State)
      modifies this
      ensures Snapshot() == Enter(old(Snapshot()), s)
    {
      state := s;
      match s {
        case Idle => StopTimer();
        case Searching => StartTimer(SearchTimeout, State.Idle);
        case Unlocked => StopTimer();
        case LockedShort => StartTimer(LockedShortToLockedLongTimeout, LockedLong);
        case LockedLong => StartTimer(LockedLongToIdleTimeout, State.Idle);
      }
      notified := notified + [s];
    }

    method StartTimer(duration: int, target: State)
      modifies this
      ensures Snapshot() == Arm(old(Snapshot()), Timer(duration, target))
    {
      if pending.None? {
        pending := Some(Timer(duration, target));
        scheduled := scheduled + 1;
      }
    }

    method StopTimer()
      modifies this
      ensures Snapshot() == Disarm(old(Snapshot()))
    {
      if pending.Some? {
        pending := None;
      }
    }

    method StartSearch()
      requires Valid()
      modifies this
      ensures Valid() && Snapshot() == OnStartSearch(old(Snapshot()))
    {
      if state != State.Idle {
        return;
      }
      SetState(Searching);
    }

    method Idle()
      requires Valid()
      modifies this
      ensures Valid() && Snapshot() == OnIdle(old(Snapshot()))
    {
      SetState(State.Idle);
    }

    method UpdateRSSI(rssi: int)
      requires Valid()
      modifies this
      ensures Valid() && Snapshot() == OnUpdateRSSI(old(Snapshot()), rssi)
    {
      match state {
        case Idle =>
        case LockedLong =>
        case Searching =>
          if IsAboveThreshold(rssi) {
            StopTimer();
            SetState(Unlocked);
          }
        case Unlocked =>
          if IsAboveThreshold(rssi) {
            StopTimer();
          } else {
            StartTimer(UnlockedToLockedShortTimeout, LockedShort);
          }
        case LockedShort =>
          if IsAboveThreshold(rssi) {
            StopTimer();
            SetState(Unlocked);
          }
      }
      StepPreservesInvariant(old(Snapshot()), Sample(rssi));
    }

    /** The pending timer elapses and runs its closure. */
    method Fire()
      requires Valid() && pending.Some?
      modifies this
      ensures Valid() && Snapshot() == OnFire(old(Snapshot()))
    {
      var target := pending.value.target;
      pending := None;
      SetState(target);
      StepPreservesInvariant(old(Snapshot()), Elapse);
    }
  }

  // ---------------------------------------------------------------------------
  // Reference definitions

  /** The timer that governs each rung of the ladder, and the rung it leads to. */
  function Governing(s: State): Option<Timer> {
    match s
    case Idle => None
    case Searching => Some(Timer(20, Idle))
    case Unlocked => Some(Timer(5, LockedShort))
    case LockedShort => Some(Timer(15, LockedLong))
    case LockedLong => Some(Timer(20, Idle))
  }

  /**
   * The timer invariant: at most one timer (by construction), idle never has one, any
   * pending timer is the one governing the current rung, and the rungs that are left
   * only by a timeout always have theirs.
   */
  predicate TimerInvariant(m: Machine) {
    && (m.pending.Some? ==> m.pending == Governing(m.state))
    && (m.state == Searching || m.state == LockedShort || m.state == LockedLong ==> m.pending.Some?)
  }

  /** The delegate's last report is the current state; with no report yet, the machine is idle. */
  predicate DelegateInSync(m: Machine) {
    if m.notified == [] then m.state == Idle else m.notified[|m.notified| - 1] == m.state
  }

  predicate Invariant(m: Machine) {
    TimerInvariant(m) && DelegateInSync(m)
  }

  /** The inputs the machine reacts to. */
  datatype Event = BeginSearch | ForceIdle | Sample(rssi: int) | Elapse

  /** One event; a timer that is not scheduled cannot elapse, so `Elapse` then changes nothing. */
  function Step(m: Machine, e: Event): Machine {
    match e
    case BeginSearch => OnStartSearch(m)
    case ForceIdle => OnIdle(m)
    case Sample(rssi) => OnUpdateRSSI(m, rssi)
    case Elapse => if m.pending.Some? then OnFire(m) else m
  }

  /** Events are handled one at a time, in order. */
  function Run(m: Machine, es: seq<Event>): Machine
    decreases |es|
  {
    if es == [] then m else Run(Step(m, es[0]), es[1..])
  }

  /** Whether handling `e` in `m` assigns `state` (and so runs the observer). */
  predicate Assigns(m: Machine, e: Event) {
    match e
    case BeginSearch => m.state == Idle
    case ForceIdle => true
    case Sample(rssi) => (m.state == Searching || m.state == LockedShort) && rssi >= -45
    case Elapse => m.pending.Some?
  }

  /** `n` consecutive timeouts with no sample in between. */
  function Elapses(n: nat): (es: seq<Event>)
    ensures |es| == n && forall i :: 0 <= i < n ==> es[i] == Elapse
  {
    if n == 0 then [] else [Elapse] + Elapses(n - 1)
  }

  /** How many timeouts separate a rung from idle when no strong sample arrives. */
  function RungsToIdle(s: State): nat {
    match s
    case Idle => 0
    case Searching => 1
    case Unlocked => 3
    case LockedShort => 2
    case LockedLong => 1
  }

  // ---------------------------------------------------------------------------
  // Properties

  /** The threshold is inclusive: -45 counts as above, -46 does not, and stronger is above too. */
  /** `startSearch` moves idle to searching with the 20 s search timer; elsewhere it changes nothing. */
  lemma StartSearchTable(m: Machine)
    ensures m.state == Idle && m.pending.None? ==>
      OnStartSearch(m) == Machine(Searching, Some(Timer(20, Idle)), m.notified + [Searching], m.scheduled + 1)
    ensures m.state != Idle ==> OnStartSearch(m) == m
  {
  }

  /** `idle` lands in idle with no timer and reports it, even when already idle. */
  lemma IdleTable(m: Machine)
    ensures OnIdle(m) == Machine(Idle, None, m.notified + [Idle], m.scheduled)
  {
  }

  /**
   * A sample outside unlocked either unlocks (from searching or lockedShort, with no timer
   * left) or changes nothing; a sample in unlocked never changes the state nor reports,
   * and only arms the 5 s timer when none is pending.
   */
  lemma UpdateRSSITable(m: Machine, rssi: int)
    ensures m.state == Idle || m.state == LockedLong ==> OnUpdateRSSI(m, rssi) == m
    ensures m.state == Searching || m.state == LockedShort ==>
      OnUpdateRSSI(m, rssi) ==
        if rssi >= -45 then Machine(Unlocked, None, m.notified + [Unlocked], m.scheduled) else m
    ensures m.state == Unlocked ==>
      var r := OnUpdateRSSI(m, rssi);
      && r.state == Unlocked && r.notified == m.notified
      && (rssi >= -45 ==> r.pending.None? && r.scheduled == m.scheduled)
      && (rssi < -45 ==> r.pending.Some?)
      && (rssi < -45 ==> r.scheduled == if m.pending.Some? then m.scheduled else m.scheduled + 1)
    ensures Invariant(m) && m.state == Unlocked && rssi < -45 ==>
      OnUpdateRSSI(m, rssi).pending == Some(Timer(5, LockedShort))
  {
  }

  /** A timeout climbs exactly one rung, to the target of the governing timer, and arms the next one. */
  lemma FireStepsOneRung(m: Machine)
    requires Invariant(m) && m.pending.Some?
    ensures var r := OnFire(m);
      && m.pending == Governing(m.state)
      && r.state == Governing(m.state).value.target
      && r.pending == Governing(r.state)
      && r.notified == m.notified + [r.state]
  {
  }

  /** Every event keeps the timer invariant and the delegate in step with the state. */
  lemma StepPreservesInvariant(m: Machine, e: Event)
    requires Invariant(m)
    ensures Invariant(Step(m, e))
  {
  }

  /** An event reports exactly once when it assigns `state`, with the new state, and otherwise keeps the state. */
  lemma StepNotifies(m: Machine, e: Event)
    ensures Step(m, e).notified == if Assigns(m, e) then m.notified + [Step(m, e).state] else m.notified
    ensures !Assigns(m, e) ==> Step(m, e).state == m.state
  {
  }

  /**
   * The delegate is called as the last step of handling an event, once state, timer and
   * report are all in place. A delegate that calls back into the machine from that report
   * therefore acts as the next event, and the invariant still holds afterwards.
   */
  lemma CallbackActsAsNextEvent(m: Machine, first: Event, callback: Event)
    requires Invariant(m) && Assigns(m, first)
    ensures Step(m, first).notified == m.notified + [Step(m, first).state]
    ensures Run(m, [first, callback]) == Step(Step(m, first), callback)
    ensures Invariant(Step(Step(m, first), callback))
  {
    StepNotifies(m, first);
    StepPreservesInvariant(m, first);
    StepPreservesInvariant(Step(m, first), callback);
    var m1 := Step(m, first);
    assert [first, callback][1..] == [callback] && [callback][1..] == [];
    assert Run(m1, [callback]) == Run(Step(m1, callback), []);
  }

  lemma {:induction false} RunPreservesInvariant(m: Machine, es: seq<Event>)
    requires Invariant(m)
    ensures Invariant(Run(m, es))
    decreases |es|
  {
    if es != [] {
      StepPreservesInvariant(m, es[0]);
      RunPreservesInvariant(Step(m, es[0]), es[1..]);
    }
  }

  /** Every state reachable from a new machine satisfies the invariant. */
  lemma ReachableInvariant(es: seq<Event>)
    ensures Invariant(Run(Initial, es))
  {
    RunPreservesInvariant(Initial, es);
  }

  /** Reports are only ever appended: the delegate's history is never rewritten. */
  lemma {:induction false} RunOnlyAppendsReports(m: Machine, es: seq<Event>)
    ensures m.notified <= Run(m, es).notified
    decreases |es|
  {
    if es != [] {
      StepNotifies(m, es[0]);
      RunOnlyAppendsReports(Step(m, es[0]), es[1..]);
    }
  }

  /**
   * Weak samples while unlocked with the 5 s timer pending neither reset that timer nor
   * schedule another one: the deadline stays where the first weak sample put it.
   */
  lemma {:induction false} WeakSamplesKeepDeadline(m: Machine, es: seq<Event>)
    requires Invariant(m) && m.state == Unlocked && m.pending.Some?
    requires forall i :: 0 <= i < |es| ==> es[i].Sample? && es[i].rssi < -45
    ensures Run(m, es) == m
    decreases |es|
  {
    if es != [] {
      assert Step(m, es[0]) == m;
      WeakSamplesKeepDeadline(m, es[1..]);
    }
  }

  /**
   * Once a timer is pending, silence resolves to idle: the remaining timeouts of the
   * ladder bring the machine to idle with no timer left.
   */
  lemma {:induction false} SilenceReachesIdle(m: Machine)
    requires Invariant(m) && m.pending.Some?
    ensures Run(m, Elapses(RungsToIdle(m.state))).state == Idle
    ensures Run(m, Elapses(RungsToIdle(m.state))).pending.None?
    decreases RungsToIdle(m.state)
  {
    var n := RungsToIdle(m.state);
    var m' := Step(m, Elapse);
    FireStepsOneRung(m);
    StepPreservesInvariant(m, Elapse);
    assert Elapses(n)[1..] == Elapses(n - 1);
    if m'.state != Idle {
      SilenceReachesIdle(m');
    } else {
      assert Elapses(n - 1) == [];
    }
  }

  /**
   * Unlocked with no timer pending is reachable: a strong sample while searching leaves
   * the machine there.
   */
  lemma UnlockedWithoutTimerIsReachable()
    ensures Run(Initial, [BeginSearch, Sample(-30)]) == Machine(Unlocked, None, [Searching, Unlocked], 1)
  {
    var m1 := Step(Initial, BeginSearch);
    assert m1 == Machine(Searching, Some(Timer(20, Idle)), [Searching], 1);
  }

  /**
   * Silence does not relock: unlocked with no timer pending stays exactly as it is however
   * long no sample arrives, since only a weak sample arms the 5 s timer.
   */
  lemma {:induction false} SilenceKeepsUnlocked(m: Machine, n: nat)
    requires m.state == Unlocked && m.pending.None?
    ensures Run(m, Elapses(n)) == m
    decreases n
  {
    if n > 0 {
      assert Elapses(n)[1..] == Elapses(n - 1);
      SilenceKeepsUnlocked(m, n - 1);
    }
  }

  /**
   * A weak sample while unlocked followed by silence: three timeouts walk lockedShort and
   * lockedLong and end in idle with no timer left.
   */
  lemma WeakSampleThenSilenceReachesIdle(m: Machine, rssi: int)
    requires Invariant(m) && m.state == Unlocked && rssi < -45
    ensures Run(m, [Sample(rssi)] + Elapses(3)).state == Idle
    ensures Run(m, [Sample(rssi)] + Elapses(3)).pending.None?
  {
    var m' := Step(m, Sample(rssi));
    StepPreservesInvariant(m, Sample(rssi));
    assert m'.state == Unlocked && m'.pending.Some?;
    assert ([Sample(rssi)] + Elapses(3))[1..] == Elapses(3);
    SilenceReachesIdle(m');
  }

  /**
   * The whole ladder from a new machine: a strong sample unlocks, a weak one arms the
   * 5 s timer, and three timeouts walk lockedShort, lockedLong and back to idle with no
   * timer left and one report per state entered.
   */
  lemma LadderRoundTrip()
    ensures Run(Initial, [BeginSearch, Sample(-30), Sample(-60), Elapse, Elapse, Elapse])
         == Machine(Idle, None, [Searching, Unlocked, LockedShort, LockedLong, Idle], 4)
  {
    var m1 := Step(Initial, BeginSearch);
    var m2 := Step(m1, Sample(-30));
    var m3 := Step(m2, Sample(-60));
    assert m3 == Machine(Unlocked, Some(Timer(5, LockedShort)), [Searching, Unlocked], 2);
  }
}
