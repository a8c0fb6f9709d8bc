/**
 * The login/lock pair of SWALaptop/User.swift, the simpler variant of the
 * proximity machine: no timers, two coupled fields, and one delegate report per field
 * assignment.
 *
 * As in module Proximity, each operation is first a function on a `Session` snapshot,
 * then a method of the class that updates the fields in place.
 */
module Users {
  import opened Wrappers

  datatype LoginState = LoggedOut | Searching | LoggedIn
  datatype LockState = Locked | Unlocked

  /** One delegate call: `didUpdateLoginState` or `didUpdateLockState`. */
  datatype Report = LoginChanged(login: LoginState) | LockChanged(lock: LockState)

  // Signal-strength bounds; only the threshold takes part in a decision.
  const MinRSSI := -80
  const MaxRSSI := -20
  const ThresholdRSSI := -45

  /** The two fields and the delegate calls made so far, oldest first. */
  datatype Session = Session(login: LoginState, lock: LockState, reports: seq<Report>)

  /** A new user: logged out and locked; the initial values run no observer. */
  const Initial := Session(LoggedOut, Locked, [])

  /** A sample at the threshold itself counts as strong. */
  predicate IsAboveThreshold(rssi: int): (above: bool)
    ensures above <==> -45 <= rssi
  {
    rssi >= ThresholdRSSI
  }

  // ---------------------------------------------------------------------------
  // Specification of each operation

  /** `loginState = s` together with its observer. */
  function SetLogin(u: Session, s: LoginState): Session {
    u.(login := s, reports := u.reports + [LoginChanged(s)])
  }

  /** `lockState = s` together with its observer. */
  function SetLock(u: Session, s: LockState): Session {
    u.(lock := s, reports := u.reports + [LockChanged(s)])
  }

  /** `login`: acts only when logged out. */
  function OnLogin(u: Session): Session {
    if u.login == LoggedOut then SetLogin(u, Searching) else u
  }

  /** `logout`: acts only when logged in, and logs out before locking. */
  function OnLogout(u: Session): Session {
    if u.login == LoggedIn then SetLock(SetLogin(u, LoggedOut), Locked) else u
  }

  /** `updateRSSI`: one signal-strength sample. */
  function OnUpdateRSSI(u: Session, rssi: int): Session {
    match u.login
    case LoggedOut => u
    case Searching =>
      if IsAboveThreshold(rssi) then SetLock(SetLogin(u, LoggedIn), Unlocked) else u
    case LoggedIn =>
      if !IsAboveThreshold(rssi) then SetLock(SetLogin(u, LoggedOut), Locked) else u
  }

  // ---------------------------------------------------------------------------
  // The object, updated in place

  class User {
    var loginState: LoginState
    var lockState: LockState
    var reports: seq<Report>

    ghost function Snapshot(): Session
      reads this
    {
      Session(loginState, lockState, reports)
    }

    ghost predicate Valid()
      reads this
    {
      Invariant(Snapshot())
    }

    constructor ()
      ensures Valid() && Snapshot() == Initial
    {
      loginState, lockState, reports := LoggedOut, Locked, [];
    }

    /** Assignment to `loginState`, with its `didSet` observer. */
    method SetLoginState(s: LoginState)
      modifies this
      ensures Snapshot() == SetLogin(old(Snapshot()), s)
    {
      loginState := s;
      reports := reports + [LoginChanged(s)];
    }

    /** Assignment to `lockState`, with its `didSet` observer. */
    method SetLockState(s: LockState)
      modifies this
      ensures Snapshot() == SetLock(old(Snapshot()), s)
    {
      lockState := s;
      reports := reports + [LockChanged(s)];
    }

    method Login()
      requires Valid()
      modifies this
      ensures Valid() && Snapshot() == OnLogin(old(Snapshot()))
    {
      if loginState != LoggedOut {
        return;
      }
      SetLoginState(Searching);
      StepPreservesInvariant(old(Snapshot()), LoginCommand);
    }

    method Logout()
      requires Valid()
      modifies this
      ensures Valid() && Snapshot() == OnLogout(old(Snapshot()))
    {
      if loginState != LoggedIn {
        return;
      }
      SetLoginState(LoggedOut);
      SetLockState(Locked);
      StepPreservesInvariant(old(Snapshot()), LogoutCommand);
    }

    method UpdateRSSI(rssi: int)
      requires Valid()
      modifies this
      ensures Valid() && Snapshot() == OnUpdateRSSI(old(Snapshot()), rssi)
    {
      match loginState {
        case LoggedOut =>
        case Searching =>
          if IsAboveThreshold(rssi) {
            SetLoginState(LoggedIn);
            SetLockState(Unlocked);
          }
        case LoggedIn =>
          if !IsAboveThreshold(rssi) {
            SetLoginState(LoggedOut);
            SetLockState(Locked);
          }
      }
      StepPreservesInvariant(old(Snapshot()), Sample(rssi));
    }
  }

  // ---------------------------------------------------------------------------
  // Reference definitions

  /** The most recent login state reported, if any. */
  function LastLogin(rs: seq<Report>): Option<LoginState>
    decreases |rs|
  {
    if rs == [] then None
    else match rs[|rs| - 1]
      case LoginChanged(s) => Some(s)
      case LockChanged(_) => LastLogin(rs[..|rs| - 1])
  }

  /** The most recent lock state reported, if any. */
  function LastLock(rs: seq<Report>): Option<LockState>
    decreases |rs|
  {
    if rs == [] then None
    else match rs[|rs| - 1]
      case LockChanged(s) => Some(s)
      case LoginChanged(_) => LastLock(rs[..|rs| - 1])
  }

  /** The two fields agree: unlocked exactly when logged in. */
  predicate Consistent(u: Session) {
    u.lock == Unlocked <==> u.login == LoggedIn
  }

  /** The delegate last heard of each field's current value (or of none, while it keeps its initial value). */
  predicate DelegateInSync(u: Session) {
    LastLogin(u.reports).GetOr(LoggedOut) == u.login && LastLock(u.reports).GetOr(Locked) == u.lock
  }

  predicate Invariant(u: Session) {
    Consistent(u) && DelegateInSync(u)
  }

  datatype Event = LoginCommand | LogoutCommand | Sample(rssi: int)

  function Step(u: Session, e: Event): Session {
    match e
    case LoginCommand => OnLogin(u)
    case LogoutCommand => OnLogout(u)
    case Sample(rssi) => OnUpdateRSSI(u, rssi)
  }

  function Run(u: Session, es: seq<Event>): Session
    decreases |es|
  {
    if es == [] then u else Run(Step(u, es[0]), es[1..])
  }

  // ---------------------------------------------------------------------------
  // Properties

  /** A new report of a field becomes the delegate's view of that field and leaves the other alone. */
  lemma LastReport(rs: seq<Report>, r: Report)
    ensures r.LoginChanged? ==> LastLogin(rs + [r]) == Some(r.login) && LastLock(rs + [r]) == LastLock(rs)
    ensures r.LockChanged? ==> LastLock(rs + [r]) == Some(r.lock) && LastLogin(rs + [r]) == LastLogin(rs)
  {
  }

  /** `login` starts searching from logged out and leaves the lock alone; otherwise it changes nothing. */
  lemma LoginTable(u: Session)
    ensures u.login == LoggedOut ==> OnLogin(u) == Session(Searching, u.lock, u.reports + [LoginChanged(Searching)])
    ensures Invariant(u) && u.login == LoggedOut ==> OnLogin(u).lock == Locked
    ensures u.login != LoggedOut ==> OnLogin(u) == u
  {
  }

  /** `logout` from logged in reports logged out, then locked; otherwise it changes nothing. */
  lemma LogoutTable(u: Session)
    ensures u.login == LoggedIn ==>
      OnLogout(u) == Session(LoggedOut, Locked, u.reports + [LoginChanged(LoggedOut), LockChanged(Locked)])
    ensures u.login != LoggedIn ==> OnLogout(u) == u
  {
  }

  /**
   * Samples: ignored while logged out; while searching, -45 or stronger logs in and
   * unlocks (in that order) and a weaker one changes nothing; while logged in, weaker
   * than -45 logs out and locks (in that order) and a stronger one changes nothing.
   */
  lemma UpdateRSSITable(u: Session, rssi: int)
    ensures u.login == LoggedOut ==> OnUpdateRSSI(u, rssi) == u
    ensures u.login == Searching ==>
      OnUpdateRSSI(u, rssi) ==
        if rssi >= -45 then Session(LoggedIn, Unlocked, u.reports + [LoginChanged(LoggedIn), LockChanged(Unlocked)])
        else u
    ensures u.login == LoggedIn ==>
      OnUpdateRSSI(u, rssi) ==
        if rssi < -45 then Session(LoggedOut, Locked, u.reports + [LoginChanged(LoggedOut), LockChanged(Locked)])
        else u
  {
  }

  lemma StepPreservesInvariant(u: Session, e: Event)
    requires Invariant(u)
    ensures Invariant(Step(u, e))
  {
  }

  lemma {:induction false} RunPreservesInvariant(u: Session, es: seq<Event>)
    requires Invariant(u)
    ensures Invariant(Run(u, es))
    decreases |es|
  {
    if es != [] {
      StepPreservesInvariant(u, es[0]);
      RunPreservesInvariant(Step(u, es[0]), es[1..]);
    }
  }

  /** From the initial logged-out, locked pair, the lock is open exactly when the user is logged in. */
  lemma ReachableConsistent(es: seq<Event>)
    ensures Run(Initial, es).lock == Unlocked <==> Run(Initial, es).login == LoggedIn
  {
    RunPreservesInvariant(Initial, es);
  }

  /** There is no timeout: weak samples leave a searching user searching, however many arrive. */
  lemma {:induction false} SearchingHasNoTimeout(u: Session, es: seq<Event>)
    requires u.login == Searching
    requires forall i :: 0 <= i < |es| ==> es[i].Sample? && es[i].rssi < -45
    ensures Run(u, es) == u
    decreases |es|
  {
    if es != [] {
      assert Step(u, es[0]) == u;
      SearchingHasNoTimeout(u, es[1..]);
    }
  }
}
