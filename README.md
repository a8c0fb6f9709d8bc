# SWALaptop proximity state machines, in Dafny

SWALaptop is a prototype that holds two state machines driven by radio signal strength
(RSSI). Each machine reports its changes to a delegate. Nothing in the repository feeds
either machine: no code calls their `updateRSSI`, and the Bluetooth code hands its RSSI
readings to a delegate that nothing sets. This project models both machines:

- **`StateMachine`** (module `Proximity`, `StateMachine.dfy`) is a five-rung ladder:
  `idle → searching → unlocked → lockedShort → lockedLong → idle`.
  - A sample counts as strong when it is at or above the inclusive threshold of -45.
  - One optional one-shot timer drives the timeout rungs.
  - Every assignment to `state` runs an observer. The observer arms or clears the timer
    for the new state, then reports the new state to the delegate.
- **`User`** (module `Users`, `User.dfy`) is the simpler variant. It has two coupled
  fields, `loginState` (loggedOut/searching/loggedIn) and `lockState` (locked/unlocked),
  and no timers. Each field assignment reports to the delegate.

Each module has three layers:

1. A value snapshot of the object: `Machine` or `Session`.
2. One function per operation on that snapshot (`OnStartSearch`, `OnUpdateRSSI`,
   `OnFire`, `OnLogin`, ...). These functions follow the Swift code branch by branch:
   - `Enter`, `SetLogin` and `SetLock` are the `didSet` observers.
   - `Arm` is `startTimer`, including its "already pending" guard.
   - `Disarm` is `stopTimer`.
3. A class with the source's mutable fields. Each method updates the fields in place and
   is proved to produce `Snapshot() == On…(old(Snapshot()))` while keeping `Valid()`.
   The constructor establishes `Valid()`. Every public operation preserves it:
   `StartSearch`, `Idle`, `UpdateRSSI` and `Fire` of `StateMachine`, and `Login`, `Logout`
   and `UpdateRSSI` of `User`. The helpers `SetState`, `StartTimer`, `StopTimer`,
   `SetLoginState` and `SetLockState` stand for Swift's `didSet` observers and `private`
   methods. In Swift, callers cannot invoke them. Here they are ordinary methods that are
   not meant to be called from outside, and they neither require nor promise `Valid()`.

The properties are lemmas about the snapshot functions. Event traces (`Step`, `Run`)
apply one event at a time, in order.

The durations are whole-second `Double` literals in the source (20.0, 5.0, 15.0, 20.0).
Here they are integer constants.

The pending timer is `pending: Option<Timer>`, where `Timer(duration, target)` stands for
Swift's `Timer?`. The ghost counter `scheduled` records how many timers have been created. It
makes "the pending timer was kept" distinguishable from "an equal timer was scheduled
again". `Fire` is the pending timer elapsing and running its closure.

The delegate is represented only by the reports it has received (`notified`, `reports`).

Behaviour of the code worth knowing:

- In `unlocked`, a weak sample does not lock at once. It only arms a 5 s timer
  (`StateMachine.swift:79-84`), and `lockedShort` is entered when that timer fires
  (`StateMachine.swift:96-101`). `LadderRoundTrip` walks this path.
- The guard in `startTimer` against arming a second timer is reachable. A second weak
  sample in `unlocked` hits it, and the guard keeps the first deadline
  (`WeakSamplesKeepDeadline`).
- Silence alone does not lock an unlocked machine. A strong sample while searching leaves
  `unlocked` with no timer pending (`UnlockedWithoutTimerIsReachable`). From there, no
  number of timeouts changes anything (`SilenceKeepsUnlocked`). Only a weak sample starts
  the descent to `idle`. After one weak sample, three timeouts reach `idle`
  (`WeakSampleThenSilenceReachesIdle`). When samples stop arriving altogether, the machine
  stays in `unlocked`: `StateMachine` has no input for a lost link.

## Model

| member | source | states |
|---|---|---|
| `Proximity.StateMachine.constructor` | SWALaptop/StateMachine.swift:36-55 | a new machine is idle, has no timer and has reported nothing, and satisfies the invariant |
| `Proximity.StateMachine.SetState` | SWALaptop/StateMachine.swift:36-53 | assigning `state` arms or clears the timer of the new state, then appends one report of it |
| `Proximity.StateMachine.StartTimer` | SWALaptop/StateMachine.swift:93-102 | schedules the timer only if none is pending; otherwise nothing changes |
| `Proximity.StateMachine.StopTimer` | SWALaptop/StateMachine.swift:104-109 | afterwards no timer is pending; nothing else changes |
| `Proximity.StateMachine.StartSearch` | SWALaptop/StateMachine.swift:57-60 | in-place update matches `OnStartSearch` and keeps the invariant |
| `Proximity.StateMachine.Idle` | SWALaptop/StateMachine.swift:62-64 | in-place update matches `OnIdle` and keeps the invariant |
| `Proximity.StateMachine.UpdateRSSI` | SWALaptop/StateMachine.swift:70-91 | in-place update matches `OnUpdateRSSI` and keeps the invariant |
| `Proximity.StateMachine.Fire` | SWALaptop/StateMachine.swift:96-101 | the closure forgets the timer, then assigns its target; matches `OnFire` and keeps the invariant |
| `Proximity.IsAboveThreshold` | SWALaptop/StateMachine.swift:66-68 | a sample is above the threshold exactly when it is -45 or stronger |
| `Proximity.Arm` | SWALaptop/StateMachine.swift:93-102 | afterwards a timer is pending; an already pending timer is kept and nothing changes; otherwise the given timer is scheduled (one more timer created); state and reports are untouched |
| `Proximity.Disarm` | SWALaptop/StateMachine.swift:104-109 | afterwards no timer is pending; state, reports and the timer count are untouched |
| `Proximity.Enter` | SWALaptop/StateMachine.swift:36-53 | assigning `s` sets the state to `s` and appends exactly one report of `s`; idle and unlocked leave no timer; entering any other state with no timer pending arms the timer that governs it (searching 20 s → idle, lockedShort 15 s → lockedLong, lockedLong 20 s → idle) |
| `Proximity.StartSearchTable` | SWALaptop/StateMachine.swift:57-60 | from idle with no timer pending (every reachable idle machine): searching, with the 20 s timer targeting idle, one report and one new timer; from any other state: nothing changes (state, timer, reports) |
| `Proximity.IdleTable` | SWALaptop/StateMachine.swift:62-64 | `idle` always ends in idle with no timer and reports idle, even when the machine was already idle |
| `Proximity.UpdateRSSITable` | SWALaptop/StateMachine.swift:70-91 | idle and lockedLong ignore every sample. In searching or lockedShort, -45 or stronger gives unlocked with no timer and one report; weaker changes nothing. In unlocked, the state never changes and nothing is reported: a strong sample clears the timer; a weak one leaves a timer pending, scheduling one only if none was pending, and under the timer invariant that timer is the 5 s one targeting lockedShort. Only that last clause depends on the invariant; the rest hold for every machine |
| `Proximity.FireStepsOneRung` | SWALaptop/StateMachine.swift:96-101 | a firing timer is the one that governs the current rung; the machine moves to that timer's target, the next rung's timer is armed, and exactly one report is added |
| `Proximity.StepPreservesInvariant` | SWALaptop/StateMachine.swift:36-109 | every event keeps the timer invariant and keeps the delegate's last report equal to the state. Timer invariant: idle has no timer; a pending timer is the one governing the current rung; searching, lockedShort and lockedLong always have one |
| `Proximity.StepNotifies` | SWALaptop/StateMachine.swift:57-101 | an event appends exactly one report, of the new state, exactly when it assigns `state`; otherwise it adds none and leaves the state unchanged |
| `Proximity.CallbackActsAsNextEvent` | SWALaptop/StateMachine.swift:36-53 | the delegate is called once state, timer and report are in place, so an event the delegate issues from that report acts as the next event of the trace and keeps the invariant |
| `Proximity.RunPreservesInvariant` | SWALaptop/StateMachine.swift:36-109 | the invariant holds after any sequence of events handled in order |
| `Proximity.ReachableInvariant` | SWALaptop/StateMachine.swift:36-55 | every state reachable from a new machine satisfies the invariant |
| `Proximity.RunOnlyAppendsReports` | SWALaptop/StateMachine.swift:51 | the delegate's history is only ever extended, never rewritten |
| `Proximity.WeakSamplesKeepDeadline` | SWALaptop/StateMachine.swift:79-94 | in unlocked with the 5 s timer pending, any number of weak samples leaves everything unchanged: the deadline is not reset and no new timer is scheduled |
| `Proximity.SilenceReachesIdle` | SWALaptop/StateMachine.swift:39-50 | once a timer is pending, with no sample arriving, at most three timeouts bring the machine to idle with no timer left |
| `Proximity.UnlockedWithoutTimerIsReachable` | SWALaptop/StateMachine.swift:74-78 | from a new machine, begin search then a strong sample leaves the machine unlocked with no timer pending |
| `Proximity.SilenceKeepsUnlocked` | SWALaptop/StateMachine.swift:79-84 | unlocked with no timer pending is left unchanged by any number of timeouts: only a weak sample arms the 5 s timer |
| `Proximity.WeakSampleThenSilenceReachesIdle` | SWALaptop/StateMachine.swift:79-101 | in unlocked, one weak sample followed by three timeouts reaches idle with no timer left |
| `Proximity.LadderRoundTrip` | SWALaptop/StateMachine.swift:36-109 | from a new machine: begin search, sample -30, sample -60, then three timeouts. The machine ends idle with no timer, having reported searching, unlocked, lockedShort, lockedLong, idle, and having scheduled four timers |
| `Users.User.constructor` | SWALaptop/User.swift:25-35 | a new user is logged out and locked, has reported nothing, and satisfies the invariant |
| `Users.User.SetLoginState` | SWALaptop/User.swift:25-29 | assigning `loginState` appends one login report of the new value |
| `Users.User.SetLockState` | SWALaptop/User.swift:31-35 | assigning `lockState` appends one lock report of the new value |
| `Users.User.Login` | SWALaptop/User.swift:39-42 | in-place update matches `OnLogin` and keeps the invariant |
| `Users.User.Logout` | SWALaptop/User.swift:44-48 | in-place update matches `OnLogout` and keeps the invariant |
| `Users.User.UpdateRSSI` | SWALaptop/User.swift:54-70 | in-place update matches `OnUpdateRSSI` and keeps the invariant |
| `Users.IsAboveThreshold` | SWALaptop/User.swift:50-52 | a sample is above the threshold exactly when it is -45 or stronger |
| `Users.LastReport` | SWALaptop/User.swift:25-35 | a new report of one field becomes the delegate's latest view of that field and leaves its view of the other field unchanged |
| `Users.LoginTable` | SWALaptop/User.swift:39-42 | from logged out, in any session: searching, `lockState` untouched, one login report (so still locked from a consistent session); otherwise nothing changes |
| `Users.LogoutTable` | SWALaptop/User.swift:44-48 | from logged in: logged out and locked, with the login report before the lock report; otherwise nothing changes |
| `Users.UpdateRSSITable` | SWALaptop/User.swift:54-70 | logged out ignores every sample. Searching with -45 or stronger becomes logged in and unlocked (login report first); weaker changes nothing. Logged in with weaker than -45 becomes logged out and locked (login report first); -45 or stronger changes nothing |
| `Users.StepPreservesInvariant` | SWALaptop/User.swift:25-70 | every event keeps the lock open exactly when the user is logged in, and keeps the delegate's latest view of each field equal to that field |
| `Users.RunPreservesInvariant` | SWALaptop/User.swift:25-70 | the invariant holds after any sequence of events handled in order |
| `Users.ReachableConsistent` | SWALaptop/User.swift:25-70 | from the initial logged-out, locked pair, after any events, the lock is open exactly when the user is logged in |
| `Users.SearchingHasNoTimeout` | SWALaptop/User.swift:59-63 | weak samples leave a searching user searching, however many arrive: there is no timeout |

## Left out

- SWALaptop/BluetoothManager.swift is not part of this model. It is radio-stack plumbing:
  scanning, connecting, discovering services and characteristics, and polling RSSI.
  Its guards depend on the state of the radio hardware.
- SWALaptop/Logger.swift and every `log(...)` call are left out. They only format and
  print diagnostics.
- SWALaptop/ViewController.swift is left out. It is UI bootstrap.
- Wall-clock time and `Timer` scheduling are not modelled. A timer is a pending
  `(duration, target)` value, and its elapsing is the explicit `Fire` event. The model
  does not say when a timer fires, only what happens when it does.
- Invalidating a timer is modelled as forgetting it, so a forgotten timer never fires.
- Proximity.StateMachine.Fire: requires a pending timer. Only a scheduled timer can run
  its closure. In event traces, an `Elapse` with no pending timer changes nothing.
- The delegate's weak or optional lifetime is not modelled. A delegate that is absent
  would receive nothing, and the model always records the report.
- In `User`, the delegate is assumed never to call back into the object while it handles
  a report. `Consistent` depends on this, because the login report comes between the two
  field assignments (`User.swift:46-47`, `61-62`, `66-67`). For example, a delegate that
  calls `logout()` from `didUpdateLoginState(.loggedIn)` during `updateRSSI` would leave
  the user logged out but unlocked. `StateMachine` needs no such assumption: the report is
  the last step of every assignment to `state`, and every such assignment is the last
  step of its operation. A callback therefore acts as the next event and keeps the
  invariant (`CallbackActsAsNextEvent`).
- Link-lost handling is not modelled. Neither class has such an input, and nothing in
  the source connects BluetoothManager to either class.
- `minRSSI` and `maxRSSI` are constants that no decision uses, so no property is stated
  about them.
