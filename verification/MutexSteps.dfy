/**
 `Mutex::lock`, `try_lock` and guard drop (src/std/sync/mutex.rs) over `SyncBlocker` (src/std/sync/blocking.rs)
 as a state machine: one step per atomic operation, any number of calls, cancels at any park.

 The wait list is a sequence; a push takes effect at its swap and a pop when it unlinks. `park` returns `Ok`
 only by consuming an unpark of this blocker, and may return `Canceled` at any time. Cancellation is not disabled.
 */
module MutexSteps {
  import opened Common

  /** A call of lock or try_lock, which is also the name of the blocker it may push. */
  type Id = nat

  /**
   Where a call stands. `park` says whether a wake-up is made on the way into the call's own park (the first
   grab) or at the end of its life (guard drop, cancel).
   */
  datatype Phase =
    | TryLoad(block: bool)
    | TryCas(block: bool)
    | Enqueue
    | Increment
    | Park
    | Guard
    | CheckUnparked
    | SetRelease
    | Recheck
    | TakeRelease
    | Unlock(park: bool)
    | Pop(park: bool)
    | Unpark(w: Id, park: bool)
    | Mark(w: Id, park: bool)
    | Take(w: Id, park: bool)
    | NullBlocker

  /** A `SyncBlocker`: the park token and the two flags of the release handshake. */
  datatype Flags = Flags(token: bool, unparked: bool, release: bool)

  datatype Lock = Lock(cnt: int, queue: seq<Id>, flags: map<Id, Flags>)

  /** History of a blocker: waiting in the list, popped by a call, handed the lock, marked unparked, or done with. */
  datatype Stage = Waiting | Popped(waker: Id) | Handed(waker: Id) | Marked(waker: Id) | Finished

  /** History of a hand-off: the waiter took the lock, or it was cancelled and the lock was unlocked for it. */
  datatype Fate = Owned | Returned

  /** History: who the lock is with, what became of each blocker, and calls between push and increment. */
  datatype Hist = Hist(holder: Option<Id>, stage: map<Id, Stage>, fate: map<Id, Fate>, uncounted: set<Id>)

  datatype State = State(lock: Lock, calls: map<Id, Phase>, hist: Hist)

  function Goto(s: State, b: Id, ph: Phase): State { s.(calls := s.calls[b := ph]) }

  function End(s: State, b: Id): State { s.(calls := s.calls - {b}) }

  function After(s: State, b: Id, park: bool): State {
    if park then Goto(s, b, Park) else End(s, b)
  }

  function HoldBy(s: State, h: Option<Id>): State { s.(hist := s.hist.(holder := h)) }

  function SetFlags(s: State, w: Id, f: Flags): State { s.(lock := s.lock.(flags := s.lock.flags[w := f])) }

  function SetStage(s: State, w: Id, st: Stage): State { s.(hist := s.hist.(stage := s.hist.stage[w := st])) }

  function SetFate(s: State, w: Id, f: Fate): State { s.(hist := s.hist.(fate := s.hist.fate[w := f])) }

  function SetCnt(s: State, n: int): State { s.(lock := s.lock.(cnt := n)) }

  // ---------------------------------------------------------------- lock

  function Blocked(s: State, b: Id, block: bool): State {
    if block then Goto(s, b, Enqueue) else End(s, b)
  }

  function TryCasNext(s: State, b: Id, block: bool): State {
    if s.lock.cnt == 0 then Goto(HoldBy(SetCnt(s, 1), Some(b)), b, Guard) else Blocked(s, b, block)
  }

  function EnqueueNext(s: State, b: Id): State {
    State(s.lock.(queue := s.lock.queue + [b], flags := s.lock.flags[b := Flags(false, false, false)]),
          s.calls[b := Increment],
          s.hist.(stage := s.hist.stage[b := Waiting], uncounted := s.hist.uncounted + {b}))
  }

  function IncrementNext(s: State, b: Id): State {
    var s1 := SetCnt(s, s.lock.cnt + 1).(hist := s.hist.(uncounted := s.hist.uncounted - {b}));
    if s.lock.cnt == 0 then Goto(HoldBy(s1, Some(b)), b, Pop(true)) else Goto(s1, b, Park)
  }

  /** `park`: cancelled, or resumed by an unpark. */
  function ParkNext(s: State, b: Id, cancel: bool): State
    requires b in s.lock.flags
  {
    if cancel then Goto(s, b, CheckUnparked)
    else Goto(SetFate(SetFlags(s, b, s.lock.flags[b].(token := false)), b, Owned), b, Guard)
  }

  function CheckUnparkedNext(s: State, b: Id): State
    requires b in s.lock.flags
  {
    if s.lock.flags[b].unparked then Goto(SetFate(s, b, Returned), b, Unlock(false)) else Goto(s, b, SetRelease)
  }

  function TakeReleaseNext(s: State, b: Id): State
    requires b in s.lock.flags
  {
    var s1 := SetFlags(s, b, s.lock.flags[b].(release := false));
    if s.lock.flags[b].release then Goto(SetFate(s1, b, Returned), b, Unlock(false)) else End(s1, b)
  }

  // ---------------------------------------------------------------- unlock and unpark_one

  function UnlockNext(s: State, b: Id, park: bool): State {
    var s1 := SetCnt(s, s.lock.cnt - 1);
    if s.lock.cnt > 1 then Goto(s1, b, Pop(park)) else After(HoldBy(s1, None), b, park)
  }

  function PopNext(s: State, b: Id, park: bool): State {
    if s.lock.queue == [] then Goto(s, b, NullBlocker)
    else
      var w := s.lock.queue[0];
      Goto(SetStage(s.(lock := s.lock.(queue := s.lock.queue[1..])), w, Popped(b)), b, Unpark(w, park))
  }

  function UnparkNext(s: State, b: Id, w: Id, park: bool): State
    requires w in s.lock.flags
  {
    Goto(HoldBy(SetStage(SetFlags(s, w, s.lock.flags[w].(token := true)), w, Handed(b)), Some(w)), b, Mark(w, park))
  }

  function MarkNext(s: State, b: Id, w: Id, park: bool): State
    requires w in s.lock.flags
  {
    Goto(SetStage(SetFlags(s, w, s.lock.flags[w].(unparked := true)), w, Marked(b)), b, Take(w, park))
  }

  function TakeNext(s: State, b: Id, w: Id, park: bool): State
    requires w in s.lock.flags
  {
    var s1 := SetStage(SetFlags(s, w, s.lock.flags[w].(release := false)), w, Finished);
    if s.lock.flags[w].release then Goto(HoldBy(SetFate(s1, w, Returned), Some(b)), b, Unlock(park))
    else After(s1, b, park)
  }

  // ---------------------------------------------------------------- runs

  datatype Action =
    | Start(b: Id, block: bool)
    | Next(b: Id, cancel: bool)

  /** Blockers a phase reads. */
  predicate FlagsThere(s: State, b: Id, ph: Phase) {
    match ph
    case Park => b in s.lock.flags
    case CheckUnparked => b in s.lock.flags
    case SetRelease => b in s.lock.flags
    case Recheck => b in s.lock.flags
    case TakeRelease => b in s.lock.flags
    case Unpark(w, _) => w in s.lock.flags
    case Mark(w, _) => w in s.lock.flags
    case Take(w, _) => w in s.lock.flags
    case _ => true
  }

  predicate Enabled(s: State, a: Action) {
    match a
    case Start(b, block) => b !in s.calls && b !in s.hist.stage
    case Next(b, cancel) =>
      && b in s.calls && FlagsThere(s, b, s.calls[b]) && !s.calls[b].NullBlocker?
      && (s.calls[b].Park? ==> cancel || s.lock.flags[b].token)
  }

  function CallNext(s: State, b: Id, cancel: bool): State
    requires Enabled(s, Next(b, cancel))
  {
    match s.calls[b]
    case TryLoad(block) => if s.lock.cnt == 0 then Goto(s, b, TryCas(block)) else Blocked(s, b, block)
    case TryCas(block) => TryCasNext(s, b, block)
    case Enqueue => EnqueueNext(s, b)
    case Increment => IncrementNext(s, b)
    case Park => ParkNext(s, b, cancel)
    case Guard => Goto(s, b, Unlock(false))
    case CheckUnparked => CheckUnparkedNext(s, b)
    case SetRelease => Goto(SetFlags(s, b, s.lock.flags[b].(release := true)), b, Recheck)
    case Recheck => if s.lock.flags[b].unparked then Goto(s, b, TakeRelease) else End(s, b)
    case TakeRelease => TakeReleaseNext(s, b)
    case Unlock(park) => UnlockNext(s, b, park)
    case Pop(park) => PopNext(s, b, park)
    case Unpark(w, park) => UnparkNext(s, b, w, park)
    case Mark(w, park) => MarkNext(s, b, w, park)
    case Take(w, park) => TakeNext(s, b, w, park)
  }

  function Step(s: State, a: Action): State
    requires Enabled(s, a)
  {
    match a
    case Start(b, block) => Goto(s, b, TryLoad(block))
    case Next(b, cancel) => CallNext(s, b, cancel)
  }

  const Init: State := State(Lock(0, [], map[]), map[], Hist(None, map[], map[], {}))

  ghost predicate Run(r: seq<State>, acts: seq<Action>) {
    && |r| == |acts| + 1 && r[0] == Init
    && forall i {:trigger acts[i]} :: 0 <= i < |acts| ==> Enabled(r[i], acts[i]) && r[i + 1] == Step(r[i], acts[i])
  }
}
