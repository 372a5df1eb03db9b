/**
 `Semphore` (src/std/sync/semphore.rs) over `SyncBlocker` (src/std/sync/blocking.rs) as a state machine: one step
 per atomic operation, any number of waits, timed waits, try-waits and posts, with a timeout or cancel at any park.

 The wait list is a sequence; a push takes effect when its slot is claimed and a pop when it claims one. `park`
 returns `Ok` only by consuming an unpark of this blocker, and may fail at any time.
 */
module SemphoreSteps {
  import opened Common

  /** A call of wait, try_wait or post, which is also the name of the blocker it may push. */
  type Id = nat

  /** Where a call stands; `park` says whether a wake-up is made on the way into the call's own park. */
  datatype Phase =
    | TryLoad(block: bool)
    | TryCas(seen: int, block: bool)
    | Enqueue
    | Decrement
    | Park
    | CheckUnparked
    | SetRelease
    | Recheck
    | TakeRelease
    | Post(park: bool)
    | Pop(park: bool)
    | Unpark(w: Id, park: bool)
    | Mark(w: Id, park: bool)
    | Take(w: Id, park: bool)
    | NullBlocker

  datatype Flags = Flags(token: bool, unparked: bool, release: bool)

  datatype Sem = Sem(cnt: int, queue: seq<Id>, flags: map<Id, Flags>)

  /** History of a blocker. */
  datatype Stage = Waiting | Popped(waker: Id) | Handed(waker: Id) | Marked(waker: Id) | Finished

  /** History of a permit that reached a blocker: the wait succeeded with it, or it was posted again. */
  datatype Fate = Owned | Returned

  /**
   History: calls between push and decrement, calls inside `to_wake.pop()`, calls with a permit in hand, and
   blockers that were handed a permit not yet accounted for.
   */
  datatype Sets = Sets(uncounted: set<Id>, popping: set<Id>, carrying: set<Id>, granted: set<Id>)

  /** History: the initial value, external posts begun, waits that succeeded. */
  datatype Tally = Tally(initial: nat, posts: nat, taken: nat)

  datatype Hist = Hist(stage: map<Id, Stage>, fate: map<Id, Fate>, returned: set<Id>)

  datatype State = State(sem: Sem, calls: map<Id, Phase>, hist: Hist, sets: Sets, tally: Tally)

  /** Phases in which a call has a permit in hand. */
  predicate Carries(ph: Phase) { ph.Post? || ph.Pop? || ph.Unpark? }

  function Track(x: Sets, b: Id, ph: Option<Phase>): Sets {
    Sets(Put(x.uncounted, b, ph == Some(Decrement)),
         Put(x.popping, b, ph.Some? && ph.value.Pop?),
         Put(x.carrying, b, ph.Some? && Carries(ph.value)),
         x.granted)
  }

  function Goto(s: State, b: Id, ph: Phase): State {
    s.(calls := s.calls[b := ph], sets := Track(s.sets, b, Some(ph)))
  }

  function End(s: State, b: Id): State {
    s.(calls := s.calls - {b}, sets := Track(s.sets, b, None))
  }

  function After(s: State, b: Id, park: bool): State {
    if park then Goto(s, b, Park) else End(s, b)
  }

  function SetCnt(s: State, n: int): State { s.(sem := s.sem.(cnt := n)) }

  function SetFlags(s: State, w: Id, f: Flags): State { s.(sem := s.sem.(flags := s.sem.flags[w := f])) }

  function SetStage(s: State, w: Id, st: Stage): State { s.(hist := s.hist.(stage := s.hist.stage[w := st])) }

  function Grant(s: State, w: Id): State { s.(sets := s.sets.(granted := s.sets.granted + {w})) }

  /** The permit of blocker `w` is used by a wait, or posted again by someone. */
  function Settle(s: State, w: Id, f: Fate): State {
    s.(
      sets := s.sets.(granted := s.sets.granted - {w}),
      hist := s.hist.(fate := s.hist.fate[w := f], returned := Put(s.hist.returned, w, f == Returned)))
  }

  function Succeed(s: State): State { s.(tally := s.tally.(taken := s.tally.taken + 1)) }

  // ---------------------------------------------------------------- wait

  /** The head of the CAS loop of `try_wait`, with the value last seen. */
  function TryAgain(s: State, b: Id, seen: int, block: bool): State {
    if seen > 0 then Goto(s, b, TryCas(seen, block))
    else if block then Goto(s, b, Enqueue)
    else End(s, b)
  }

  function TryCasNext(s: State, b: Id, seen: int, block: bool): State {
    if s.sem.cnt == seen then End(Succeed(SetCnt(s, seen - 1)), b) else TryAgain(s, b, s.sem.cnt, block)
  }

  function EnqueueNext(s: State, b: Id): State {
    var flags := s.sem.flags[b := Flags(false, false, false)];
    Goto(SetStage(s.(sem := s.sem.(queue := s.sem.queue + [b], flags := flags)), b, Waiting), b, Decrement)
  }

  function DecrementNext(s: State, b: Id): State {
    var s1 := SetCnt(s, s.sem.cnt - 1);
    if s.sem.cnt > 0 then Goto(s1, b, Pop(true)) else Goto(s1, b, Park)
  }

  function ParkNext(s: State, b: Id, fail: bool): State
    requires b in s.sem.flags
  {
    if fail then Goto(s, b, CheckUnparked)
    else End(Succeed(Settle(SetFlags(s, b, s.sem.flags[b].(token := false)), b, Owned)), b)
  }

  function CheckUnparkedNext(s: State, b: Id): State
    requires b in s.sem.flags
  {
    if s.sem.flags[b].unparked then Goto(Settle(s, b, Returned), b, Post(false)) else Goto(s, b, SetRelease)
  }

  function TakeReleaseNext(s: State, b: Id): State
    requires b in s.sem.flags
  {
    var s1 := SetFlags(s, b, s.sem.flags[b].(release := false));
    if s.sem.flags[b].release then Goto(Settle(s1, b, Returned), b, Post(false)) else End(s1, b)
  }

  // ---------------------------------------------------------------- post and wakeup_one

  function PostNext(s: State, b: Id, park: bool): State {
    var s1 := SetCnt(s, s.sem.cnt + 1);
    if s.sem.cnt < 0 then Goto(s1, b, Pop(park)) else After(s1, b, park)
  }

  function PopNext(s: State, b: Id, park: bool): State {
    if s.sem.queue == [] then Goto(s, b, NullBlocker)
    else
      var w := s.sem.queue[0];
      Goto(SetStage(s.(sem := s.sem.(queue := s.sem.queue[1..])), w, Popped(b)), b, Unpark(w, park))
  }

  function UnparkNext(s: State, b: Id, w: Id, park: bool): State
    requires w in s.sem.flags
  {
    Goto(Grant(SetStage(SetFlags(s, w, s.sem.flags[w].(token := true)), w, Handed(b)), w), b, Mark(w, park))
  }

  function MarkNext(s: State, b: Id, w: Id, park: bool): State
    requires w in s.sem.flags
  {
    Goto(SetStage(SetFlags(s, w, s.sem.flags[w].(unparked := true)), w, Marked(b)), b, Take(w, park))
  }

  function TakeNext(s: State, b: Id, w: Id, park: bool): State
    requires w in s.sem.flags
  {
    var s1 := SetStage(SetFlags(s, w, s.sem.flags[w].(release := false)), w, Finished);
    if s.sem.flags[w].release then Goto(Settle(s1, w, Returned), b, Post(park)) else After(s1, b, park)
  }

  // ---------------------------------------------------------------- runs

  datatype Action =
    | StartWait(b: Id, block: bool)
    | StartPost(b: Id)
    | Next(b: Id, fail: bool)

  /** Blockers a phase reads. */
  predicate FlagsThere(s: State, b: Id, ph: Phase) {
    match ph
    case Park => b in s.sem.flags
    case CheckUnparked => b in s.sem.flags
    case SetRelease => b in s.sem.flags
    case Recheck => b in s.sem.flags
    case TakeRelease => b in s.sem.flags
    case Unpark(w, _) => w in s.sem.flags
    case Mark(w, _) => w in s.sem.flags
    case Take(w, _) => w in s.sem.flags
    case _ => true
  }

  predicate Enabled(s: State, a: Action) {
    match a
    case StartWait(b, block) => b !in s.calls && b !in s.hist.stage
    case StartPost(b) => b !in s.calls && b !in s.hist.stage
    case Next(b, fail) =>
      && b in s.calls && FlagsThere(s, b, s.calls[b]) && !s.calls[b].NullBlocker?
      && (s.calls[b].Park? ==> fail || s.sem.flags[b].token)
  }

  function CallNext(s: State, b: Id, fail: bool): State
    requires Enabled(s, Next(b, fail))
  {
    match s.calls[b]
    case TryLoad(block) => TryAgain(s, b, s.sem.cnt, block)
    case TryCas(seen, block) => TryCasNext(s, b, seen, block)
    case Enqueue => EnqueueNext(s, b)
    case Decrement => DecrementNext(s, b)
    case Park => ParkNext(s, b, fail)
    case CheckUnparked => CheckUnparkedNext(s, b)
    case SetRelease => Goto(SetFlags(s, b, s.sem.flags[b].(release := true)), b, Recheck)
    case Recheck => if s.sem.flags[b].unparked then Goto(s, b, TakeRelease) else End(s, b)
    case TakeRelease => TakeReleaseNext(s, b)
    case Post(park) => PostNext(s, b, park)
    case Pop(park) => PopNext(s, b, park)
    case Unpark(w, park) => UnparkNext(s, b, w, park)
    case Mark(w, park) => MarkNext(s, b, w, park)
    case Take(w, park) => TakeNext(s, b, w, park)
  }

  function Step(s: State, a: Action): State
    requires Enabled(s, a)
  {
    match a
    case StartWait(b, block) => Goto(s, b, TryLoad(block))
    case StartPost(b) => Goto(s.(tally := s.tally.(posts := s.tally.posts + 1)), b, Post(false))
    case Next(b, fail) => CallNext(s, b, fail)
  }

  /** `Semphore::new(initial)`. */
  function New(initial: nat): State {
    State(Sem(initial, [], map[]), map[], Hist(map[], map[], {}), Sets({}, {}, {}, {}), Tally(initial, 0, 0))
  }

  ghost predicate Run(r: seq<State>, acts: seq<Action>) {
    && |r| == |acts| + 1 && r[0] == New(r[0].tally.initial)
    && forall i {:trigger acts[i]} :: 0 <= i < |acts| ==> Enabled(r[i], acts[i]) && r[i + 1] == Step(r[i], acts[i])
  }
}
