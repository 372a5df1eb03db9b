/**
 The bounded ring queue of src/std/queue/array_queue.rs as a state machine: one step per load, store or
 compare-and-swap of a shared word, any number of calls at work, in any order.

 `head`, `tail` and the slot stamps hold the words the code computes. Tickets, turns and the logs are
 history: no step branches on them.
 */
module ArrayQueueSteps {
  import opened Common
  import opened ArrayQueueWords

  type Value(!new)

  /** History of a slot: it waits for the push of ticket `n`, or holds what that push wrote. */
  datatype Turn = Free(n: nat) | Full(n: nat)

  // A call carries the word it read and, as history, the ticket that word stood for.

  datatype Pusher =
    | LoadTail(v: Value)
    | LoadStamp(v: Value, tail: int, n: nat)
    | TryTail(v: Value, tail: int, n: nat)
    | CheckFull(v: Value, tail: int, n: nat)

  datatype Writer =
    | WriteValue(v: Value, tail: int)
    | StoreFull(tail: int)

  datatype Popper =
    | LoadHead
    | LoadSlot(head: int, n: nat)
    | TryHead(head: int, n: nat)
    | CheckEmpty(head: int, n: nat)

  datatype Reader =
    | ReadValue(head: int)
    | StoreFree(head: int, v: Option<Value>)

  /** The shared words. A cell is absent from `cells` while it is uninitialised memory. */
  datatype Ring = Ring(head: int, tail: int, stamps: seq<int>, cells: map<int, Value>)

  /** Calls at work; those that won a slot are named by the ticket they won. */
  datatype Calls = Calls(
    pushers: map<Tid, Pusher>, writers: map<nat, Writer>, poppers: map<Tid, Popper>, readers: map<nat, Reader>)

  /** History: values in claim order, how many were claimed by pops, what each slot waits for, what pops returned. */
  datatype Log = Log(pushed: seq<Value>, popped: nat, turn: seq<Turn>, delivered: map<nat, Option<Value>>)

  datatype State = State(cfg: Config, ring: Ring, calls: Calls, log: Log)

  function SetAt<T>(xs: seq<T>, i: int, x: T): seq<T> {
    if 0 <= i < |xs| then xs[i := x] else xs
  }

  function StampAt(s: State, w: int): int
    requires s.cfg.oneLap > 0
  {
    var i := IndexOf(s.cfg, w);
    if 0 <= i < |s.ring.stamps| then s.ring.stamps[i] else 0
  }

  // ---------------------------------------------------------------- push

  function WithPusher(s: State, t: Tid, c: Pusher): State {
    s.(calls := s.calls.(pushers := s.calls.pushers[t := c]))
  }

  function EndPush(s: State, t: Tid): State {
    s.(calls := s.calls.(pushers := s.calls.pushers - {t}))
  }

  function Reload(s: State, v: Value): Pusher {
    LoadStamp(v, s.ring.tail, |s.log.pushed|)
  }

  function ClaimTail(s: State, t: Tid, v: Value, tail: int): State
    requires s.cfg.oneLap > 0
  {
    var n := |s.log.pushed|;
    s.(
      ring := s.ring.(tail := NextStamp(s.cfg, tail)),
      calls := s.calls.(pushers := s.calls.pushers - {t}, writers := s.calls.writers[n := WriteValue(v, tail)]),
      log := s.log.(pushed := s.log.pushed + [v]))
  }

  function PusherNext(s: State, t: Tid, win: bool): State
    requires t in s.calls.pushers && s.cfg.oneLap > 0
  {
    match s.calls.pushers[t]
    case LoadTail(v) => WithPusher(s, t, Reload(s, v))
    case LoadStamp(v, tail, n) =>
      var stamp := StampAt(s, tail);
      if tail == stamp then WithPusher(s, t, TryTail(v, tail, n))
      else if WrappingAdd(stamp, s.cfg.oneLap) == tail + 1 then WithPusher(s, t, CheckFull(v, tail, n))
      else WithPusher(s, t, LoadTail(v))
    case TryTail(v, tail, n) =>
      if win && s.ring.tail == tail then ClaimTail(s, t, v, tail) else WithPusher(s, t, Reload(s, v))
    case CheckFull(v, tail, n) =>
      if WrappingAdd(s.ring.head, s.cfg.oneLap) == tail then EndPush(s, t) else WithPusher(s, t, LoadTail(v))
  }

  function WriterNext(s: State, n: nat): State
    requires n in s.calls.writers && s.cfg.oneLap > 0
  {
    match s.calls.writers[n]
    case WriteValue(v, tail) =>
      s.(
        ring := s.ring.(cells := s.ring.cells[IndexOf(s.cfg, tail) := v]),
        calls := s.calls.(writers := s.calls.writers[n := StoreFull(tail)]))
    case StoreFull(tail) =>
      var i := IndexOf(s.cfg, tail);
      s.(
        ring := s.ring.(stamps := SetAt(s.ring.stamps, i, tail + 1)),
        calls := s.calls.(writers := s.calls.writers - {n}),
        log := s.log.(turn := SetAt(s.log.turn, i, Full(n))))
  }

  // ---------------------------------------------------------------- pop

  function WithPopper(s: State, t: Tid, c: Popper): State {
    s.(calls := s.calls.(poppers := s.calls.poppers[t := c]))
  }

  function EndPop(s: State, t: Tid): State {
    s.(calls := s.calls.(poppers := s.calls.poppers - {t}))
  }

  function ClaimHead(s: State, t: Tid, head: int): State
    requires s.cfg.oneLap > 0
  {
    var n := s.log.popped;
    s.(
      ring := s.ring.(head := NextStamp(s.cfg, head)),
      calls := s.calls.(poppers := s.calls.poppers - {t}, readers := s.calls.readers[n := ReadValue(head)]),
      log := s.log.(popped := n + 1))
  }

  function PopperNext(s: State, t: Tid, win: bool): State
    requires t in s.calls.poppers && s.cfg.oneLap > 0
  {
    match s.calls.poppers[t]
    case LoadHead => WithPopper(s, t, LoadSlot(s.ring.head, s.log.popped))
    case LoadSlot(head, n) =>
      var stamp := StampAt(s, head);
      if head + 1 == stamp then WithPopper(s, t, TryHead(head, n))
      else if stamp == head then WithPopper(s, t, CheckEmpty(head, n))
      else WithPopper(s, t, LoadHead)
    case TryHead(head, n) =>
      if win && s.ring.head == head then ClaimHead(s, t, head)
      else WithPopper(s, t, LoadSlot(s.ring.head, s.log.popped))
    case CheckEmpty(head, n) =>
      if s.ring.tail == head then EndPop(s, t) else WithPopper(s, t, LoadHead)
  }

  /** Reading moves the value out of its cell. */
  function ReaderNext(s: State, n: nat): State
    requires n in s.calls.readers && s.cfg.oneLap > 0
  {
    match s.calls.readers[n]
    case ReadValue(head) =>
      var i := IndexOf(s.cfg, head);
      var v := if i in s.ring.cells then Some(s.ring.cells[i]) else None;
      s.(
        ring := s.ring.(cells := s.ring.cells - {i}),
        calls := s.calls.(readers := s.calls.readers[n := StoreFree(head, v)]))
    case StoreFree(head, v) =>
      var i := IndexOf(s.cfg, head);
      s.(
        ring := s.ring.(stamps := SetAt(s.ring.stamps, i, WrappingAdd(head, s.cfg.oneLap))),
        calls := s.calls.(readers := s.calls.readers - {n}),
        log := s.log.(turn := SetAt(s.log.turn, i, Free(n + s.cfg.cap)), delivered := s.log.delivered[n := v]))
  }

  // ---------------------------------------------------------------- runs

  datatype Action =
    | StartPush(t: Tid, v: Value)
    | Push(t: Tid, win: bool)
    | Write(n: nat)
    | StartPop(t: Tid)
    | Pop(t: Tid, win: bool)
    | Read(n: nat)

  predicate Enabled(s: State, a: Action) {
    && s.cfg.oneLap > 0
    && match a
       case StartPush(t, v) => t !in s.calls.pushers
       case Push(t, win) => t in s.calls.pushers
       case Write(n) => n in s.calls.writers
       case StartPop(t) => t !in s.calls.poppers
       case Pop(t, win) => t in s.calls.poppers
       case Read(n) => n in s.calls.readers
  }

  function Step(s: State, a: Action): State
    requires Enabled(s, a)
  {
    match a
    case StartPush(t, v) => WithPusher(s, t, LoadTail(v))
    case Push(t, win) => PusherNext(s, t, win)
    case Write(n) => WriterNext(s, n)
    case StartPop(t) => WithPopper(s, t, LoadHead)
    case Pop(t, win) => PopperNext(s, t, win)
    case Read(n) => ReaderNext(s, n)
  }

  /**
   A call that is about to compare its word has not been overtaken by a whole period of tickets
   (capacity times the laps of a 64-bit word) since it loaded that word.
   */
  predicate Timely(s: State, a: Action)
    requires Enabled(s, a)
  {
    match a
    case Push(t, win) =>
      (match s.calls.pushers[t]
       case TryTail(v, tail, n) => |s.log.pushed| < n + Period(s.cfg)
       case CheckFull(v, tail, n) => s.log.popped + s.cfg.cap < n + Period(s.cfg)
       case _ => true)
    case Pop(t, win) =>
      (match s.calls.poppers[t]
       case TryHead(head, n) => s.log.popped < n + Period(s.cfg)
       case CheckEmpty(head, n) => |s.log.pushed| < n + Period(s.cfg)
       case _ => true)
    case _ => true
  }

  /** A CAS that wins finds the stamp the call had seen: the slot is still free, or still full. */
  predicate Stands(s: State, a: Action)
    requires Enabled(s, a)
  {
    match a
    case Push(t, win) =>
      (match s.calls.pushers[t]
       case TryTail(v, tail, n) => win && s.ring.tail == tail ==> StampAt(s, tail) == tail
       case _ => true)
    case Pop(t, win) =>
      (match s.calls.poppers[t]
       case TryHead(head, n) => win && s.ring.head == head ==> StampAt(s, head) == head + 1
       case _ => true)
    case _ => true
  }

  /** `ArrayQueue::new`: every slot free for the ticket with its own number. */
  function New(cfg: Config): State {
    State(cfg,
          Ring(0, 0, seq(cfg.cap, i => i), map[]),
          Calls(map[], map[], map[], map[]),
          Log([], 0, seq(cfg.cap, (i: nat) => Free(i)), map[]))
  }

  ghost predicate Run(r: seq<State>, acts: seq<Action>) {
    && |r| == |acts| + 1
    && ValidConfig(r[0].cfg) && r[0] == New(r[0].cfg)
    && forall i {:trigger acts[i]} :: 0 <= i < |acts| ==> Enabled(r[i], acts[i]) && r[i + 1] == Step(r[i], acts[i])
  }

  /** Every CAS won before state `i` found its stamp. */
  ghost predicate StandsBefore(r: seq<State>, acts: seq<Action>, i: nat)
    requires Run(r, acts)
  {
    forall j {:trigger acts[j]} :: 0 <= j < i && j < |acts| ==> Stands(r[j], acts[j])
  }

  /** No call was overtaken by a period before state `i`. */
  ghost predicate TimelyBefore(r: seq<State>, acts: seq<Action>, i: nat)
    requires Run(r, acts)
  {
    forall j {:trigger acts[j]} :: 0 <= j < i && j < |acts| ==> Timely(r[j], acts[j])
  }
}
