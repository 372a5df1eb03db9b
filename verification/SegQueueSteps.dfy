/**
 The unbounded segmented queue (src/std/queue/seg_queue.rs) as a state machine: one step per atomic
 operation of `push` and `pop`, sequential consistency, any number of calls in progress, weak CAS may
 fail spuriously.

 A published block is named by the order of its publication in `tail.block`; a block that is still
 private to a pushing call has no name, only the flag `spare` of that call. A call is named by a number
 until it wins its index CAS, by the slot it won from then on, and by the block it destroys at the end.
 */
module SegQueueSteps {
  import opened Common

  type Value(!new)

  /** Values a block can hold; one index value per lap is left over for "block being installed". */
  const BLOCK_CAP: nat := 31

  /** `lap` is the index divided by LAP, `off` the remainder; also the address of a slot: block and offset. */
  datatype Pos = Pos(lap: nat, off: nat)

  /** The head index: a position and the HAS_NEXT bit. */
  datatype Index = Index(pos: Pos, hasNext: bool)

  predicate Before(p: Pos, q: Pos) {
    p.lap < q.lap || (p.lap == q.lap && p.off < q.off)
  }

  predicate AtMost(p: Pos, q: Pos) {
    p == q || Before(p, q)
  }

  predicate IsSlot(p: Pos) {
    p.off < BLOCK_CAP
  }

  /** The last slot of a block: its writer installs the next block, its reader retires this one. */
  function LastSlot(block: nat): Pos {
    Pos(block, BLOCK_CAP - 1)
  }

  /** How many slots lie before a position: the number of claims that moved an index there. */
  function Ticket(p: Pos): nat {
    p.lap * BLOCK_CAP + p.off
  }

  // What a call does next, with its local variables.

  /** `push` before it wins the tail CAS. */
  datatype Pusher =
    | LoadTail(v: Value, spare: bool)
    | LoadTailBlock(v: Value, spare: bool, tail: Pos)
    | TryTail(v: Value, spare: bool, tail: Pos, seen: Option<nat>)
    | StoreFirstHead(v: Value, spare: bool, tail: Pos, block: nat)

  /** `push` after it won a slot. */
  datatype Writer =
    | StoreTailBlock(v: Value, spare: bool, block: nat)
    | StoreTailIndex(v: Value, block: nat, next: nat)
    | StoreNext(v: Value, block: nat, next: nat)
    | WriteValue(v: Value, block: nat)
    | SetWrite(block: nat)

  /** `pop` before it wins the head CAS. */
  datatype Popper =
    | LoadHead
    | LoadHeadBlock(head: Index)
    | CheckTail(head: Index, seen: Option<nat>)
    | TryHead(head: Index, newHead: Index, block: nat)

  /** `pop` after it won a slot, up to the READ bit. */
  datatype Reader =
    | WaitNext(block: nat)
    | LoadNextNext(block: nat, next: nat)
    | StoreHeadBlock(block: nat, next: nat, more: bool)
    | StoreHeadIndex(block: nat, next: nat, more: bool)
    | WaitWrite(block: nat)
    | ReadValue(block: nat)
    | SetRead(block: nat, v: Value)

  /** `pop` inside `Block::destroy`, about to look at slot `i`, or to mark it. */
  datatype Destroyer = Destroyer(slot: Pos, v: Value, i: nat, marking: bool)

  /** The two ends of the queue and the links between blocks. */
  datatype Ends = Ends(
    tailIndex: Pos,
    tailBlock: Option<nat>,
    headIndex: Index,
    headBlock: Option<nat>,
    next: map<nat, nat>,
    published: nat)

  /** Cells with a value written into them, slot state bits, and blocks returned to the allocator. */
  datatype Cells = Cells(
    value: map<Pos, Value>,
    writeBit: set<Pos>,
    readBit: set<Pos>,
    destroyBit: set<Pos>,
    freed: set<nat>)

  /** Calls in progress. */
  datatype Calls = Calls(
    pushers: map<Tid, Pusher>,
    writers: map<Pos, Writer>,
    poppers: map<Tid, Popper>,
    readers: map<Pos, Reader>,
    destroyers: map<nat, Destroyer>)

  /**
   History that no step looks at: values in the order of their tail CAS, values returned by slot, cells
   that have been read, the slot at which destruction of a block waits for a reader, and the call that
   published the first block.
   */
  datatype Log = Log(
    pushed: seq<Value>,
    delivered: map<Pos, Value>,
    taken: set<Pos>,
    parked: map<nat, nat>,
    installer: Option<Tid>)

  datatype State = State(ends: Ends, cells: Cells, calls: Calls, log: Log)

  ghost predicate Init(s: State) {
    && s.ends == Ends(Pos(0, 0), None, Index(Pos(0, 0), false), None, map[], 0)
    && s.cells == Cells(map[], {}, {}, {}, {})
    && s.calls == Calls(map[], map[], map[], map[], map[])
    && s.log == Log([], map[], {}, map[], None)
  }

  function AtPusher(s: State, t: Tid, c: Pusher): State {
    s.(calls := s.calls.(pushers := s.calls.pushers[t := c]))
  }

  function AtWriter(s: State, p: Pos, c: Writer): State {
    s.(calls := s.calls.(writers := s.calls.writers[p := c]))
  }

  function AtPopper(s: State, t: Tid, c: Popper): State {
    s.(calls := s.calls.(poppers := s.calls.poppers[t := c]))
  }

  function AtReader(s: State, p: Pos, c: Reader): State {
    s.(calls := s.calls.(readers := s.calls.readers[p := c]))
  }

  // ---------------------------------------------------------------- push

  /** First push: publish a fresh block, or lose the race and keep the block for later. */
  function InstallFirst(s: State, t: Tid, v: Value, spare: bool, tail: Pos): State {
    if s.ends.tailBlock.None? then
      var ends := s.ends.(tailBlock := Some(s.ends.published), published := s.ends.published + 1);
      AtPusher(s, t, StoreFirstHead(v, spare, tail, s.ends.published))
      .(ends := ends, log := s.log.(installer := Some(t)))
    else
      AtPusher(s, t, LoadTail(v, true))
  }

  /** The tail CAS succeeds. */
  function ClaimTail(s: State, t: Tid, v: Value, spare: bool, tail: Pos, block: nat): State {
    var writer := if tail.off + 1 == BLOCK_CAP then StoreTailBlock(v, spare, block) else WriteValue(v, block);
    s.(
      ends := s.ends.(tailIndex := Pos(tail.lap, tail.off + 1)),
      calls := s.calls.(pushers := s.calls.pushers - {t}, writers := s.calls.writers[tail := writer]),
      log := s.log.(pushed := s.log.pushed + [v]))
  }

  /** The loop body of `push` up to its CAS; a weak CAS may fail although it could win. */
  function PushTry(s: State, t: Tid, c: Pusher, win: bool): State
    requires c.TryTail?
  {
    var spare := c.spare || c.tail.off + 1 == BLOCK_CAP;
    if c.tail.off == BLOCK_CAP then AtPusher(s, t, LoadTail(c.v, c.spare))
    else if c.seen.None? then InstallFirst(s, t, c.v, spare, c.tail)
    else if win && s.ends.tailIndex == c.tail then ClaimTail(s, t, c.v, spare, c.tail, c.seen.value)
    else AtPusher(s, t, LoadTailBlock(c.v, spare, s.ends.tailIndex))
  }

  function PusherNext(s: State, t: Tid, win: bool): State
    requires t in s.calls.pushers
  {
    match s.calls.pushers[t]
    case LoadTail(v, spare) => AtPusher(s, t, LoadTailBlock(v, spare, s.ends.tailIndex))
    case LoadTailBlock(v, spare, tail) => AtPusher(s, t, TryTail(v, spare, tail, s.ends.tailBlock))
    case TryTail(_, _, _, _) => PushTry(s, t, s.calls.pushers[t], win)
    case StoreFirstHead(v, spare, tail, block) =>
      AtPusher(s, t, TryTail(v, spare, tail, Some(block))).(ends := s.ends.(headBlock := Some(block)))
  }

  function WriterNext(s: State, p: Pos): State
    requires p in s.calls.writers
  {
    match s.calls.writers[p]
    case StoreTailBlock(v, spare, block) =>
      var ends := s.ends.(tailBlock := Some(s.ends.published), published := s.ends.published + 1);
      AtWriter(s, p, StoreTailIndex(v, block, s.ends.published)).(ends := ends)
    case StoreTailIndex(v, block, next) =>
      AtWriter(s, p, StoreNext(v, block, next)).(ends := s.ends.(tailIndex := Pos(p.lap + 1, 0)))
    case StoreNext(v, block, next) =>
      AtWriter(s, p, WriteValue(v, block)).(ends := s.ends.(next := s.ends.next[block := next]))
    case WriteValue(v, block) =>
      AtWriter(s, p, SetWrite(block)).(cells := s.cells.(value := s.cells.value[Pos(block, p.off) := v]))
    case SetWrite(block) =>
      s.(
        calls := s.calls.(writers := s.calls.writers - {p}),
        cells := s.cells.(writeBit := s.cells.writeBit + {Pos(block, p.off)}))
  }

  // ---------------------------------------------------------------- pop

  /** The tail check of `pop`, skipped when HAS_NEXT is known; the call returns None or goes on to its CAS. */
  function PopCheck(s: State, t: Tid, head: Index, seen: Option<nat>): State {
    if head.pos.off == BLOCK_CAP then AtPopper(s, t, LoadHead)
    else if !head.hasNext && head.pos == s.ends.tailIndex then s.(calls := s.calls.(poppers := s.calls.poppers - {t}))
    else if seen.None? then AtPopper(s, t, LoadHead)
    else
      var more := head.hasNext || head.pos.lap != s.ends.tailIndex.lap;
      AtPopper(s, t, TryHead(head, Index(Pos(head.pos.lap, head.pos.off + 1), more), seen.value))
  }

  /** The head CAS succeeds. */
  function ClaimHead(s: State, t: Tid, head: Index, newHead: Index, block: nat): State {
    var reader := if head.pos.off + 1 == BLOCK_CAP then WaitNext(block) else WaitWrite(block);
    s.(
      ends := s.ends.(headIndex := newHead),
      calls := s.calls.(poppers := s.calls.poppers - {t}, readers := s.calls.readers[head.pos := reader]))
  }

  function PopperNext(s: State, t: Tid, win: bool): State
    requires t in s.calls.poppers
  {
    match s.calls.poppers[t]
    case LoadHead => AtPopper(s, t, LoadHeadBlock(s.ends.headIndex))
    case LoadHeadBlock(head) => AtPopper(s, t, CheckTail(head, s.ends.headBlock))
    case CheckTail(head, seen) => PopCheck(s, t, head, seen)
    case TryHead(head, newHead, block) =>
      if win && s.ends.headIndex == head then ClaimHead(s, t, head, newHead, block)
      else AtPopper(s, t, LoadHeadBlock(s.ends.headIndex))
  }

  /** The value is moved out of the cell; READ comes next. */
  function TakeValue(s: State, p: Pos, block: nat, v: Value): State {
    AtReader(s, p, SetRead(block, v)).(log := s.log.(taken := s.log.taken + {Pos(block, p.off)}))
  }

  /** The reader of the last slot takes its value and starts destruction at slot 0. */
  function RetireBlock(s: State, p: Pos, block: nat, v: Value): State {
    var destroyers := s.calls.destroyers[block := Destroyer(p, v, 0, false)];
    s.(
      calls := s.calls.(readers := s.calls.readers - {p}, destroyers := destroyers),
      log := s.log.(taken := s.log.taken + {Pos(block, p.off)}))
  }

  /** READ is set; nobody waits for this reader, so `pop` returns. */
  function ReturnValue(s: State, p: Pos, block: nat, v: Value): State {
    s.(
      cells := s.cells.(readBit := s.cells.readBit + {Pos(block, p.off)}),
      calls := s.calls.(readers := s.calls.readers - {p}),
      log := s.log.(delivered := s.log.delivered[p := v]))
  }

  /** READ is set on a slot that had DESTROY: destruction continues here with the next slot. */
  function InheritDestroy(s: State, p: Pos, block: nat, v: Value): State {
    var destroyers := s.calls.destroyers[block := Destroyer(p, v, p.off + 1, false)];
    s.(
      cells := s.cells.(readBit := s.cells.readBit + {Pos(block, p.off)}),
      calls := s.calls.(readers := s.calls.readers - {p}, destroyers := destroyers),
      log := s.log.(parked := s.log.parked - {block}))
  }

  /** A reader whose condition does not hold yet spins: its step changes nothing. */
  function ReaderNext(s: State, p: Pos): State
    requires p in s.calls.readers
  {
    var cell := Pos(s.calls.readers[p].block, p.off);
    match s.calls.readers[p]
    case WaitNext(block) =>
      if block in s.ends.next then AtReader(s, p, LoadNextNext(block, s.ends.next[block])) else s
    case LoadNextNext(block, next) => AtReader(s, p, StoreHeadBlock(block, next, next in s.ends.next))
    case StoreHeadBlock(block, next, more) =>
      AtReader(s, p, StoreHeadIndex(block, next, more)).(ends := s.ends.(headBlock := Some(next)))
    case StoreHeadIndex(block, next, more) =>
      AtReader(s, p, WaitWrite(block)).(ends := s.ends.(headIndex := Index(Pos(p.lap + 1, 0), more)))
    case WaitWrite(block) => if cell in s.cells.writeBit then AtReader(s, p, ReadValue(block)) else s
    case ReadValue(block) =>
      if cell !in s.cells.value then s
      else if p.off + 1 == BLOCK_CAP then RetireBlock(s, p, block, s.cells.value[cell])
      else TakeValue(s, p, block, s.cells.value[cell])
    case SetRead(block, v) =>
      if cell in s.cells.destroyBit then InheritDestroy(s, p, block, v) else ReturnValue(s, p, block, v)
  }

  /** The destroying call moves on: to the next slot, or from looking at a slot to marking it. */
  function DestroyGo(s: State, k: nat, d: Destroyer): State {
    s.(calls := s.calls.(destroyers := s.calls.destroyers[k := d]))
  }

  /** Every slot was read: the block is freed and `pop` returns. */
  function FreeBlock(s: State, k: nat, d: Destroyer): State {
    s.(
      calls := s.calls.(destroyers := s.calls.destroyers - {k}),
      log := s.log.(delivered := s.log.delivered[d.slot := d.v]),
      cells := s.cells.(freed := s.cells.freed + {k}))
  }

  /** DESTROY is set on a slot that is still being read: its reader inherits, `pop` returns. */
  function ParkDestroy(s: State, k: nat, d: Destroyer): State {
    s.(
      calls := s.calls.(destroyers := s.calls.destroyers - {k}),
      log := s.log.(delivered := s.log.delivered[d.slot := d.v], parked := s.log.parked[k := d.i]),
      cells := s.cells.(destroyBit := s.cells.destroyBit + {Pos(k, d.i)}))
  }

  /** DESTROY is set on a slot that was read meanwhile: on to the next one. */
  function MarkAndGo(s: State, k: nat, d: Destroyer): State {
    s.(
      calls := s.calls.(destroyers := s.calls.destroyers[k := d.(i := d.i + 1, marking := false)]),
      cells := s.cells.(destroyBit := s.cells.destroyBit + {Pos(k, d.i)}))
  }

  /** One atomic operation of the loop in `Block::destroy`. */
  function DestroyerNext(s: State, k: nat): State
    requires k in s.calls.destroyers
  {
    var d := s.calls.destroyers[k];
    if d.i + 1 >= BLOCK_CAP then FreeBlock(s, k, d)
    else if !d.marking then
      DestroyGo(s, k, if Pos(k, d.i) in s.cells.readBit then d.(i := d.i + 1) else d.(marking := true))
    else if Pos(k, d.i) in s.cells.readBit then MarkAndGo(s, k, d)
    else ParkDestroy(s, k, d)
  }

  // ---------------------------------------------------------------- runs

  /** One atomic step of one call. */
  datatype Action =
    | StartPush(t: Tid, v: Value)
    | Push(t: Tid, win: bool)
    | Write(p: Pos)
    | StartPop(t: Tid)
    | Pop(t: Tid, win: bool)
    | Read(p: Pos)
    | Destroy(k: nat)

  predicate Enabled(s: State, a: Action) {
    match a
    case StartPush(t, _) => t !in s.calls.pushers
    case Push(t, _) => t in s.calls.pushers
    case Write(p) => p in s.calls.writers
    case StartPop(t) => t !in s.calls.poppers
    case Pop(t, _) => t in s.calls.poppers
    case Read(p) => p in s.calls.readers
    case Destroy(k) => k in s.calls.destroyers
  }

  function Step(s: State, a: Action): State
    requires Enabled(s, a)
  {
    match a
    case StartPush(t, v) => AtPusher(s, t, LoadTail(v, false))
    case Push(t, win) => PusherNext(s, t, win)
    case Write(p) => WriterNext(s, p)
    case StartPop(t) => AtPopper(s, t, LoadHead)
    case Pop(t, win) => PopperNext(s, t, win)
    case Read(p) => ReaderNext(s, p)
    case Destroy(k) => DestroyerNext(s, k)
  }

  /** A run: an initial state followed by steps of arbitrary calls. */
  ghost predicate Run(r: seq<State>, acts: seq<Action>) {
    && |r| == |acts| + 1
    && Init(r[0])
    && forall i :: 0 <= i < |acts| ==> Enabled(r[i], acts[i]) && r[i + 1] == Step(r[i], acts[i])
  }
}
