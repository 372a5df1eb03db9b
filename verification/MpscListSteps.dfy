/**
 The doubly linked queue of src/std/queue/mpsc_list_v1.rs as a state machine: any number of pushers beside one
 consumer that pops, peeks, removes nodes through their handles and drops handles.

 A step is one access to a word that pushers and the consumer share: `head`, a `next` pointer, `tail`. What the
 consumer does to nodes that no pusher writes any more is one step with the access that makes them its own.
 */
module MpscListSteps {
  import opened Common

  type Nid = nat
  type Value(!new)

  /** Link bit and two references: one of the list, one of the handle. */
  const REF_INIT: int := 0x1000_0002
  const LINK_BIT: int := 0x1000_0000

  /** `refs & !REF_COUNT_MASK != 0`. */
  predicate IsLinked(refs: int) { refs / LINK_BIT != 0 }

  /** `refs & REF_COUNT_MASK`. */
  function Cleared(refs: int): int { refs % LINK_BIT }

  datatype Node = Node(prev: Option<Nid>, next: Option<Nid>, value: Option<Value>, refs: int)

  /** Allocated nodes, and the nodes that were given back. */
  datatype Mem = Mem(nodes: map<Nid, Node>, freed: set<Nid>)

  /** A `push` after its swap, named by its node. */
  datatype Pusher = StorePrev(prev: Nid) | StoreNext(prev: Nid) | ReadTail(prev: Nid)

  datatype Kind = Pop | PopIf | Peek

  datatype Consumer = Idle | Check(kind: Kind) | Spin(kind: Kind)

  datatype Fate = Popped(v: Option<Value>) | Removed(v: Option<Value>)

  /**
   History: the tail node and the nodes behind it, all pushes in the order of their swaps with their values, how
   nodes left, whose handle is still out, and which pushes were told that they are first.
   */
  datatype Hist = Hist(chain: seq<Nid>, order: seq<Nid>, val: map<Nid, Value>, fate: map<Nid, Fate>, handles: set<Nid>,
                       heads: set<Nid>)

  datatype State = State(mem: Mem, head: Nid, tail: Nid, pushers: map<Nid, Pusher>, consumer: Consumer, hist: Hist)

  function SetNode(m: Mem, n: Nid, x: Node): Mem { m.(nodes := m.nodes[n := x]) }

  /** Drop one reference and free the node with the last. */
  function Release(m: Mem, n: Nid): Mem
    requires n in m.nodes
  {
    var x := m.nodes[n].(refs := m.nodes[n].refs - 1);
    if x.refs == 0 then Mem(m.nodes - {n}, m.freed + {n}) else SetNode(m, n, x)
  }

  function ClearLink(m: Mem, n: Nid): Mem
    requires n in m.nodes
  {
    SetNode(m, n, m.nodes[n].(refs := Cleared(m.nodes[n].refs)))
  }

  // ---------------------------------------------------------------- push

  function PushSwap(s: State, n: Nid, v: Value): State {
    s.(
      mem := SetNode(s.mem, n, Node(None, None, Some(v), REF_INIT)),
      head := n,
      pushers := s.pushers[n := StorePrev(s.head)],
      hist := s.hist.(
        chain := s.hist.chain + [n],
        order := s.hist.order + [n],
        val := s.hist.val[n := v],
        handles := s.hist.handles + {n}))
  }

  function PusherNext(s: State, n: Nid): State
    requires n in s.pushers && n in s.mem.nodes
    requires s.pushers[n].StoreNext? ==> s.pushers[n].prev in s.mem.nodes
  {
    match s.pushers[n]
    case StorePrev(prev) =>
      s.(mem := SetNode(s.mem, n, s.mem.nodes[n].(prev := Some(prev))), pushers := s.pushers[n := StoreNext(prev)])
    case StoreNext(prev) =>
      s.(mem := SetNode(s.mem, prev, s.mem.nodes[prev].(next := Some(n))), pushers := s.pushers[n := ReadTail(prev)])
    case ReadTail(prev) =>
      var heads := if s.tail == prev then s.hist.heads + {n} else s.hist.heads;
      s.(pushers := s.pushers - {n}, hist := s.hist.(heads := heads))
  }

  // ---------------------------------------------------------------- pop, pop_if, peek

  function CheckNext(s: State, kind: Kind): State
    requires s.tail in s.mem.nodes
  {
    if s.head == s.tail then s.(consumer := Idle)
    else if kind == Pop then s.(mem := ClearLink(s.mem, s.tail), consumer := Spin(kind))
    else s.(consumer := Spin(kind))
  }

  /** Move the tail to its successor `m`, take the value there, and let go of the old tail. */
  function Take(s: State, m: Nid): State
    requires s.tail in s.mem.nodes && m in s.mem.nodes && m != s.tail
  {
    var v := s.mem.nodes[m].value;
    var mem1 := SetNode(s.mem, m, s.mem.nodes[m].(prev := None, value := None));
    var chain := s.hist.chain[if |s.hist.chain| > 0 then 1 else 0..];
    s.(
      mem := Release(ClearLink(mem1, s.tail), s.tail),
      tail := m,
      consumer := Idle,
      hist := s.hist.(chain := chain, fate := s.hist.fate[m := Popped(v)]))
  }

  /** `accept` is what the caller's predicate says of the first value. */
  function SpinNext(s: State, kind: Kind, accept: bool): State
    requires s.tail in s.mem.nodes && s.mem.nodes[s.tail].next.Some?
    requires s.mem.nodes[s.tail].next.value in s.mem.nodes && s.mem.nodes[s.tail].next.value != s.tail
  {
    if kind == Peek || (kind == PopIf && !accept) then s.(consumer := Idle)
    else Take(s, s.mem.nodes[s.tail].next.value)
  }

  // ---------------------------------------------------------------- handles

  /** `Entry::remove` finds the node linked, not the tail, and not the last. */
  predicate Removable(s: State, n: Nid)
    requires n in s.mem.nodes
  {
    var x := s.mem.nodes[n];
    IsLinked(x.refs) && x.prev.Some? && x.next.Some?
  }

  function Without(xs: seq<Nid>, n: Nid): seq<Nid> {
    if xs == [] then [] else if xs[0] == n then xs[1..] else [xs[0]] + Without(xs[1..], n)
  }

  function Unlink(s: State, n: Nid): State
    requires n in s.mem.nodes && Removable(s, n)
    requires s.mem.nodes[n].prev.value in s.mem.nodes && s.mem.nodes[n].next.value in s.mem.nodes
  {
    var x := s.mem.nodes[n];
    var p, q := x.prev.value, x.next.value;
    var mem1 := ClearLink(s.mem, n);
    var mem2 := SetNode(mem1, q, mem1.nodes[q].(prev := Some(p)));
    var mem3 := SetNode(mem2, p, mem2.nodes[p].(next := Some(q)));
    var mem4 := SetNode(mem3, n, mem3.nodes[n].(value := None));
    s.(
      mem := Release(mem4, n),
      hist := s.hist.(chain := Without(s.hist.chain, n), fate := s.hist.fate[n := Removed(x.value)]))
  }

  function DropHandle(s: State, n: Nid): State
    requires n in s.mem.nodes
  {
    s.(mem := Release(s.mem, n), hist := s.hist.(handles := s.hist.handles - {n}))
  }

  /** `remove` takes the handle, so the handle is dropped on every path. */
  function Remove(s: State, n: Nid): State
    requires RemoveSafe(s, n)
  {
    if Removable(s, n) then DropHandle(Unlink(s, n), n) else DropHandle(s, n)
  }

  /** Every node `remove` touches is allocated when it is touched. */
  predicate RemoveSafe(s: State, n: Nid) {
    && n in s.mem.nodes
    && (Removable(s, n) ==>
          && s.mem.nodes[n].prev.value in s.mem.nodes && s.mem.nodes[n].next.value in s.mem.nodes
          && n in Unlink(s, n).mem.nodes)
  }

  // ---------------------------------------------------------------- runs

  datatype Action =
    | StartPush(n: Nid, v: Value)
    | Push(n: Nid)
    | StartConsume(kind: Kind)
    | Consume(accept: bool)
    | RemoveEntry(n: Nid)
    | DropEntry(n: Nid)

  /** What has to be there for a step to make sense: the nodes it dereferences. */
  predicate Safe(s: State, a: Action) {
    match a
    case Push(n) =>
      n in s.pushers ==> n in s.mem.nodes && (s.pushers[n].StoreNext? ==> s.pushers[n].prev in s.mem.nodes)
    case Consume(_) =>
      && s.tail in s.mem.nodes
      && (s.consumer.Spin? && s.mem.nodes[s.tail].next.Some? ==>
            s.mem.nodes[s.tail].next.value in s.mem.nodes && s.mem.nodes[s.tail].next.value != s.tail)
    case RemoveEntry(n) => n in s.hist.handles && n !in s.pushers ==> RemoveSafe(s, n)
    case DropEntry(n) => n in s.hist.handles && n !in s.pushers ==> n in s.mem.nodes
    case _ => true
  }

  /** The consumer spins until the successor of the tail is there; handles are used only between its calls. */
  predicate Enabled(s: State, a: Action) {
    && Safe(s, a)
    && match a
       case StartPush(n, v) => n !in s.mem.nodes && n !in s.mem.freed && n !in s.hist.val && n !in s.hist.chain
       case Push(n) => n in s.pushers
       case StartConsume(_) => s.consumer.Idle?
       case Consume(_) => s.consumer.Check? || (s.consumer.Spin? && s.mem.nodes[s.tail].next.Some?)
       case RemoveEntry(n) => s.consumer.Idle? && n in s.hist.handles && n !in s.pushers
       case DropEntry(n) => s.consumer.Idle? && n in s.hist.handles && n !in s.pushers
  }

  function Step(s: State, a: Action): State
    requires Enabled(s, a)
  {
    match a
    case StartPush(n, v) => PushSwap(s, n, v)
    case Push(n) => PusherNext(s, n)
    case StartConsume(kind) => s.(consumer := Check(kind))
    case Consume(accept) =>
      if s.consumer.Check? then CheckNext(s, s.consumer.kind) else SpinNext(s, s.consumer.kind, accept)
    case RemoveEntry(n) => Remove(s, n)
    case DropEntry(n) => DropHandle(s, n)
  }

  /** `Queue::new`: a stub that only the list refers to. */
  function New(stub: Nid): State {
    State(Mem(map[stub := Node(None, None, None, 1)], {}), stub, stub, map[], Idle,
          Hist([stub], [], map[], map[], {}, {}))
  }

  ghost predicate Run(r: seq<State>, acts: seq<Action>) {
    && |r| == |acts| + 1 && r[0] == New(r[0].tail)
    && forall i {:trigger acts[i]} :: 0 <= i < |acts| ==> Enabled(r[i], acts[i]) && r[i + 1] == Step(r[i], acts[i])
  }
}
