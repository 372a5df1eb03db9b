/** What every step of the doubly linked queue keeps, and what that means for its users. */
module MpscListProof {
  import opened Common
  import opened MpscListSteps

  // ---------------------------------------------------------------- invariant

  /** The push of this node has not stored its predecessor's `next` yet. */
  predicate Linking(pushers: map<Nid, Pusher>, n: Nid) {
    n in pushers && !pushers[n].ReadTail?
  }

  predicate NoPrevYet(pushers: map<Nid, Pusher>, n: Nid) {
    n in pushers && pushers[n].StorePrev?
  }

  ghost predicate ChainInv(chain: seq<Nid>, head: Nid, tail: Nid, nodes: map<Nid, Node>) {
    && |chain| >= 1 && chain[0] == tail && chain[|chain| - 1] == head && Distinct(chain)
    && (forall i :: 0 <= i < |chain| ==> chain[i] in nodes)
  }

  /** `next` and `prev` run along the chain, except where a push has still to store them. */
  predicate LinkOk(p: Nid, n: Nid, nodes: map<Nid, Node>, pushers: map<Nid, Pusher>)
    requires p in nodes && n in nodes
  {
    && nodes[p].next == (if Linking(pushers, n) then None else Some(n))
    && nodes[n].prev == (if NoPrevYet(pushers, n) then None else Some(p))
    && (Linking(pushers, n) ==> pushers[n].prev == p)
  }

  ghost predicate LinksInv(chain: seq<Nid>, nodes: map<Nid, Node>, pushers: map<Nid, Pusher>)
    requires |chain| >= 1 && forall i :: 0 <= i < |chain| ==> chain[i] in nodes
  {
    && (forall i :: 0 < i < |chain| ==> LinkOk(chain[i - 1], chain[i], nodes, pushers))
    && nodes[chain[|chain| - 1]].next == None && nodes[chain[0]].prev == None
    && (forall n :: Linking(pushers, n) ==> n in chain[1..])
  }

  /**
   The list holds a reference to the nodes of the chain, the handle one to its node; the bit marks chain membership.
   */
  ghost predicate RefsInv(chain: seq<Nid>, nodes: map<Nid, Node>, handles: set<Nid>) {
    && (forall n :: n in nodes ==> n in chain || n in handles)
    && (forall n :: n in handles ==> n in nodes)
    && (forall n :: n in nodes ==> RefsOk(nodes[n].refs, n in chain, n in handles, chain != [] && n == chain[0]))
  }

  predicate RefsOk(refs: int, inChain: bool, hasHandle: bool, isTail: bool) {
    || refs == Bit(inChain) + Bit(hasHandle) + LINK_BIT * Bit(inChain)
    || (isTail && refs == Bit(inChain) + Bit(hasHandle))
  }

  ghost predicate ValuesInv(chain: seq<Nid>, nodes: map<Nid, Node>, val: map<Nid, Value>)
    requires |chain| >= 1 && forall i :: 0 <= i < |chain| ==> chain[i] in nodes
  {
    && nodes[chain[0]].value == None
    && (forall i :: 0 < i < |chain| ==> chain[i] in val && nodes[chain[i]].value == Some(val[chain[i]]))
  }

  /** Pushes in order, less those that left. */
  function Live(order: seq<Nid>, fate: map<Nid, Fate>): seq<Nid> {
    if order == [] then []
    else Live(order[..|order| - 1], fate) + if order[|order| - 1] in fate then [] else [order[|order| - 1]]
  }

  ghost predicate HistInv(chain: seq<Nid>, h: Hist) {
    && |chain| >= 1 && chain[1..] == Live(h.order, h.fate)
    && Distinct(h.order)
    && (forall n :: n in h.order <==> n in h.val)
    && (forall n :: n in h.fate ==>
       n in h.val && (h.fate[n] == Popped(Some(h.val[n])) || h.fate[n] == Removed(Some(h.val[n]))))
  }

  ghost predicate FreedInv(mem: Mem, h: Hist, pushers: map<Nid, Pusher>) {
    && (forall n :: n in mem.freed ==> n !in mem.nodes)
    && (forall n :: n in h.val ==> n in mem.nodes || n in mem.freed)
    && (forall n :: n in pushers ==> n in h.handles)
    && (forall n :: n in h.handles ==> n in h.val)
  }

  predicate ConsumerInv(consumer: Consumer, head: Nid, tail: Nid) {
    consumer.Spin? ==> head != tail
  }

  ghost predicate Inv(s: State) {
    && ChainInv(s.hist.chain, s.head, s.tail, s.mem.nodes)
    && LinksInv(s.hist.chain, s.mem.nodes, s.pushers)
    && RefsInv(s.hist.chain, s.mem.nodes, s.hist.handles)
    && ValuesInv(s.hist.chain, s.mem.nodes, s.hist.val)
    && HistInv(s.hist.chain, s.hist)
    && FreedInv(s.mem, s.hist, s.pushers)
    && ConsumerInv(s.consumer, s.head, s.tail)
  }

  lemma Join(s: State)
    requires ChainInv(s.hist.chain, s.head, s.tail, s.mem.nodes)
    requires LinksInv(s.hist.chain, s.mem.nodes, s.pushers)
    requires RefsInv(s.hist.chain, s.mem.nodes, s.hist.handles)
    requires ValuesInv(s.hist.chain, s.mem.nodes, s.hist.val)
    requires HistInv(s.hist.chain, s.hist) && FreedInv(s.mem, s.hist, s.pushers)
    requires ConsumerInv(s.consumer, s.head, s.tail)
    ensures Inv(s)
  {
    hide ChainInv, LinksInv, RefsInv, ValuesInv, HistInv, FreedInv;
  }

  // ---------------------------------------------------------------- push

  lemma SwapLinks(chain: seq<Nid>, nodes: map<Nid, Node>, pushers: map<Nid, Pusher>, n: Nid, x: Node, head: Nid)
    requires |chain| >= 1 && head == chain[|chain| - 1] && n !in nodes
    requires forall i :: 0 <= i < |chain| ==> chain[i] in nodes
    requires LinksInv(chain, nodes, pushers) && x.prev == None && x.next == None
    ensures LinksInv(chain + [n], nodes[n := x], pushers[n := StorePrev(head)])
  {
    var chain', nodes', pushers' := chain + [n], nodes[n := x], pushers[n := StorePrev(head)];
    forall i | 0 < i < |chain'|
      ensures LinkOk(chain'[i - 1], chain'[i], nodes', pushers')
    {
      if i < |chain| { assert LinkOk(chain[i - 1], chain[i], nodes, pushers); }
    }
    assert chain'[1..] == chain[1..] + [n];
  }

  lemma SwapRefs(chain: seq<Nid>, nodes: map<Nid, Node>, handles: set<Nid>, n: Nid, x: Node)
    requires |chain| >= 1 && RefsInv(chain, nodes, handles) && n !in nodes && n !in chain && x.refs == REF_INIT
    ensures RefsInv(chain + [n], nodes[n := x], handles + {n})
  {
    assert (chain + [n])[|chain|] == n;
  }

  lemma SwapHist(chain: seq<Nid>, h: Hist, n: Nid, v: Value)
    requires HistInv(chain, h) && n !in h.val && n !in chain
    ensures HistInv(chain + [n], h.(order := h.order + [n], val := h.val[n := v]))
  {
    assert (h.order + [n])[..|h.order|] == h.order;
    assert n !in h.order;
    assert (chain + [n])[1..] == chain[1..] + [n];
  }

  lemma SwapKeepsInv(s: State, n: Nid, v: Value)
    requires Inv(s) && Enabled(s, StartPush(n, v))
    ensures Inv(PushSwap(s, n, v))
  {
    hide LinksInv, RefsInv, HistInv;
    var h := s.hist;
    var x := Node(None, None, Some(v), REF_INIT);
    SwapLinks(h.chain, s.mem.nodes, s.pushers, n, x, s.head);
    SwapRefs(h.chain, s.mem.nodes, h.handles, n, x);
    SwapHist(h.chain, h, n, v);
    HistFrame(h.chain + [n], h.(order := h.order + [n], val := h.val[n := v]), PushSwap(s, n, v).hist);
    Join(PushSwap(s, n, v));
  }

  lemma HistFrame(chain: seq<Nid>, h: Hist, h': Hist)
    requires HistInv(chain, h) && h'.order == h.order && h'.val == h.val && h'.fate == h.fate
    ensures HistInv(chain, h')
  {
  }

  /** A node's place in the chain. */
  lemma LinkingPlace(s: State, n: Nid) returns (i: int)
    requires Inv(s) && Linking(s.pushers, n)
    ensures 0 < i < |s.hist.chain| && s.hist.chain[i] == n && s.hist.chain[i - 1] == s.pushers[n].prev
    ensures LinkOk(s.hist.chain[i - 1], n, s.mem.nodes, s.pushers)
  {
    assert n in s.hist.chain[1..];
    var k :| 0 <= k < |s.hist.chain[1..]| && s.hist.chain[1..][k] == n;
    i := k + 1;
    assert LinkOk(s.hist.chain[i - 1], s.hist.chain[i], s.mem.nodes, s.pushers);
  }

  lemma StorePrevLinks(chain: seq<Nid>, nodes: map<Nid, Node>, pushers: map<Nid, Pusher>, i: int)
    requires Distinct(chain) && 0 < i < |chain| && forall j :: 0 <= j < |chain| ==> chain[j] in nodes
    requires LinksInv(chain, nodes, pushers) && chain[i] in pushers && pushers[chain[i]] == StorePrev(chain[i - 1])
    ensures LinksInv(chain, nodes[chain[i] := nodes[chain[i]].(prev := Some(chain[i - 1]))],
                     pushers[chain[i] := StoreNext(chain[i - 1])])
  {
    var nodes' := nodes[chain[i] := nodes[chain[i]].(prev := Some(chain[i - 1]))];
    var pushers' := pushers[chain[i] := StoreNext(chain[i - 1])];
    forall j | 0 < j < |chain|
      ensures LinkOk(chain[j - 1], chain[j], nodes', pushers')
    {
      assert LinkOk(chain[j - 1], chain[j], nodes, pushers);
    }
  }

  lemma StoreNextLinks(chain: seq<Nid>, nodes: map<Nid, Node>, pushers: map<Nid, Pusher>, i: int)
    requires Distinct(chain) && 0 < i < |chain| && forall j :: 0 <= j < |chain| ==> chain[j] in nodes
    requires LinksInv(chain, nodes, pushers) && chain[i] in pushers && pushers[chain[i]] == StoreNext(chain[i - 1])
    ensures LinksInv(chain, nodes[chain[i - 1] := nodes[chain[i - 1]].(next := Some(chain[i]))],
                     pushers[chain[i] := ReadTail(chain[i - 1])])
  {
    var nodes' := nodes[chain[i - 1] := nodes[chain[i - 1]].(next := Some(chain[i]))];
    var pushers' := pushers[chain[i] := ReadTail(chain[i - 1])];
    forall j | 0 < j < |chain|
      ensures LinkOk(chain[j - 1], chain[j], nodes', pushers')
    {
      assert LinkOk(chain[j - 1], chain[j], nodes, pushers);
    }
  }

  /** Pointers change, nothing else does. */
  lemma PointersOnly(s: State, n: Nid, x: Node, pushers: map<Nid, Pusher>)
    requires Inv(s) && n in s.mem.nodes && x.value == s.mem.nodes[n].value && x.refs == s.mem.nodes[n].refs
    requires pushers.Keys == s.pushers.Keys
    requires LinksInv(s.hist.chain, s.mem.nodes[n := x], pushers)
    ensures Inv(s.(mem := SetNode(s.mem, n, x), pushers := pushers))
  {
    hide LinksInv, HistInv;
    Join(s.(mem := SetNode(s.mem, n, x), pushers := pushers));
  }

  lemma PusherKeepsInv(s: State, n: Nid)
    requires Inv(s) && Enabled(s, Push(n))
    ensures Inv(PusherNext(s, n))
  {
    hide LinksInv, RefsInv, ValuesInv, HistInv, FreedInv;
    match s.pushers[n]
    case StorePrev(prev) =>
      var i := LinkingPlace(s, n);
      StorePrevLinks(s.hist.chain, s.mem.nodes, s.pushers, i);
      PointersOnly(s, n, s.mem.nodes[n].(prev := Some(prev)), s.pushers[n := StoreNext(prev)]);
    case StoreNext(prev) =>
      var i := LinkingPlace(s, n);
      StoreNextLinks(s.hist.chain, s.mem.nodes, s.pushers, i);
      PointersOnly(s, prev, s.mem.nodes[prev].(next := Some(n)), s.pushers[n := ReadTail(prev)]);
    case ReadTail(prev) => ReadTailKeepsInv(s, n);
  }

  lemma ReadTailKeepsInv(s: State, n: Nid)
    requires Inv(s) && Enabled(s, Push(n)) && s.pushers[n].ReadTail?
    ensures Inv(PusherNext(s, n))
  {
    hide ChainInv, RefsInv, ValuesInv, HistInv;
    var s' := PusherNext(s, n);
    HistFrame(s.hist.chain, s.hist, s'.hist);
    EndPushLinks(s, n);
    Join(s');
  }

  lemma EndPushLinks(s: State, n: Nid)
    requires Inv(s) && n in s.pushers && s.pushers[n].ReadTail?
    ensures LinksInv(s.hist.chain, s.mem.nodes, s.pushers - {n})
  {
    forall j | 0 < j < |s.hist.chain|
      ensures LinkOk(s.hist.chain[j - 1], s.hist.chain[j], s.mem.nodes, s.pushers - {n})
    {
      assert LinkOk(s.hist.chain[j - 1], s.hist.chain[j], s.mem.nodes, s.pushers);
    }
  }

  // ---------------------------------------------------------------- sequences

  lemma {:induction false} WithoutAt(xs: seq<Nid>, k: int)
    requires Distinct(xs) && 0 <= k < |xs|
    ensures Without(xs, xs[k]) == xs[..k] + xs[k + 1..]
  {
    if k > 0 {
      assert xs[0] != xs[k];
      WithoutAt(xs[1..], k - 1);
      assert xs[1..][..k - 1] == xs[1..k] && xs[1..][k..] == xs[k + 1..];
      assert xs[..k] == [xs[0]] + xs[1..k];
    }
  }

  lemma {:induction false} LiveSame(order: seq<Nid>, fate: map<Nid, Fate>, n: Nid, f: Fate)
    requires n !in order || n in fate
    ensures Live(order, fate[n := f]) == Live(order, fate)
  {
    if order != [] {
      var rest := order[..|order| - 1];
      assert order == rest + [order[|order| - 1]];
      LiveSame(rest, fate, n, f);
    }
  }

  lemma {:induction false} LiveMember(order: seq<Nid>, fate: map<Nid, Fate>, n: Nid)
    ensures n in Live(order, fate) <==> n in order && n !in fate
  {
    if order != [] {
      var rest := order[..|order| - 1];
      assert order == rest + [order[|order| - 1]];
      LiveMember(rest, fate, n);
    }
  }

  lemma {:induction false} WithoutSum(a: seq<Nid>, b: seq<Nid>, n: Nid)
    ensures n in a ==> Without(a + b, n) == Without(a, n) + b
    ensures n !in a ==> Without(a + b, n) == a + Without(b, n)
  {
    if a == [] {
      assert a + b == b;
    } else {
      WithoutSum(a[1..], b, n);
      assert (a + b)[1..] == a[1..] + b;
      assert a == [a[0]] + a[1..];
    }
  }

  /** A node that leaves is taken out of the live pushes, and the others keep their order. */
  lemma {:induction false} LiveWithout(order: seq<Nid>, fate: map<Nid, Fate>, n: Nid, f: Fate)
    requires Distinct(order) && n in order && n !in fate
    ensures Live(order, fate[n := f]) == Without(Live(order, fate), n)
  {
    var rest, last := order[..|order| - 1], order[|order| - 1];
    assert order == rest + [last];
    LiveMember(rest, fate, n);
    WithoutSum(Live(rest, fate), if last in fate then [] else [last], n);
    if last == n {
      LiveSame(rest, fate, n, f);
    } else {
      LiveWithout(rest, fate, n, f);
    }
  }

  // ---------------------------------------------------------------- pop

  lemma ClearTail(s: State)
    requires Inv(s) && s.consumer == Check(Pop) && s.head != s.tail
    ensures Inv(CheckNext(s, Pop))
  {
    hide HistInv, FreedInv, RefsInv, ValuesInv, LinksInv;
    var s' := CheckNext(s, Pop);
    var x := s.mem.nodes[s.tail];
    var x' := x.(refs := Cleared(x.refs));
    assert s'.mem.nodes == s.mem.nodes[s.tail := x'];
    ClearLinks(s.hist.chain, s.mem.nodes, s.pushers, s.tail, x');
    ClearRefs(s.hist.chain, s.mem.nodes, s.hist.handles, s.tail, x');
    ClearRest(s, x');
    hide ChainInv;
    Join(s');
  }

  lemma ClearRefs(chain: seq<Nid>, nodes: map<Nid, Node>, handles: set<Nid>, n: Nid, x: Node)
    requires |chain| >= 1 && n == chain[0] && n in nodes && x.refs == Cleared(nodes[n].refs)
    requires RefsInv(chain, nodes, handles)
    ensures RefsInv(chain, nodes[n := x], handles)
  {
    assert RefsOk(nodes[n].refs, true, n in handles, true);
  }

  lemma ClearRest(s: State, x: Node)
    requires Inv(s) && x.value == s.mem.nodes[s.tail].value
    ensures var m := SetNode(s.mem, s.tail, x);
      && ChainInv(s.hist.chain, s.head, s.tail, m.nodes) && ValuesInv(s.hist.chain, m.nodes, s.hist.val)
      && FreedInv(m, s.hist, s.pushers)
  {
    hide LinksInv, RefsInv, HistInv;
  }

  lemma ClearLinks(chain: seq<Nid>, nodes: map<Nid, Node>, pushers: map<Nid, Pusher>, n: Nid, x: Node)
    requires |chain| >= 1 && n in nodes && x.prev == nodes[n].prev && x.next == nodes[n].next
    requires forall i :: 0 <= i < |chain| ==> chain[i] in nodes
    requires LinksInv(chain, nodes, pushers)
    ensures LinksInv(chain, nodes[n := x], pushers)
  {
    forall j | 0 < j < |chain|
      ensures LinkOk(chain[j - 1], chain[j], nodes[n := x], pushers)
    {
      assert LinkOk(chain[j - 1], chain[j], nodes, pushers);
    }
  }

  lemma ConsumerMoves(s: State, c: Consumer)
    requires Inv(s) && ConsumerInv(c, s.head, s.tail)
    ensures Inv(s.(consumer := c))
  {
    hide ChainInv, LinksInv, RefsInv, ValuesInv, HistInv, FreedInv;
  }

  /** The tail's successor, once it is linked. */
  lemma Successor(s: State)
    requires Inv(s) && s.mem.nodes[s.tail].next.Some?
    ensures |s.hist.chain| >= 2 && s.mem.nodes[s.tail].next == Some(s.hist.chain[1])
    ensures s.hist.chain[1] in s.mem.nodes && s.hist.chain[1] != s.tail && !Linking(s.pushers, s.hist.chain[1])
    ensures s.hist.chain[1] in s.hist.val && s.mem.nodes[s.hist.chain[1]].value == Some(s.hist.val[s.hist.chain[1]])
  {
    hide RefsInv, HistInv, FreedInv;
    assert |s.hist.chain| >= 2;
    assert LinkOk(s.hist.chain[0], s.hist.chain[1], s.mem.nodes, s.pushers);
  }

  /** The allocated nodes after one of them let go of a reference of its own. */
  ghost predicate Released(nodes: map<Nid, Node>, nodes': map<Nid, Node>, t: Nid, keep: bool, refs: int) {
    && (t in nodes' <==> keep)
    && (keep ==> t in nodes && nodes'[t] == nodes[t].(refs := refs))
    && (forall n :: n != t ==> (n in nodes' <==> n in nodes) && (n in nodes ==> nodes'[n] == nodes[n]))
  }

  lemma TailReleased(s: State)
    requires Inv(s) && s.mem.nodes[s.tail].next.Some?
    ensures var m := s.hist.chain[1];
      var mid := s.mem.nodes[m := s.mem.nodes[m].(prev := None, value := None)];
      var s' := Take(s, m);
      && Released(mid, s'.mem.nodes, s.tail, s.tail in s.hist.handles, 1)
      && s'.mem.freed == (if s.tail in s.hist.handles then s.mem.freed else s.mem.freed + {s.tail})
  {
    hide LinksInv, ValuesInv, HistInv, FreedInv;
    Successor(s);
    assert RefsOk(s.mem.nodes[s.tail].refs, true, s.tail in s.hist.handles, true);
  }

  lemma TakeLinks(chain: seq<Nid>, nodes: map<Nid, Node>, pushers: map<Nid, Pusher>, nodes': map<Nid, Node>, keep: bool)
    requires |chain| >= 2 && Distinct(chain) && forall i :: 0 <= i < |chain| ==> chain[i] in nodes
    requires LinksInv(chain, nodes, pushers) && !Linking(pushers, chain[1])
    requires Released(nodes[chain[1] := nodes[chain[1]].(prev := None, value := None)], nodes', chain[0], keep, 1)
    ensures forall i :: 0 <= i < |chain[1..]| ==> chain[1..][i] in nodes'
    ensures LinksInv(chain[1..], nodes', pushers)
  {
    var chain' := chain[1..];
    forall j | 0 < j < |chain'|
      ensures LinkOk(chain'[j - 1], chain'[j], nodes', pushers)
    {
      assert LinkOk(chain[j], chain[j + 1], nodes, pushers);
    }
    forall n | Linking(pushers, n)
      ensures n in chain'[1..]
    {
      assert n in chain[1..];
      var k :| 0 <= k < |chain'| && chain'[k] == n;
      assert chain'[1..][k - 1] == n;
    }
  }

  lemma TakeRefs(chain: seq<Nid>, nodes: map<Nid, Node>, handles: set<Nid>, nodes': map<Nid, Node>)
    requires |chain| >= 2 && Distinct(chain) && forall i :: 0 <= i < |chain| ==> chain[i] in nodes
    requires RefsInv(chain, nodes, handles)
    requires Released(nodes[chain[1] := nodes[chain[1]].(prev := None, value := None)], nodes', chain[0],
                      chain[0] in handles, 1)
    ensures RefsInv(chain[1..], nodes', handles)
  {
    assert chain == [chain[0]] + chain[1..];
    assert chain[0] !in chain[1..];
    forall n | n in nodes'
      ensures RefsOk(nodes'[n].refs, n in chain[1..], n in handles, n == chain[1])
    {
      assert RefsOk(nodes[n].refs, n in chain, n in handles, n == chain[0]);
    }
  }

  /** A waiting node leaves with its own value. */
  lemma LeaveHist(chain: seq<Nid>, h: Hist, chain': seq<Nid>, n: Nid, f: Fate)
    requires HistInv(chain, h) && n in chain[1..] && n in h.val
    requires |chain'| >= 1 && chain'[1..] == Without(chain[1..], n)
    requires f == Popped(Some(h.val[n])) || f == Removed(Some(h.val[n]))
    ensures HistInv(chain', h.(fate := h.fate[n := f]))
  {
    LiveMember(h.order, h.fate, n);
    LiveWithout(h.order, h.fate, n, f);
    hide Live, Without;
  }

  lemma TakeHist(chain: seq<Nid>, h: Hist)
    requires HistInv(chain, h) && |chain| >= 2 && chain[1] in h.val
    ensures HistInv(chain[1..], h.(fate := h.fate[chain[1] := Popped(Some(h.val[chain[1]]))]))
  {
    hide HistInv;
    assert chain[1] in chain[1..];
    assert chain[1..][1..] == Without(chain[1..], chain[1]);
    LeaveHist(chain, h, chain[1..], chain[1], Popped(Some(h.val[chain[1]])));
  }

  lemma TakeKeepsInv(s: State)
    requires Inv(s) && s.mem.nodes[s.tail].next.Some?
    ensures |s.hist.chain| >= 2 && s.hist.chain[1] in s.mem.nodes && s.hist.chain[1] != s.tail
    ensures Inv(Take(s, s.hist.chain[1]))
  {
    Successor(s);
    TailReleased(s);
    var h, m := s.hist, s.hist.chain[1];
    var s' := Take(s, m);
    assert s'.hist.chain == h.chain[1..];
    TakeLinks(h.chain, s.mem.nodes, s.pushers, s'.mem.nodes, s.tail in h.handles);
    TakeRefs(h.chain, s.mem.nodes, h.handles, s'.mem.nodes);
    TakeHist(h.chain, h);
    HistFrame(h.chain[1..], h.(fate := h.fate[m := Popped(Some(h.val[m]))]), s'.hist);
    TakeRest(s);
    hide ChainInv, LinksInv, RefsInv, ValuesInv, HistInv, FreedInv, Take;
    Join(s');
  }

  lemma TakeRest(s: State)
    requires Inv(s) && s.mem.nodes[s.tail].next.Some? && |s.hist.chain| >= 2
    requires s.hist.chain[1] in s.mem.nodes && s.hist.chain[1] != s.tail
    ensures var s' := Take(s, s.hist.chain[1]);
      && s'.consumer.Idle? && s'.pushers == s.pushers
      && ChainInv(s'.hist.chain, s'.head, s'.tail, s'.mem.nodes)
      && ValuesInv(s'.hist.chain, s'.mem.nodes, s'.hist.val)
      && FreedInv(s'.mem, s'.hist, s'.pushers)
  {
    hide LinksInv, RefsInv, HistInv;
    TailReleased(s);
    hide Take;
    var s' := Take(s, s.hist.chain[1]);
    TakeFields(s);
    assert s.hist.chain[0] !in s.hist.chain[1..];
  }

  lemma TakeFields(s: State)
    requires s.tail in s.mem.nodes && |s.hist.chain| >= 2 && s.hist.chain[1] in s.mem.nodes && s.hist.chain[1] != s.tail
    ensures var s' := Take(s, s.hist.chain[1]);
      && s'.head == s.head && s'.tail == s.hist.chain[1] && s'.pushers == s.pushers && s'.consumer.Idle?
      && s'.hist.chain == s.hist.chain[1..] && s'.hist.val == s.hist.val && s'.hist.handles == s.hist.handles
  {
  }

  lemma ConsumeKeepsInv(s: State, accept: bool)
    requires Inv(s) && Enabled(s, Consume(accept))
    ensures Inv(Step(s, Consume(accept)))
  {
    hide Inv, Take, ClearLink;
    if s.consumer.Check? {
      if s.head != s.tail && s.consumer.kind == Pop {
        ClearTail(s);
      } else {
        ConsumerMoves(s, if s.head == s.tail then Idle else Spin(s.consumer.kind));
      }
    } else {
      ConsumerMoves(s, Idle);
      Successor(s);
      TakeKeepsInv(s);
    }
  }

  // ---------------------------------------------------------------- remove and drop

  /** A node of the chain that `remove` takes: neither the tail nor the last, its successor linked. */
  ghost predicate Middle(s: State, n: Nid, k: int) {
    && 0 < k < |s.hist.chain| - 1 && s.hist.chain[k] == n && !Linking(s.pushers, s.hist.chain[k + 1])
  }

  lemma ChainLink(s: State, k: int)
    requires Inv(s) && 0 < k < |s.hist.chain|
    ensures s.hist.chain[k - 1] in s.mem.nodes && s.hist.chain[k] in s.mem.nodes
    ensures LinkOk(s.hist.chain[k - 1], s.hist.chain[k], s.mem.nodes, s.pushers)
  {
    hide RefsInv, ValuesInv, HistInv, FreedInv, LinkOk;
  }

  lemma NodeRefs(s: State, n: Nid)
    requires Inv(s) && n in s.mem.nodes
    ensures RefsOk(s.mem.nodes[n].refs, n in s.hist.chain, n in s.hist.handles, n == s.tail)
    ensures n == s.tail ==> s.mem.nodes[n].prev == None && n in s.hist.chain
    ensures n == s.head ==> s.mem.nodes[n].next == None
  {
    hide ValuesInv, HistInv, FreedInv;
  }

  /** `remove` acts on exactly these nodes. */
  lemma RemovableExactly(s: State, n: Nid) returns (k: int)
    requires Inv(s) && n in s.hist.handles && n !in s.pushers
    ensures n in s.mem.nodes
    ensures Removable(s, n) <==> Middle(s, n, k)
    ensures Removable(s, n) ==>
      && s.mem.nodes[n].prev == Some(s.hist.chain[k - 1]) && s.mem.nodes[n].next == Some(s.hist.chain[k + 1])
      && s.hist.chain[k - 1] in s.mem.nodes && s.hist.chain[k + 1] in s.mem.nodes
      && s.mem.nodes[n].refs == REF_INIT
  {
    hide Inv;
    HandleIsAllocated(s, n);
    NodeRefs(s, n);
    k := 0;
    if n in s.hist.chain {
      k :| 0 <= k < |s.hist.chain| && s.hist.chain[k] == n;
      ChainEnds(s);
      if k > 0 { ChainLink(s, k); }
      if k < |s.hist.chain| - 1 { ChainLink(s, k + 1); }
    } else {
      assert !Removable(s, n);
    }
  }

  lemma HandleIsAllocated(s: State, n: Nid)
    requires Inv(s) && n in s.hist.handles
    ensures n in s.mem.nodes
  {
    hide ChainInv, LinksInv, ValuesInv, HistInv, FreedInv, RefsOk;
  }

  lemma ChainEnds(s: State)
    requires Inv(s)
    ensures |s.hist.chain| >= 1 && s.hist.chain[0] == s.tail && s.hist.chain[|s.hist.chain| - 1] == s.head
    ensures Distinct(s.hist.chain)
    ensures forall i :: 0 <= i < |s.hist.chain| ==> s.hist.chain[i] in s.mem.nodes
  {
    hide LinksInv, RefsInv, ValuesInv, HistInv, FreedInv;
  }

  /** The allocated nodes once `n` at place `k` is unlinked and both its references are gone. */
  function Unlinked(chain: seq<Nid>, nodes: map<Nid, Node>, k: int): map<Nid, Node>
    requires 0 < k < |chain| - 1 && chain[k - 1] in nodes && chain[k + 1] in nodes
  {
    var p, q := chain[k - 1], chain[k + 1];
    nodes[p := nodes[p].(next := Some(q))][q := nodes[q].(prev := Some(p))] - {chain[k]}
  }

  /** The pointer surgery of `remove` on the nodes alone. */
  lemma UnlinkNodes(nodes: map<Nid, Node>, p: Nid, n: Nid, q: Nid, x: Node, y: Node)
    requires p in nodes && n in nodes && q in nodes && p != n && q != n && p != q
    ensures nodes[n := x][q := nodes[n := x][q].(prev := Some(p))]
            [p := nodes[n := x][q := nodes[n := x][q].(prev := Some(p))][p].(next := Some(q))]
            [n := y] - {n}
         == nodes[p := nodes[p].(next := Some(q))][q := nodes[q].(prev := Some(p))] - {n}
  {
  }

  lemma RemoveResult(s: State, n: Nid, k: int)
    requires Distinct(s.hist.chain) && n in s.mem.nodes && Middle(s, n, k) && Removable(s, n)
    requires s.mem.nodes[n].prev == Some(s.hist.chain[k - 1]) && s.mem.nodes[n].next == Some(s.hist.chain[k + 1])
    requires s.hist.chain[k - 1] in s.mem.nodes && s.hist.chain[k + 1] in s.mem.nodes && s.mem.nodes[n].refs == REF_INIT
    ensures RemoveSafe(s, n)
    ensures Remove(s, n).mem == Mem(Unlinked(s.hist.chain, s.mem.nodes, k), s.mem.freed + {n})
    ensures Remove(s, n).hist == s.hist.(chain := Without(s.hist.chain, n),
                                         fate := s.hist.fate[n := Removed(s.mem.nodes[n].value)],
                                         handles := s.hist.handles - {n})
  {
    hide Without;
    var p, q := s.hist.chain[k - 1], s.hist.chain[k + 1];
    var x := s.mem.nodes[n];
    assert Cleared(REF_INIT) == 2;
    UnlinkNodes(s.mem.nodes, p, n, q, x.(refs := 2), x.(refs := 2, value := None));
    UnlinkNodes(s.mem.nodes, p, n, q, x.(refs := 2), x.(refs := 1, value := None));
    var s1 := Unlink(s, n);
    assert s1.mem.nodes[n] == x.(refs := 1, value := None);
    assert s1.mem.nodes - {n} == Unlinked(s.hist.chain, s.mem.nodes, k);
  }

  lemma RemoveLinks(chain: seq<Nid>, nodes: map<Nid, Node>, pushers: map<Nid, Pusher>, k: int)
    requires 0 < k < |chain| - 1 && Distinct(chain) && forall i :: 0 <= i < |chain| ==> chain[i] in nodes
    requires LinksInv(chain, nodes, pushers) && !Linking(pushers, chain[k]) && !Linking(pushers, chain[k + 1])
    ensures var chain', nodes' := chain[..k] + chain[k + 1..], Unlinked(chain, nodes, k);
      && (forall i :: 0 <= i < |chain'| ==> chain'[i] in nodes')
      && LinksInv(chain', nodes', pushers)
  {
    var chain', nodes' := chain[..k] + chain[k + 1..], Unlinked(chain, nodes, k);
    forall j {:trigger chain'[j]} | 0 < j < |chain'|
      ensures chain'[j - 1] in nodes' && chain'[j] in nodes' && LinkOk(chain'[j - 1], chain'[j], nodes', pushers)
    {
      RemoveLinkAt(chain, nodes, pushers, k, j);
    }
    forall n | Linking(pushers, n)
      ensures n in chain'[1..]
    {
      assert n in chain[1..];
      var i :| 0 <= i < |chain[1..]| && chain[1..][i] == n;
      assert chain[i + 1] == n && i + 1 != k;
      assert chain'[1..][if i + 1 < k then i else i - 1] == n;
    }
    assert chain'[0] == chain[0] && chain'[|chain'| - 1] == chain[|chain| - 1];
  }

  lemma RemoveLinkAt(chain: seq<Nid>, nodes: map<Nid, Node>, pushers: map<Nid, Pusher>, k: int, j: int)
    requires 0 < k < |chain| - 1 && Distinct(chain) && forall i :: 0 <= i < |chain| ==> chain[i] in nodes
    requires LinksInv(chain, nodes, pushers) && !Linking(pushers, chain[k]) && !Linking(pushers, chain[k + 1])
    requires 0 < j < |chain| - 1
    ensures var chain', nodes' := chain[..k] + chain[k + 1..], Unlinked(chain, nodes, k);
      && chain'[j - 1] in nodes' && chain'[j] in nodes' && LinkOk(chain'[j - 1], chain'[j], nodes', pushers)
  {
    if j < k {
      assert LinkOk(chain[j - 1], chain[j], nodes, pushers);
    } else if j == k {
      assert LinkOk(chain[k - 1], chain[k], nodes, pushers) && LinkOk(chain[k], chain[k + 1], nodes, pushers);
    } else {
      assert LinkOk(chain[j], chain[j + 1], nodes, pushers);
    }
  }

  lemma RemoveRefs(chain: seq<Nid>, nodes: map<Nid, Node>, handles: set<Nid>, k: int)
    requires 0 < k < |chain| - 1 && Distinct(chain) && forall i :: 0 <= i < |chain| ==> chain[i] in nodes
    requires RefsInv(chain, nodes, handles)
    ensures RefsInv(chain[..k] + chain[k + 1..], Unlinked(chain, nodes, k), handles - {chain[k]})
  {
    var chain', nodes', handles' := chain[..k] + chain[k + 1..], Unlinked(chain, nodes, k), handles - {chain[k]};
    forall n | n != chain[k]
      ensures n in chain' <==> n in chain
    {
      if n in chain {
        var i :| 0 <= i < |chain| && chain[i] == n;
        assert chain'[if i < k then i else i - 1] == n;
      }
    }
    forall n | n in nodes'
      ensures RefsOk(nodes'[n].refs, n in chain', n in handles', n == chain'[0])
    {
      assert RefsOk(nodes[n].refs, n in chain, n in handles, n == chain[0]);
    }
  }

  lemma RemoveHist(chain: seq<Nid>, h: Hist, k: int)
    requires HistInv(chain, h) && Distinct(chain) && 0 < k < |chain| && chain[k] in h.val
    ensures HistInv(Without(chain, chain[k]), h.(fate := h.fate[chain[k] := Removed(Some(h.val[chain[k]]))]))
  {
    hide HistInv;
    var n := chain[k];
    assert chain[1..][k - 1] == n;
    assert Without(chain, n) == [chain[0]] + Without(chain[1..], n);
    assert Without(chain, n)[1..] == Without(chain[1..], n);
    LeaveHist(chain, h, Without(chain, n), n, Removed(Some(h.val[n])));
  }

  lemma RemoveKeepsInv(s: State, n: Nid)
    requires Inv(s) && n in s.hist.handles && n !in s.pushers && s.consumer.Idle? && n in s.mem.nodes && Removable(s, n)
    ensures RemoveSafe(s, n) && Inv(Remove(s, n))
  {
    hide Inv;
    var k := RemovableExactly(s, n);
    ChainEnds(s);
    RemoveResult(s, n, k);
    RemoveFields(s, n);
    hide Remove;
    RemoveParts(s, Remove(s, n), n, k);
  }

  lemma RemoveParts(s: State, s': State, n: Nid, k: int)
    requires Inv(s) && n in s.hist.handles && n !in s.pushers && s.consumer.Idle? && Middle(s, n, k)
    requires n in s.mem.nodes && s.hist.chain[k - 1] in s.mem.nodes && s.hist.chain[k + 1] in s.mem.nodes
    requires s'.mem == Mem(Unlinked(s.hist.chain, s.mem.nodes, k), s.mem.freed + {n})
    requires s'.hist == s.hist.(chain := Without(s.hist.chain, n),
                                fate := s.hist.fate[n := Removed(s.mem.nodes[n].value)],
                                    handles := s.hist.handles - {n})
    requires s'.consumer.Idle? && s'.head == s.head && s'.tail == s.tail && s'.pushers == s.pushers
    ensures Inv(s')
  {
    var h := s.hist;
    assert n in h.val && s.mem.nodes[n].value == Some(h.val[n]);
    hide LinksInv, RefsInv, HistInv, ValuesInv, Unlinked, Without;
    WithoutAt(h.chain, k);
    RemoveLinks(h.chain, s.mem.nodes, s.pushers, k);
    RemoveRefs(h.chain, s.mem.nodes, h.handles, k);
    RemoveHist(h.chain, h, k);
    HistFrame(Without(h.chain, n), h.(fate := h.fate[n := Removed(Some(h.val[n]))]), s'.hist);
    RemoveChain(h.chain, s.head, s.tail, s.mem.nodes, h.val, k);
    RemoveFreed(s.mem, h, s.pushers, k);
    hide ChainInv, FreedInv;
    Join(s');
  }

  lemma RemoveFreed(mem: Mem, h: Hist, pushers: map<Nid, Pusher>, k: int)
    requires FreedInv(mem, h, pushers) && 0 < k < |h.chain| - 1 && h.chain[k] !in pushers
    requires h.chain[k - 1] in mem.nodes && h.chain[k + 1] in mem.nodes
    ensures forall x :: x in Mem(Unlinked(h.chain, mem.nodes, k), mem.freed + {h.chain[k]}).freed ==>
        x !in Unlinked(h.chain, mem.nodes, k)
    ensures forall h': Hist :: h'.val == h.val && h'.handles == h.handles - {h.chain[k]} ==>
      FreedInv(Mem(Unlinked(h.chain, mem.nodes, k), mem.freed + {h.chain[k]}), h', pushers)
  {
  }

  lemma RemoveFields(s: State, n: Nid)
    requires RemoveSafe(s, n)
    ensures var s' := Remove(s, n);
      s'.consumer == s.consumer && s'.head == s.head && s'.tail == s.tail && s'.pushers == s.pushers
  {
  }

  lemma RemoveChain(chain: seq<Nid>, head: Nid, tail: Nid, nodes: map<Nid, Node>, val: map<Nid, Value>, k: int)
    requires ChainInv(chain, head, tail, nodes) && ValuesInv(chain, nodes, val) && 0 < k < |chain| - 1
    ensures ChainInv(chain[..k] + chain[k + 1..], head, tail, Unlinked(chain, nodes, k))
    ensures ValuesInv(chain[..k] + chain[k + 1..], Unlinked(chain, nodes, k), val)
  {
  }

  lemma DropKeepsInv(s: State, n: Nid)
    requires Inv(s) && n in s.hist.handles && n !in s.pushers && s.consumer.Idle?
    ensures n in s.mem.nodes && Inv(DropHandle(s, n))
  {
    hide Inv, LinksInv, RefsInv, HistInv, ValuesInv, FreedInv, ChainInv;
    HandleIsAllocated(s, n);
    NodeRefs(s, n);
    var s' := DropHandle(s, n);
    DropResult(s, n);
    hide DropHandle, RefsOk, Dropped;
    DropParts(s, s', n);
  }

  lemma DropResult(s: State, n: Nid)
    requires n in s.mem.nodes && n in s.hist.handles
    requires RefsOk(s.mem.nodes[n].refs, n in s.hist.chain, true, n == s.tail) && (n == s.tail ==> n in s.hist.chain)
    ensures var s' := DropHandle(s, n);
      && Dropped(s.hist.chain, s.mem.nodes, s'.mem.nodes, n)
      && s'.mem.freed == (if n in s.hist.chain then s.mem.freed else s.mem.freed + {n})
      && s' == s.(mem := s'.mem, hist := s.hist.(handles := s.hist.handles - {n}))
  {
  }

  lemma DropParts(s: State, s': State, n: Nid)
    requires Inv(s) && n in s.hist.handles && n !in s.pushers && s.consumer.Idle?
    requires Dropped(s.hist.chain, s.mem.nodes, s'.mem.nodes, n)
    requires s'.mem.freed == (if n in s.hist.chain then s.mem.freed else s.mem.freed + {n})
    requires s' == s.(mem := s'.mem, hist := s.hist.(handles := s.hist.handles - {n}))
    ensures Inv(s')
  {
    hide LinksInv, RefsInv, HistInv;
    HistFrame(s.hist.chain, s.hist, s'.hist);
    DropLinks(s.hist.chain, s.mem.nodes, s.pushers, s'.mem.nodes, n);
    DropRefs(s.hist.chain, s.mem.nodes, s.hist.handles, s'.mem.nodes, n);
    Join(s');
  }

  ghost predicate Dropped(chain: seq<Nid>, nodes: map<Nid, Node>, nodes': map<Nid, Node>, n: Nid) {
    n in nodes && Released(nodes, nodes', n, n in chain, nodes[n].refs - 1)
  }

  lemma DropLinks(chain: seq<Nid>, nodes: map<Nid, Node>, pushers: map<Nid, Pusher>, nodes': map<Nid, Node>, n: Nid)
    requires |chain| >= 1 && (forall i :: 0 <= i < |chain| ==> chain[i] in nodes) && LinksInv(chain, nodes, pushers)
    requires Dropped(chain, nodes, nodes', n)
    ensures (forall i :: 0 <= i < |chain| ==> chain[i] in nodes') && LinksInv(chain, nodes', pushers)
  {
    forall j | 0 < j < |chain|
      ensures LinkOk(chain[j - 1], chain[j], nodes', pushers)
    {
      assert LinkOk(chain[j - 1], chain[j], nodes, pushers);
    }
  }

  lemma DropRefs(chain: seq<Nid>, nodes: map<Nid, Node>, handles: set<Nid>, nodes': map<Nid, Node>, n: Nid)
    requires RefsInv(chain, nodes, handles) && n in handles && Dropped(chain, nodes, nodes', n)
    ensures RefsInv(chain, nodes', handles - {n})
  {
    forall m | m in nodes'
      ensures RefsOk(nodes'[m].refs, m in chain, m in handles - {n}, chain != [] && m == chain[0])
    {
      assert RefsOk(nodes[m].refs, m in chain, m in handles, chain != [] && m == chain[0]);
    }
  }

  // ---------------------------------------------------------------- every step, every run

  /** Nothing a step dereferences has been freed. */
  lemma StepsAreSafe(s: State, a: Action)
    requires Inv(s)
    ensures a.RemoveEntry? || Safe(s, a)
    ensures a.RemoveEntry? && s.consumer.Idle? ==> Safe(s, a)
  {
    hide Inv;
    ChainEnds(s);
    match a
    case Push(n) =>
      if n in s.pushers { PusherAllocated(s, n); }
    case Consume(_) => if s.mem.nodes[s.tail].next.Some? { Successor(s); }
    case RemoveEntry(n) =>
      if n in s.hist.handles && n !in s.pushers && s.consumer.Idle? {
        HandleIsAllocated(s, n);
        if Removable(s, n) { RemoveKeepsInv(s, n); }
      }
    case DropEntry(n) => if n in s.hist.handles { HandleIsAllocated(s, n); }
    case _ =>
  }

  lemma PusherAllocated(s: State, n: Nid)
    requires Inv(s) && n in s.pushers
    ensures n in s.mem.nodes && (Linking(s.pushers, n) ==> s.pushers[n].prev in s.mem.nodes)
  {
    hide LinksInv, ValuesInv, HistInv, RefsOk;
    if Linking(s.pushers, n) { var i := LinkingPlace(s, n); }
  }

  lemma StepKeepsInv(s: State, a: Action)
    requires Inv(s) && Enabled(s, a)
    ensures Inv(Step(s, a))
  {
    hide Inv, PushSwap, PusherNext, Remove, DropHandle, CheckNext, SpinNext;
    match a
    case StartPush(n, v) => SwapKeepsInv(s, n, v);
    case Push(n) => PusherKeepsInv(s, n);
    case StartConsume(kind) => ConsumerMoves(s, Check(kind));
    case Consume(accept) => ConsumeKeepsInv(s, accept);
    case RemoveEntry(n) => RemoveOrDrop(s, n);
    case DropEntry(n) => DropKeepsInv(s, n);
  }

  lemma RemoveOrDrop(s: State, n: Nid)
    requires Inv(s) && Enabled(s, RemoveEntry(n))
    ensures Inv(Remove(s, n))
  {
    hide Inv, Unlink, DropHandle;
    if Removable(s, n) { RemoveKeepsInv(s, n); } else { DropKeepsInv(s, n); }
  }

  lemma NewInv(stub: Nid)
    ensures Inv(New(stub))
  {
  }

  lemma {:induction false} RunInv(r: seq<State>, acts: seq<Action>, i: nat)
    requires Run(r, acts) && i < |r|
    ensures Inv(r[i])
  {
    hide Inv, Step, Enabled;
    if i == 0 {
      NewInv(r[0].tail);
    } else {
      RunInv(r, acts, i - 1);
      StepKeepsInv(r[i - 1], acts[i - 1]);
    }
  }

  // ---------------------------------------------------------------- what the list promises

  /**
   The chain behind the tail is, in every state, the pushed values in order less those that left, with both links in
   step.
   */
  lemma ChainIsQueue(r: seq<State>, acts: seq<Action>, i: nat)
    requires Run(r, acts) && i < |r|
    ensures var s := r[i];
      && |s.hist.chain| >= 1 && s.hist.chain[0] == s.tail && s.hist.chain[|s.hist.chain| - 1] == s.head
      && s.hist.chain[1..] == Live(s.hist.order, s.hist.fate)
      && (forall k :: 0 < k < |s.hist.chain| ==> PlaceOk(s, k))
  {
    RunInv(r, acts, i);
  }

  /** The node at place `k` of the chain is linked both ways with the one before, and holds its value. */
  ghost predicate PlaceOk(s: State, k: int)
    requires 0 < k < |s.hist.chain|
  {
    var p, n := s.hist.chain[k - 1], s.hist.chain[k];
    && p in s.mem.nodes && n in s.mem.nodes && n in s.hist.val
    && LinkOk(p, n, s.mem.nodes, s.pushers) && s.mem.nodes[n].value == Some(s.hist.val[n])
  }

  /** A pop delivers the oldest value that has not left, and only that value. */
  lemma PopIsFifo(s: State, accept: bool)
    requires Inv(s) && Enabled(s, Consume(accept)) && s.consumer.Spin?
    ensures var s' := Step(s, Consume(accept));
      var live := Live(s.hist.order, s.hist.fate);
      && live != [] && live[0] in s.hist.val
      && (s'.hist.fate == s.hist.fate
          || (s'.hist.fate == s.hist.fate[live[0] := Popped(Some(s.hist.val[live[0]]))] && live[0] !in s.hist.fate
              && Live(s'.hist.order, s'.hist.fate) == live[1..]))
  {
    hide Inv, Live;
    Successor(s);
    LiveIsChain(s);
    WaitingHasNoFate(s, 1);
    ConsumeKeepsInv(s, accept);
    LiveIsChain(Step(s, Consume(accept)));
  }

  lemma LiveIsChain(s: State)
    requires Inv(s)
    ensures |s.hist.chain| >= 1 && Live(s.hist.order, s.hist.fate) == s.hist.chain[1..]
  {
    hide ChainInv, LinksInv, RefsInv, ValuesInv, FreedInv, Live;
  }

  /** `None` from pop, pop_if or peek at the check means that nothing waits at that moment. */
  lemma EmptyAnswerIsExact(s: State)
    requires Inv(s) && s.consumer.Check?
    ensures s.head == s.tail <==> Live(s.hist.order, s.hist.fate) == []
  {
    hide LinksInv, RefsInv, ValuesInv, FreedInv;
    if |s.hist.chain| > 1 { assert s.hist.chain[0] != s.hist.chain[|s.hist.chain| - 1]; }
  }

  /** A value leaves at most once, and never changes on the way. */
  lemma DeliveredOnce(s: State, a: Action, n: Nid)
    requires Inv(s) && Enabled(s, a) && n in s.hist.fate
    ensures n in s.hist.val
    ensures (s.hist.fate[n] == Popped(Some(s.hist.val[n])) || s.hist.fate[n] == Removed(Some(s.hist.val[n])))
    ensures n in Step(s, a).hist.fate && Step(s, a).hist.fate[n] == s.hist.fate[n]
  {
    hide Inv;
    ChainEnds(s);
    FateFacts(s, n);
    match a
    case Consume(accept) => if s.consumer.Spin? { Successor(s); WaitingHasNoFate(s, 1); }
    case RemoveEntry(m) =>
      var k := RemovableExactly(s, m);
      if Removable(s, m) { WaitingHasNoFate(s, k); }
    case _ =>
  }

  lemma FateFacts(s: State, n: Nid)
    requires Inv(s) && n in s.hist.fate
    ensures n in s.hist.val
    ensures (s.hist.fate[n] == Popped(Some(s.hist.val[n])) || s.hist.fate[n] == Removed(Some(s.hist.val[n])))
  {
    hide ChainInv, LinksInv, RefsInv, ValuesInv, FreedInv;
  }

  lemma WaitingHasNoFate(s: State, k: int)
    requires Inv(s) && 0 < k < |s.hist.chain|
    ensures s.hist.chain[k] !in s.hist.fate
  {
    hide ChainInv, LinksInv, RefsInv, ValuesInv, FreedInv;
    assert s.hist.chain[1..][k - 1] == s.hist.chain[k];
    LiveMember(s.hist.order, s.hist.fate, s.hist.chain[k]);
  }

  /** A node is freed when the list and the handle have both let go of it, once, and with its link bit clear. */
  lemma FreedOnce(s: State, a: Action, n: Nid)
    requires Inv(s) && Enabled(s, a)
    ensures n in s.mem.freed ==> n !in s.mem.nodes && n in Step(s, a).mem.freed
    ensures n in Step(s, a).mem.freed ==>
        n !in Step(s, a).mem.nodes && n !in Step(s, a).hist.chain && n !in Step(s, a).hist.handles
    ensures n in s.mem.nodes && n !in Step(s, a).mem.nodes ==> n in Step(s, a).mem.freed
    ensures n in s.mem.nodes ==> (n in s.hist.chain && n != s.tail ==> IsLinked(s.mem.nodes[n].refs))
  {
    hide Inv;
    StepKeepsInv(s, a);
    FreedFacts(s, n);
    FreedFacts(Step(s, a), n);
    if n in s.mem.nodes { NodeRefs(s, n); }
    MemMoves(s, a, n);
  }

  lemma FreedFacts(s: State, n: Nid)
    requires Inv(s)
    ensures n in s.mem.freed ==> n !in s.mem.nodes && n !in s.hist.chain && n !in s.hist.handles
  {
    hide LinksInv, ValuesInv, HistInv, RefsOk;
  }

  lemma MemMoves(s: State, a: Action, n: Nid)
    requires Enabled(s, a)
    ensures n in s.mem.freed ==> n in Step(s, a).mem.freed
    ensures n in s.mem.nodes && n !in Step(s, a).mem.nodes ==> n in Step(s, a).mem.freed
  {
    hide Without, Cleared, IsLinked;
  }

  /**
   When every push has returned its handle, every handle is gone and nothing waits, only the tail node is allocated.
   */
  lemma NothingLeaks(s: State)
    requires Inv(s) && s.hist.handles == {} && Live(s.hist.order, s.hist.fate) == []
    ensures s.mem.nodes.Keys == {s.tail}
    ensures forall n :: n in s.hist.val && n != s.tail ==> n in s.mem.freed
  {
    hide LinksInv, ValuesInv, RefsOk;
    assert s.hist.chain == [s.tail];
  }
}
