/**
 `OnceCell::initialize` (src/std/lazy/imp_std.rs) as a state machine: any number of calls, initialisers that succeed,
 fail or panic, waiters that are cancelled, one step per access to the state word or to a waiter node.

 A waiter's node lives on its stack, so it is named by its call and may be pushed again in a later wait. It is gone
 when its call ends, which a cancel can bring about while the node is still listed.
 */
module OnceCell {
  import opened Common

  type Value(!new)

  // ---------------------------------------------------------------- the state word

  /** What the word means: two flag bits, and above them the newest waiter while an initialiser runs. */
  datatype Word = Incomplete | Running(head: Option<Tid>) | Complete

  /** Nodes are aligned to four bytes and never at address zero. */
  function Address(t: Tid): nat { 4 * (t + 1) }

  function Encode(w: Word): nat {
    match w
    case Incomplete => 0
    case Running(None) => 1
    case Running(Some(t)) => Address(t) + 1
    case Complete => 2
  }

  /** Comparing words compares states and queues; the mask tells the three states apart. */
  lemma EncodingIsFaithful(a: Word, b: Word)
    ensures Encode(a) == Encode(b) <==> a == b
    ensures Encode(a) % 4 == 1 <==> a.Running?
    ensures a.Running? ==> Encode(a) - Encode(a) % 4 == (match a.head case None => 0 case Some(t) => Address(t))
  {
  }

  // ---------------------------------------------------------------- steps

  datatype Node = Node(next: Option<Tid>, signaled: bool)

  /** A call of `initialize`; `ok` is what its own initialiser returned. */
  datatype Call =
    | Load
    | Cas
    | Init
    | Swap(ok: bool)
    | Unpark(q: Tid, ok: bool)
    | ReadNext(q: Tid, ok: bool)
    | Store(q: Tid, next: Option<Tid>, ok: bool)
    | Push(seen: Option<Tid>)
    | Waiting

  /** History of a waiter: in the queue of the word, or on the list that an ended initialiser is walking. */
  datatype Place = InQueue | On(walker: Tid)

  /**
   History: the call whose initialiser runs, the queue, what each walker has left, where waiters are, answers, and the
   waiters whose nodes went away before they were signalled.
   */
  datatype Hist = Hist(owner: Option<Tid>, queue: seq<Tid>, left: map<Tid, seq<Tid>>, place: map<Tid, Place>,
                       answer: map<Tid, bool>, abandoned: set<Tid>)

  datatype State = State(word: Word, value: Option<Value>, nodes: map<Tid, Node>, calls: map<Tid, Call>, hist: Hist)

  function Goto(s: State, t: Tid, c: Call): State { s.(calls := s.calls[t := c]) }

  function Return(s: State, t: Tid, ok: bool): State {
    s.(calls := s.calls - {t}, hist := s.hist.(answer := s.hist.answer[t := ok]))
  }

  /** The loop of `initialize_inner` with the word last seen. */
  function Dispatch(s: State, t: Tid, seen: Word): State {
    match seen
    case Complete => Return(s, t, true)
    case Incomplete => Goto(s, t, Cas)
    case Running(h) => Goto(s, t, Push(h))
  }

  function CasNext(s: State, t: Tid): State {
    if s.word.Incomplete? then Goto(s, t, Init).(word := Running(None), hist := s.hist.(owner := Some(t)))
    else Dispatch(s, t, s.word)
  }

  /** The initialiser ends: with a value, or without one by an error or a panic. */
  function InitNext(s: State, t: Tid, outcome: Option<Value>): State {
    if outcome.Some? then Goto(s, t, Swap(true)).(value := outcome) else Goto(s, t, Swap(false))
  }

  /** `WaiterQueue::drop` swaps the final state in and starts on the waiters. */
  function SwapNext(s: State, t: Tid, ok: bool): State {
    var head := if s.word.Running? then s.word.head else None;
    var s1 := s.(word := if ok then Complete else Incomplete);
    var h := s.hist.(owner := None, queue := []);
    match head
    case None => Return(s1.(hist := h), t, ok)
    case Some(q) =>
      var place := map x | x in h.place :: if h.place[x] == InQueue then On(t) else h.place[x];
      Goto(s1, t, Unpark(q, ok)).(hist := h.(left := h.left[t := s.hist.queue], place := place))
  }

  function StoreNext(s: State, t: Tid, q: Tid, next: Option<Tid>, ok: bool): State
    requires q in s.nodes
  {
    var rest := if t in s.hist.left && s.hist.left[t] != [] then s.hist.left[t][1..] else [];
    var s1 := s.(
      nodes := s.nodes[q := s.nodes[q].(signaled := true)],
      hist := s.hist.(place := s.hist.place - {q}));
    match next
    case Some(n) => Goto(s1, t, Unpark(n, ok)).(hist := s1.hist.(left := s.hist.left[t := rest]))
    case None => Return(s1.(hist := s1.hist.(left := s.hist.left - {t})), t, ok)
  }

  /** `wait`: push a node in front of the queue last seen. */
  function PushNext(s: State, t: Tid, seen: Option<Tid>): State {
    if s.word == Running(seen) then
      s.(
        word := Running(Some(t)),
        nodes := s.nodes[t := Node(seen, false)],
        calls := s.calls[t := Waiting],
        hist := s.hist.(queue := [t] + s.hist.queue, place := s.hist.place[t := InQueue]))
    else if s.word.Running? then Goto(s, t, Push(s.word.head))
    else Goto(s, t, Load)
  }

  /** A cancel panics out of the park: the stack goes, and the node with it. */
  function CancelNext(s: State, t: Tid): State {
    var abandoned := if t in s.nodes && !s.nodes[t].signaled then s.hist.abandoned + {t} else s.hist.abandoned;
    s.(nodes := s.nodes - {t}, calls := s.calls - {t}, hist := s.hist.(abandoned := abandoned))
  }

  datatype Action =
    | Start(t: Tid)
    | Next(t: Tid, outcome: Option<Value>)
    | Cancel(t: Tid)

  /** Nodes a step dereferences. */
  predicate Safe(s: State, t: Tid) {
    t in s.calls ==>
      match s.calls[t]
      case Unpark(q, _) => q in s.nodes && !s.nodes[q].signaled
      case ReadNext(q, _) => q in s.nodes && !s.nodes[q].signaled
      case Store(q, _, _) => q in s.nodes && !s.nodes[q].signaled
      case Waiting => t in s.nodes
      case _ => true
  }

  predicate Enabled(s: State, a: Action) {
    match a
    case Start(t) => t !in s.calls && t !in s.hist.answer && t !in s.hist.abandoned
    case Next(t, _) => t in s.calls && Safe(s, t) && (s.calls[t].Waiting? ==> s.nodes[t].signaled)
    case Cancel(t) => t in s.calls && s.calls[t].Waiting?
  }

  function CallNext(s: State, t: Tid, outcome: Option<Value>): State
    requires Enabled(s, Next(t, outcome))
  {
    match s.calls[t]
    case Load => Dispatch(s, t, s.word)
    case Cas => CasNext(s, t)
    case Init => InitNext(s, t, outcome)
    case Swap(ok) => SwapNext(s, t, ok)
    case Unpark(q, ok) => Goto(s, t, ReadNext(q, ok))
    case ReadNext(q, ok) => Goto(s, t, Store(q, s.nodes[q].next, ok))
    case Store(q, next, ok) => StoreNext(s, t, q, next, ok)
    case Push(seen) => PushNext(s, t, seen)
    case Waiting => Goto(s, t, Load).(nodes := s.nodes - {t})
  }

  function Step(s: State, a: Action): State
    requires Enabled(s, a)
  {
    match a
    case Start(t) => Goto(s, t, Load)
    case Next(t, outcome) => CallNext(s, t, outcome)
    case Cancel(t) => CancelNext(s, t)
  }

  const New: State := State(Incomplete, None, map[], map[], Hist(None, [], map[], map[], map[], {}))

  ghost predicate Run(r: seq<State>, acts: seq<Action>) {
    && |r| == |acts| + 1 && r[0] == New
    && forall i {:trigger acts[i]} :: 0 <= i < |acts| ==> Enabled(r[i], acts[i]) && r[i + 1] == Step(r[i], acts[i])
  }

  // ---------------------------------------------------------------- invariant

  function First(xs: seq<Tid>): Option<Tid> { if xs == [] then None else Some(xs[0]) }

  /** The nodes that are still there are linked in the order of the list, none signalled. */
  ghost predicate Linked(xs: seq<Tid>, nodes: map<Tid, Node>) {
    && (forall i, j :: 0 <= i < j < |xs| ==> xs[i] != xs[j])
    && (forall i :: 0 <= i < |xs| && xs[i] in nodes ==> nodes[xs[i]] == Node(First(xs[i + 1..]), false))
  }

  predicate Walks(c: Call) { c.Unpark? || c.ReadNext? || c.Store? }

  predicate Owns(c: Call) { c.Init? || c.Swap? }

  ghost predicate WordInv(word: Word, value: Option<Value>, calls: map<Tid, Call>, owner: Option<Tid>,
      queue: seq<Tid>) {
    && (word.Running? <==> owner.Some?)
    && (owner.Some? ==> owner.value in calls && Owns(calls[owner.value]))
    && (forall t :: t in calls && Owns(calls[t]) ==> owner == Some(t))
    && (if word.Running? then word.head == First(queue) else queue == [])
    && (value.Some? <==> word.Complete? || (owner.Some? && calls[owner.value] == Swap(true)))
  }

  /** The walker's pointer is at the front of what it has left. */
  predicate WalkerOk(c: Call, left: seq<Tid>) {
    && left != []
    && (match c
        case Unpark(q, _) => q == left[0]
        case ReadNext(q, _) => q == left[0]
        case Store(q, next, _) => q == left[0] && next == First(left[1..])
        case _ => false)
  }

  ghost predicate WalksInv(nodes: map<Tid, Node>, calls: map<Tid, Call>, left: map<Tid, seq<Tid>>) {
    && (forall w :: w in left ==> Linked(left[w], nodes) && w in calls && WalkerOk(calls[w], left[w]))
    && (forall w :: w in calls && Walks(calls[w]) ==> w in left)
  }

  ghost predicate QueuePlaces(place: map<Tid, Place>, queue: seq<Tid>) {
    forall x :: x in queue <==> x in place && place[x] == InQueue
  }

  ghost predicate LeftPlaces(place: map<Tid, Place>, left: map<Tid, seq<Tid>>) {
    && (forall w, x :: w in left && x in left[w] ==> x in place && place[x] == On(w))
    && (forall x :: x in place && place[x].On? ==> place[x].walker in left && x in left[place[x].walker])
  }

  /** A waiter that is not signalled has a place, and keeps it when its node goes away. */
  ghost predicate NodePlaces(place: map<Tid, Place>, nodes: map<Tid, Node>, abandoned: set<Tid>) {
    && (forall x :: x in place <==> (x in nodes && !nodes[x].signaled) || x in abandoned)
    && (forall x :: x in abandoned ==> x !in nodes)
  }

  ghost predicate AbandonedInv(abandoned: set<Tid>, calls: map<Tid, Call>) {
    forall x :: x in abandoned ==> x !in calls
  }

  ghost predicate NodeCalls(nodes: map<Tid, Node>, calls: map<Tid, Call>) {
    forall x :: x in nodes <==> x in calls && calls[x].Waiting?
  }

  ghost predicate AnswersInv(answer: map<Tid, bool>, word: Word, calls: map<Tid, Call>) {
    && (forall t :: t in answer && answer[t] ==> word.Complete?)
    && (forall t :: t in calls && Walks(calls[t]) && calls[t].ok ==> word.Complete?)
  }

  ghost predicate Inv(s: State) {
    && WordInv(s.word, s.value, s.calls, s.hist.owner, s.hist.queue)
    && Linked(s.hist.queue, s.nodes)
    && WalksInv(s.nodes, s.calls, s.hist.left)
    && QueuePlaces(s.hist.place, s.hist.queue)
    && LeftPlaces(s.hist.place, s.hist.left)
    && NodePlaces(s.hist.place, s.nodes, s.hist.abandoned)
    && NodeCalls(s.nodes, s.calls)
    && AbandonedInv(s.hist.abandoned, s.calls)
    && AnswersInv(s.hist.answer, s.word, s.calls)
  }

  lemma Join(s: State)
    requires WordInv(s.word, s.value, s.calls, s.hist.owner, s.hist.queue)
    requires Linked(s.hist.queue, s.nodes) && WalksInv(s.nodes, s.calls, s.hist.left)
    requires QueuePlaces(s.hist.place, s.hist.queue) && LeftPlaces(s.hist.place, s.hist.left)
    requires NodePlaces(s.hist.place, s.nodes, s.hist.abandoned) && NodeCalls(s.nodes, s.calls)
    requires AbandonedInv(s.hist.abandoned, s.calls) && AnswersInv(s.hist.answer, s.word, s.calls)
    ensures Inv(s)
  {
    hide WordInv, Linked, WalksInv, QueuePlaces, LeftPlaces, NodePlaces, NodeCalls, AbandonedInv, AnswersInv;
  }

  // ---------------------------------------------------------------- parts

  lemma LinkedFrame(xs: seq<Tid>, nodes: map<Tid, Node>, nodes': map<Tid, Node>)
    requires Linked(xs, nodes) && forall x :: x in xs && x in nodes' ==> x in nodes && nodes'[x] == nodes[x]
    ensures Linked(xs, nodes')
  {
  }

  lemma LinkedFront(xs: seq<Tid>, nodes: map<Tid, Node>, t: Tid)
    requires Linked(xs, nodes) && t !in xs && t in nodes && nodes[t] == Node(First(xs), false)
    ensures Linked([t] + xs, nodes)
  {
    var ys := [t] + xs;
    forall i | 0 <= i < |ys| && ys[i] in nodes
      ensures nodes[ys[i]] == Node(First(ys[i + 1..]), false)
    {
      assert ys[i + 1..] == xs[i..];
      if i > 0 { assert ys[i] == xs[i - 1]; }
    }
  }

  lemma LinkedRest(xs: seq<Tid>, nodes: map<Tid, Node>)
    requires Linked(xs, nodes) && xs != []
    ensures Linked(xs[1..], nodes) && (xs[0] in nodes ==> nodes[xs[0]] == Node(First(xs[1..]), false))
    ensures xs[0] !in xs[1..]
  {
    var ys := xs[1..];
    forall i | 0 <= i < |ys| && ys[i] in nodes
      ensures nodes[ys[i]] == Node(First(ys[i + 1..]), false)
    {
      assert ys[i + 1..] == xs[i + 2..] && ys[i] == xs[i + 1];
    }
  }

  lemma WalksMove(nodes: map<Tid, Node>, calls: map<Tid, Call>, left: map<Tid, seq<Tid>>, t: Tid, c: Call)
    requires WalksInv(nodes, calls, left) && (t in calls ==> !Walks(calls[t])) && !Walks(c)
    ensures WalksInv(nodes, calls[t := c], left) && WalksInv(nodes, calls - {t}, left)
    ensures t !in left
  {
    hide Linked;
  }

  lemma NodesMove(nodes: map<Tid, Node>, calls: map<Tid, Call>, t: Tid, c: Call)
    requires NodeCalls(nodes, calls) && (t in calls ==> !calls[t].Waiting?) && !c.Waiting?
    ensures NodeCalls(nodes, calls[t := c]) && NodeCalls(nodes, calls - {t})
  {
  }

  /** A call that is there is not an abandoned one. */
  lemma AbandonedMove(abandoned: set<Tid>, calls: map<Tid, Call>, t: Tid, c: Call)
    requires AbandonedInv(abandoned, calls) && (t in calls || t !in abandoned)
    ensures t !in abandoned && AbandonedInv(abandoned, calls[t := c]) && AbandonedInv(abandoned, calls - {t})
  {
  }

  lemma AnswersMove(answer: map<Tid, bool>, word: Word, calls: map<Tid, Call>, t: Tid, c: Call)
    requires AnswersInv(answer, word, calls) && (Walks(c) && c.ok ==> word.Complete?)
    ensures AnswersInv(answer, word, calls[t := c]) && AnswersInv(answer, word, calls - {t})
    ensures AnswersInv(answer[t := word.Complete?], word, calls - {t})
    ensures AnswersInv(answer[t := false], word, calls - {t})
  {
  }

  lemma WordMove(word: Word, value: Option<Value>, calls: map<Tid, Call>, owner: Option<Tid>, queue: seq<Tid>,
      t: Tid, c: Call)
    requires WordInv(word, value, calls, owner, queue) && (t in calls ==> !Owns(calls[t])) && !Owns(c)
    ensures WordInv(word, value, calls[t := c], owner, queue) && WordInv(word, value, calls - {t}, owner, queue)
  {
  }

  // ---------------------------------------------------------------- steps keep it

  /** A call that neither owns, walks nor waits moves to such a place, or returns. */
  predicate Plain(c: Call) { !Owns(c) && !Walks(c) && !c.Waiting? }

  lemma PlainMove(s: State, t: Tid, c: Call)
    requires Inv(s) && (if t in s.calls then Plain(s.calls[t]) else t !in s.hist.abandoned) && Plain(c)
    ensures Inv(Goto(s, t, c))
    ensures t in s.calls && s.word.Complete? ==> Inv(Return(s, t, true))
  {
    hide WordInv, Linked, WalksInv, QueuePlaces, LeftPlaces, NodePlaces, NodeCalls, AbandonedInv, AnswersInv;
    WordMove(s.word, s.value, s.calls, s.hist.owner, s.hist.queue, t, c);
    WalksMove(s.nodes, s.calls, s.hist.left, t, c);
    NodesMove(s.nodes, s.calls, t, c);
    AbandonedMove(s.hist.abandoned, s.calls, t, c);
    AnswersMove(s.hist.answer, s.word, s.calls, t, c);
  }

  lemma DispatchKeepsInv(s: State, t: Tid)
    requires Inv(s) && t in s.calls && Plain(s.calls[t])
    ensures Inv(Dispatch(s, t, s.word))
  {
    hide Inv;
    PlainMove(s, t, Cas);
    PlainMove(s, t, Push(if s.word.Running? then s.word.head else None));
  }

  lemma CasKeepsInv(s: State, t: Tid)
    requires Inv(s) && t in s.calls && s.calls[t].Cas? && s.word.Incomplete?
    ensures Inv(CasNext(s, t))
  {
    hide Linked, WalksInv, QueuePlaces, LeftPlaces, NodePlaces, NodeCalls, AbandonedInv;
    WalksMove(s.nodes, s.calls, s.hist.left, t, Init);
    NodesMove(s.nodes, s.calls, t, Init);
    AbandonedMove(s.hist.abandoned, s.calls, t, Init);
    Join(CasNext(s, t));
  }

  lemma CasFails(s: State, t: Tid)
    requires Inv(s) && t in s.calls && s.calls[t].Cas? && !s.word.Incomplete?
    ensures Inv(CasNext(s, t))
  {
    hide Inv;
    DispatchKeepsInv(s, t);
  }

  lemma InitKeepsInv(s: State, t: Tid, outcome: Option<Value>)
    requires Inv(s) && t in s.calls && s.calls[t].Init?
    ensures Inv(InitNext(s, t, outcome))
  {
    hide Linked, WalksInv, QueuePlaces, LeftPlaces, NodePlaces, NodeCalls, AbandonedInv;
    var c := Swap(outcome.Some?);
    WalksMove(s.nodes, s.calls, s.hist.left, t, c);
    NodesMove(s.nodes, s.calls, t, c);
    AbandonedMove(s.hist.abandoned, s.calls, t, c);
    Join(InitNext(s, t, outcome));
  }

  lemma PushKeepsInv(s: State, t: Tid, seen: Option<Tid>)
    requires Inv(s) && t in s.calls && s.calls[t] == Push(seen) && s.word == Running(seen)
    ensures Inv(PushNext(s, t, seen))
  {
    hide WalksInv, Linked, WordInv, QueuePlaces, LeftPlaces, AnswersInv, NodePlaces, NodeCalls, AbandonedInv;
    PushParts(s, t, seen);
    AbandonedMove(s.hist.abandoned, s.calls, t, Waiting);
    PushNodes(s.hist.place, s.nodes, s.calls, s.hist.abandoned, t, Node(seen, false));
    Join(PushNext(s, t, seen));
  }

  lemma PushNodes(place: map<Tid, Place>, nodes: map<Tid, Node>, calls: map<Tid, Call>, abandoned: set<Tid>, t: Tid,
      x: Node)
    requires NodePlaces(place, nodes, abandoned) && NodeCalls(nodes, calls) && !x.signaled && t !in abandoned
    ensures NodePlaces(place[t := InQueue], nodes[t := x], abandoned)
    ensures NodeCalls(nodes[t := x], calls[t := Waiting])
  {
  }

  lemma PushParts(s: State, t: Tid, seen: Option<Tid>)
    requires Inv(s) && t in s.calls && s.calls[t] == Push(seen) && s.word == Running(seen)
    ensures var s' := PushNext(s, t, seen);
      && WordInv(s'.word, s'.value, s'.calls, s'.hist.owner, s'.hist.queue)
      && Linked(s'.hist.queue, s'.nodes) && WalksInv(s'.nodes, s'.calls, s'.hist.left)
      && QueuePlaces(s'.hist.place, s'.hist.queue) && LeftPlaces(s'.hist.place, s'.hist.left)
      && AnswersInv(s'.hist.answer, s'.word, s'.calls)
  {
    assert t !in s.nodes && t !in s.hist.abandoned && t !in s.hist.place;
    hide NodePlaces, NodeCalls, AbandonedInv;
    PushLinks(s, t, seen);
    PushWord(s.word, s.value, s.calls, s.hist.owner, s.hist.queue, t);
    PushAnswers(s.hist.answer, s.word, s.calls, t, Running(Some(t)));
    hide WalksInv, Linked, WordInv, AnswersInv;
    PushPlaces(s.hist.place, s.hist.queue, s.hist.left, t);
  }

  lemma PushWord(word: Word, value: Option<Value>, calls: map<Tid, Call>, owner: Option<Tid>, queue: seq<Tid>, t: Tid)
    requires WordInv(word, value, calls, owner, queue) && t in calls && !Owns(calls[t]) && word.Running?
    ensures WordInv(Running(Some(t)), value, calls[t := Waiting], owner, [t] + queue)
  {
  }

  lemma PushAnswers(answer: map<Tid, bool>, word: Word, calls: map<Tid, Call>, t: Tid, word': Word)
    requires AnswersInv(answer, word, calls) && word.Running?
    ensures AnswersInv(answer, word', calls[t := Waiting])
  {
  }

  lemma PushPlaces(place: map<Tid, Place>, queue: seq<Tid>, left: map<Tid, seq<Tid>>, t: Tid)
    requires QueuePlaces(place, queue) && LeftPlaces(place, left) && t !in place
    ensures QueuePlaces(place[t := InQueue], [t] + queue) && LeftPlaces(place[t := InQueue], left)
  {
  }

  lemma PushLinks(s: State, t: Tid, seen: Option<Tid>)
    requires Linked(s.hist.queue, s.nodes) && WalksInv(s.nodes, s.calls, s.hist.left)
    requires QueuePlaces(s.hist.place, s.hist.queue) && LeftPlaces(s.hist.place, s.hist.left) && t !in s.hist.place
    requires t in s.calls && s.calls[t] == Push(seen) && s.word == Running(seen) && t !in s.nodes
    requires seen == First(s.hist.queue)
    ensures var s' := PushNext(s, t, seen);
      Linked(s'.hist.queue, s'.nodes) && WalksInv(s'.nodes, s'.calls, s'.hist.left)
  {
    var nodes' := s.nodes[t := Node(seen, false)];
    assert t !in s.hist.queue && forall w :: w in s.hist.left ==> t !in s.hist.left[w];
    LinkedFrame(s.hist.queue, s.nodes, nodes');
    LinkedFront(s.hist.queue, nodes', t);
    WalksMove(s.nodes, s.calls, s.hist.left, t, Waiting);
    WalksFrame(s.nodes, nodes', s.calls[t := Waiting], s.hist.left);
  }

  lemma WalksFrame(nodes: map<Tid, Node>, nodes': map<Tid, Node>, calls: map<Tid, Call>, left: map<Tid, seq<Tid>>)
    requires WalksInv(nodes, calls, left)
    requires forall w, x :: w in left && x in left[w] && x in nodes' ==> x in nodes && nodes'[x] == nodes[x]
    ensures WalksInv(nodes', calls, left)
  {
    forall w | w in left
      ensures Linked(left[w], nodes')
    {
      LinkedFrame(left[w], nodes, nodes');
    }
    hide Linked;
  }

  lemma PushFails(s: State, t: Tid, seen: Option<Tid>)
    requires Inv(s) && t in s.calls && s.calls[t] == Push(seen) && s.word != Running(seen)
    ensures Inv(PushNext(s, t, seen))
  {
    hide Inv;
    PlainMove(s, t, Load);
    PlainMove(s, t, Push(if s.word.Running? then s.word.head else None));
  }

  // ---------------------------------------------------------------- the walk

  lemma SwapKeepsInv(s: State, t: Tid, ok: bool)
    requires Inv(s) && t in s.calls && s.calls[t] == Swap(ok)
    ensures s.word.Running? && Inv(SwapNext(s, t, ok))
  {
    SwapWord(s.word, s.value, s.calls, s.hist.owner, s.hist.queue, t, ok);
    hide WordInv;
    if s.hist.queue == [] { SwapAlone(s, t, ok); } else { SwapOnWaiters(s, t, ok); }
  }

  lemma SwapWord(word: Word, value: Option<Value>, calls: map<Tid, Call>, owner: Option<Tid>, queue: seq<Tid>,
      t: Tid, ok: bool)
    requires WordInv(word, value, calls, owner, queue) && t in calls && calls[t] == Swap(ok)
    ensures word == Running(First(queue))
    ensures WordInv(if ok then Complete else Incomplete, value, calls - {t}, None, [])
    ensures queue != [] ==>
      WordInv(if ok then Complete else Incomplete, value, calls[t := Unpark(queue[0], ok)], None, [])
  {
  }

  lemma SwapAnswers(answer: map<Tid, bool>, word: Word, calls: map<Tid, Call>, t: Tid, q: Tid, ok: bool)
    requires AnswersInv(answer, word, calls) && word.Running?
    ensures var word' := if ok then Complete else Incomplete;
      && AnswersInv(answer[t := ok], word', calls - {t})
      && AnswersInv(answer, word', calls[t := Unpark(q, ok)])
  {
  }

  lemma SwapAlone(s: State, t: Tid, ok: bool)
    requires Inv(s) && t in s.calls && s.calls[t] == Swap(ok) && s.hist.queue == [] && s.word == Running(None)
    requires WordInv(if ok then Complete else Incomplete, s.value, s.calls - {t}, None, [])
    ensures Inv(SwapNext(s, t, ok))
  {
    hide WordInv, Linked, WalksInv, QueuePlaces, LeftPlaces, NodePlaces, NodeCalls, AbandonedInv, AnswersInv;
    WalksMove(s.nodes, s.calls, s.hist.left, t, Load);
    NodesMove(s.nodes, s.calls, t, Load);
    AbandonedMove(s.hist.abandoned, s.calls, t, Load);
    SwapAnswers(s.hist.answer, s.word, s.calls, t, t, ok);
    Join(SwapNext(s, t, ok));
  }

  function Handed(place: map<Tid, Place>, t: Tid): map<Tid, Place> {
    map x | x in place :: if place[x] == InQueue then On(t) else place[x]
  }

  lemma SwapPlaces(place: map<Tid, Place>, queue: seq<Tid>, left: map<Tid, seq<Tid>>, nodes: map<Tid, Node>,
      abandoned: set<Tid>, t: Tid)
    requires QueuePlaces(place, queue) && LeftPlaces(place, left) && NodePlaces(place, nodes, abandoned) && t !in left
    ensures QueuePlaces(Handed(place, t), []) && LeftPlaces(Handed(place, t), left[t := queue])
    ensures NodePlaces(Handed(place, t), nodes, abandoned)
  {
  }

  lemma SwapWalks(nodes: map<Tid, Node>, calls: map<Tid, Call>, left: map<Tid, seq<Tid>>, queue: seq<Tid>, t: Tid,
      ok: bool)
    requires WalksInv(nodes, calls, left) && Linked(queue, nodes) && queue != [] && t in calls && !Walks(calls[t])
    ensures t !in left && WalksInv(nodes, calls[t := Unpark(queue[0], ok)], left[t := queue])
  {
    hide Linked;
  }

  lemma SwapOnWaiters(s: State, t: Tid, ok: bool)
    requires Inv(s) && t in s.calls && s.calls[t] == Swap(ok) && s.hist.queue != []
    requires s.word == Running(First(s.hist.queue))
    requires WordInv(if ok then Complete else Incomplete, s.value, s.calls[t := Unpark(s.hist.queue[0], ok)], None, [])
    ensures Inv(SwapNext(s, t, ok))
  {
    hide WordInv, Linked, WalksInv, QueuePlaces, LeftPlaces, NodePlaces, NodeCalls, AbandonedInv, AnswersInv;
    var h, s' := s.hist, SwapNext(s, t, ok);
    SwapWalks(s.nodes, s.calls, h.left, h.queue, t, ok);
    SwapPlaces(h.place, h.queue, h.left, s.nodes, h.abandoned, t);
    NodesMove(s.nodes, s.calls, t, Unpark(h.queue[0], ok));
    AbandonedMove(h.abandoned, s.calls, t, Unpark(h.queue[0], ok));
    SwapAnswers(h.answer, s.word, s.calls, t, h.queue[0], ok);
    EmptyLinked(s.nodes);
    assert s'.hist.place == Handed(h.place, t);
    Join(s');
  }

  lemma EmptyLinked(nodes: map<Tid, Node>)
    ensures Linked([], nodes)
  {
  }

  lemma WalkerFacts(s: State, t: Tid)
    requires Inv(s) && t in s.calls && Walks(s.calls[t])
    ensures t in s.hist.left && WalkerOk(s.calls[t], s.hist.left[t]) && Linked(s.hist.left[t], s.nodes)
  {
    hide Linked, WordInv, QueuePlaces, LeftPlaces, NodePlaces, NodeCalls, AbandonedInv, AnswersInv;
  }

  /** The walker moves on at the same node. */
  lemma WalkerMove(s: State, t: Tid, c: Call)
    requires Inv(s) && t in s.calls && Walks(s.calls[t]) && Walks(c) && c.ok == s.calls[t].ok
    requires t in s.hist.left && WalkerOk(c, s.hist.left[t])
    ensures Inv(Goto(s, t, c))
  {
    hide WordInv, Linked, QueuePlaces, LeftPlaces, NodePlaces, NodeCalls, AbandonedInv, AnswersInv;
    WordMove(s.word, s.value, s.calls, s.hist.owner, s.hist.queue, t, c);
    NodesMove(s.nodes, s.calls, t, c);
    AbandonedMove(s.hist.abandoned, s.calls, t, c);
    if c.ok { AnswerOfWalker(s, t); }
    AnswersMove(s.hist.answer, s.word, s.calls, t, c);
    Join(Goto(s, t, c));
  }

  lemma AnswerOfWalker(s: State, t: Tid)
    requires AnswersInv(s.hist.answer, s.word, s.calls) && t in s.calls && Walks(s.calls[t]) && s.calls[t].ok
    ensures s.word.Complete?
  {
  }

  lemma WalkKeepsInv(s: State, t: Tid, outcome: Option<Value>)
    requires Inv(s) && Enabled(s, Next(t, outcome)) && (s.calls[t].Unpark? || s.calls[t].ReadNext?)
    ensures Inv(CallNext(s, t, outcome))
  {
    hide Inv, Linked;
    WalkerFacts(s, t);
    LinkedRest(s.hist.left[t], s.nodes);
    match s.calls[t]
    case Unpark(q, ok) => WalkerMove(s, t, ReadNext(q, ok));
    case ReadNext(q, ok) => WalkerMove(s, t, Store(q, s.nodes[q].next, ok));
  }

  lemma StoreKeepsInv(s: State, t: Tid, q: Tid, next: Option<Tid>, ok: bool)
    requires Inv(s) && t in s.calls && s.calls[t] == Store(q, next, ok) && q in s.nodes
    ensures Inv(StoreNext(s, t, q, next, ok))
  {
    hide WordInv, Linked, WalksInv, QueuePlaces, LeftPlaces, NodePlaces, NodeCalls, AbandonedInv, AnswersInv;
    WalkerFacts(s, t);
    var h, xs := s.hist, s.hist.left[t];
    LinkedRest(xs, s.nodes);
    var nodes' := s.nodes[q := s.nodes[q].(signaled := true)];
    var c := if next.Some? then Unpark(next.value, ok) else Load;
    StorePlaces(h.place, h.queue, h.left, s.nodes, h.abandoned, t, q);
    AbandonedMove(h.abandoned, s.calls, t, c);
    StoreQueue(s, q, t, nodes');
    StoreWalks(s.nodes, s.calls, h.left, h.place, t, q, c, nodes');
    WordMove(s.word, s.value, s.calls, h.owner, h.queue, t, c);
    NodesMove(s.nodes, s.calls, t, c);
    StoreNodes(s.nodes, s.calls[t := c], q);
    StoreNodes(s.nodes, s.calls - {t}, q);
    StoreAnswers(s, t, c, ok);
    Join(StoreNext(s, t, q, next, ok));
  }

  lemma StorePlaces(place: map<Tid, Place>, queue: seq<Tid>, left: map<Tid, seq<Tid>>, nodes: map<Tid, Node>,
      abandoned: set<Tid>, t: Tid, q: Tid)
    requires QueuePlaces(place, queue) && LeftPlaces(place, left) && NodePlaces(place, nodes, abandoned)
    requires t in left && left[t] != [] && left[t][0] == q && q !in left[t][1..] && q in nodes
    ensures QueuePlaces(place - {q}, queue)
    ensures NodePlaces(place - {q}, nodes[q := nodes[q].(signaled := true)], abandoned)
    ensures left[t][1..] != [] ==> LeftPlaces(place - {q}, left[t := left[t][1..]])
    ensures left[t][1..] == [] ==> LeftPlaces(place - {q}, left - {t})
  {
    var xs := left[t];
    assert xs == [q] + xs[1..];
    assert q in xs;
  }

  lemma StoreQueue(s: State, q: Tid, t: Tid, nodes': map<Tid, Node>)
    requires Linked(s.hist.queue, s.nodes) && QueuePlaces(s.hist.place, s.hist.queue)
    requires LeftPlaces(s.hist.place, s.hist.left)
    requires t in s.hist.left && s.hist.left[t] != [] && s.hist.left[t][0] == q && q in s.nodes
    requires nodes' == s.nodes[q := s.nodes[q].(signaled := true)]
    ensures Linked(s.hist.queue, nodes')
  {
    assert q in s.hist.left[t];
    assert q !in s.hist.queue;
    LinkedFrame(s.hist.queue, s.nodes, nodes');
  }

  lemma StoreWalks(nodes: map<Tid, Node>, calls: map<Tid, Call>, left: map<Tid, seq<Tid>>, place: map<Tid, Place>,
                   t: Tid, q: Tid, c: Call, nodes': map<Tid, Node>)
    requires WalksInv(nodes, calls, left) && LeftPlaces(place, left) && t in left && left[t] != [] && left[t][0] == q
    requires q !in left[t][1..] && q in nodes && nodes' == nodes[q := nodes[q].(signaled := true)]
    requires t in calls && Linked(left[t][1..], nodes)
    requires if left[t][1..] == [] then !Walks(c) else Walks(c) && WalkerOk(c, left[t][1..])
    ensures left[t][1..] != [] ==> WalksInv(nodes', calls[t := c], left[t := left[t][1..]])
    ensures left[t][1..] == [] ==> WalksInv(nodes', calls - {t}, left - {t})
  {
    assert q in left[t] && place[q] == On(t);
    forall w | w in left && w != t
      ensures Linked(left[w], nodes')
    {
      OneListEach(place, left, t, w, q);
      LinkedFrame(left[w], nodes, nodes');
    }
    LinkedFrame(left[t][1..], nodes, nodes');
    hide Linked;
  }

  lemma OneListEach(place: map<Tid, Place>, left: map<Tid, seq<Tid>>, t: Tid, w: Tid, q: Tid)
    requires LeftPlaces(place, left) && t in left && w in left && w != t && q in left[t]
    ensures q !in left[w]
  {
    assert q in place && place[q] == On(t);
  }

  lemma StoreNodes(nodes: map<Tid, Node>, calls: map<Tid, Call>, q: Tid)
    requires NodeCalls(nodes, calls) && q in nodes
    ensures NodeCalls(nodes[q := nodes[q].(signaled := true)], calls)
  {
  }

  lemma StoreAnswers(s: State, t: Tid, c: Call, ok: bool)
    requires AnswersInv(s.hist.answer, s.word, s.calls) && t in s.calls && Walks(s.calls[t]) && s.calls[t].ok == ok
    requires Walks(c) ==> c.ok == ok
    ensures AnswersInv(s.hist.answer, s.word, s.calls[t := c])
    ensures AnswersInv(s.hist.answer[t := ok], s.word, s.calls - {t})
  {
  }

  /** A node goes away. */
  lemma LosingNode(s: State, t: Tid)
    requires Inv(s)
    ensures Linked(s.hist.queue, s.nodes - {t})
    ensures forall calls :: WalksInv(s.nodes, calls, s.hist.left) ==> WalksInv(s.nodes - {t}, calls, s.hist.left)
  {
    hide WordInv, NodePlaces, NodeCalls, AbandonedInv, AnswersInv, QueuePlaces, LeftPlaces;
    LinkedFrame(s.hist.queue, s.nodes, s.nodes - {t});
    hide Linked;
    forall calls | WalksInv(s.nodes, calls, s.hist.left)
      ensures WalksInv(s.nodes - {t}, calls, s.hist.left)
    {
      WalksFrame(s.nodes, s.nodes - {t}, calls, s.hist.left);
    }
  }

  lemma WokenNodes(place: map<Tid, Place>, nodes: map<Tid, Node>, calls: map<Tid, Call>, abandoned: set<Tid>, t: Tid)
    requires NodePlaces(place, nodes, abandoned) && NodeCalls(nodes, calls) && t in nodes && nodes[t].signaled
    ensures NodePlaces(place, nodes - {t}, abandoned) && NodeCalls(nodes - {t}, calls[t := Load])
  {
  }

  lemma CancelNodes(place: map<Tid, Place>, nodes: map<Tid, Node>, calls: map<Tid, Call>, abandoned: set<Tid>, t: Tid)
    requires NodePlaces(place, nodes, abandoned) && NodeCalls(nodes, calls) && AbandonedInv(abandoned, calls)
    requires t in nodes
    ensures var abandoned' := if !nodes[t].signaled then abandoned + {t} else abandoned;
      && NodePlaces(place, nodes - {t}, abandoned') && NodeCalls(nodes - {t}, calls - {t})
      && AbandonedInv(abandoned', calls - {t})
  {
  }

  lemma WokenKeepsInv(s: State, t: Tid)
    requires Inv(s) && t in s.calls && s.calls[t].Waiting? && t in s.nodes && s.nodes[t].signaled
    ensures Inv(Goto(s, t, Load).(nodes := s.nodes - {t}))
  {
    LosingNode(s, t);
    WokenNodes(s.hist.place, s.nodes, s.calls, s.hist.abandoned, t);
    hide WordInv, Linked, WalksInv, QueuePlaces, LeftPlaces, NodePlaces, NodeCalls, AbandonedInv, AnswersInv;
    WalksMove(s.nodes, s.calls, s.hist.left, t, Load);
    WordMove(s.word, s.value, s.calls, s.hist.owner, s.hist.queue, t, Load);
    AbandonedMove(s.hist.abandoned, s.calls, t, Load);
    AnswersMove(s.hist.answer, s.word, s.calls, t, Load);
    Join(Goto(s, t, Load).(nodes := s.nodes - {t}));
  }

  lemma CancelKeepsInv(s: State, t: Tid)
    requires Inv(s) && t in s.calls && s.calls[t].Waiting?
    ensures Inv(CancelNext(s, t))
  {
    assert t in s.nodes;
    LosingNode(s, t);
    CancelNodes(s.hist.place, s.nodes, s.calls, s.hist.abandoned, t);
    hide WordInv, Linked, WalksInv, QueuePlaces, LeftPlaces, NodePlaces, NodeCalls, AbandonedInv, AnswersInv;
    WalksMove(s.nodes, s.calls, s.hist.left, t, Load);
    WordMove(s.word, s.value, s.calls, s.hist.owner, s.hist.queue, t, Load);
    AnswersMove(s.hist.answer, s.word, s.calls, t, Load);
    Join(CancelNext(s, t));
  }

  lemma SignalledIsUnlisted(s: State, q: Tid)
    requires Inv(s) && q in s.nodes && s.nodes[q].signaled
    ensures q !in s.hist.queue && forall w :: w in s.hist.left ==> q !in s.hist.left[w]
  {
    hide Linked, WalksInv, WordInv, AnswersInv, NodeCalls, AbandonedInv;
  }

  lemma StepKeepsInv(s: State, a: Action)
    requires Inv(s) && Enabled(s, a)
    ensures Inv(Step(s, a))
  {
    hide Inv, Dispatch, CasNext, InitNext, SwapNext, StoreNext, PushNext, CancelNext;
    match a
    case Start(t) => PlainMove(s, t, Load);
    case Cancel(t) => CancelKeepsInv(s, t);
    case Next(t, outcome) =>
      match s.calls[t]
      case Load => DispatchKeepsInv(s, t);
      case Cas => if s.word.Incomplete? { CasKeepsInv(s, t); } else { CasFails(s, t); }
      case Init => InitKeepsInv(s, t, outcome);
      case Swap(ok) => SwapKeepsInv(s, t, ok);
      case Unpark(_, _) => WalkKeepsInv(s, t, outcome);
      case ReadNext(_, _) => WalkKeepsInv(s, t, outcome);
      case Store(q, next, ok) => StoreKeepsInv(s, t, q, next, ok);
      case Push(seen) => if s.word == Running(seen) { PushKeepsInv(s, t, seen); } else { PushFails(s, t, seen); }
      case Waiting => WokenKeepsInv(s, t);
  }

  lemma InitInv()
    ensures Inv(New)
  {
  }

  lemma {:induction false} RunInv(r: seq<State>, acts: seq<Action>, i: nat)
    requires Run(r, acts) && i < |r|
    ensures Inv(r[i])
  {
    hide Inv, Step, Enabled;
    if i == 0 {
      InitInv();
    } else {
      RunInv(r, acts, i - 1);
      StepKeepsInv(r[i - 1], acts[i - 1]);
    }
  }

  // ---------------------------------------------------------------- what the cell promises

  /** Initialisers never overlap, and the word says RUNNING exactly while one is at work. */
  lemma InitialisersExclude(r: seq<State>, acts: seq<Action>, i: nat, a: Tid, b: Tid)
    requires Run(r, acts) && i < |r| && a in r[i].calls && Owns(r[i].calls[a])
    ensures r[i].word.Running?
    ensures b in r[i].calls && Owns(r[i].calls[b]) ==> a == b
  {
    RunInv(r, acts, i);
  }

  /** COMPLETE is terminal, and the value, once written, is never written again. */
  lemma ValueWrittenOnce(r: seq<State>, acts: seq<Action>, i: nat)
    requires Run(r, acts) && i < |acts|
    ensures r[i].word.Complete? ==> r[i + 1].word.Complete? && r[i].value.Some?
    ensures r[i].value.Some? ==> r[i + 1].value == r[i].value
  {
    RunInv(r, acts, i);
    assert Enabled(r[i], acts[i]) && r[i + 1] == Step(r[i], acts[i]);
    hide Linked, WalksInv, QueuePlaces, LeftPlaces, NodePlaces, NodeCalls, AbandonedInv, AnswersInv;
  }

  /** A call that returns Ok leaves a complete cell, even if other initialisers failed and reset it before. */
  lemma OkMeansComplete(r: seq<State>, acts: seq<Action>, i: nat, t: Tid)
    requires Run(r, acts) && i < |r| && t in r[i].hist.answer && r[i].hist.answer[t]
    ensures r[i].word.Complete? && r[i].value.Some?
  {
    RunInv(r, acts, i);
    hide Linked, WalksInv, QueuePlaces, LeftPlaces, NodePlaces, NodeCalls, AbandonedInv;
  }

  /** Step `j` cancels a waiter whose node is still to be signalled. */
  predicate Abandons(r: seq<State>, acts: seq<Action>, j: nat, x: Tid)
    requires |r| == |acts| + 1
  {
    j < |acts| && acts[j] == Cancel(x) && x in r[j].nodes && !r[j].nodes[x].signaled
  }

  /** `abandoned` is what its name says. */
  lemma {:induction false} AbandonedExactly(r: seq<State>, acts: seq<Action>, i: nat, x: Tid)
    requires Run(r, acts) && i < |r|
    ensures x in r[i].hist.abandoned <==> exists j: nat :: j < i && Abandons(r, acts, j, x)
  {
    if i > 0 {
      AbandonedExactly(r, acts, i - 1, x);
      assert Enabled(r[i - 1], acts[i - 1]) && r[i] == Step(r[i - 1], acts[i - 1]);
      StepAbandons(r[i - 1], acts[i - 1], x);
      hide Run, Step, Enabled;
      assert Abandons(r, acts, i - 1, x) <==>
        acts[i - 1] == Cancel(x) && x in r[i - 1].nodes && !r[i - 1].nodes[x].signaled;
    }
  }

  lemma StepAbandons(s: State, a: Action, x: Tid)
    requires Enabled(s, a)
    ensures x in Step(s, a).hist.abandoned <==>
      x in s.hist.abandoned || (a == Cancel(x) && x in s.nodes && !s.nodes[x].signaled)
  {
  }

  /** The node a walker stands at. */
  function Target(c: Call): Option<Tid> {
    match c
    case Unpark(q, _) => Some(q)
    case ReadNext(q, _) => Some(q)
    case Store(q, _, _) => Some(q)
    case _ => None
  }

  lemma TargetIsListed(s: State, t: Tid)
    requires Inv(s) && t in s.calls && Walks(s.calls[t])
    ensures var q := Target(s.calls[t]).value; (q in s.nodes && !s.nodes[q].signaled) || q in s.hist.abandoned
    ensures Target(s.calls[t]).value in s.hist.abandoned ==> Target(s.calls[t]).value !in s.nodes
  {
    WalkerFacts(s, t);
    assert Target(s.calls[t]).value in s.hist.left[t];
    hide Linked, WalksInv, WordInv, QueuePlaces, NodeCalls, AnswersInv;
  }

  /**
   The drop of the queue finds RUNNING. A step touches only nodes that are there and not yet signalled, if and only if
   the node that a walker stands at was not abandoned: its waiter was not cancelled before it was signalled.
   */
  lemma NodesAreSafe(r: seq<State>, acts: seq<Action>, i: nat, t: Tid)
    requires Run(r, acts) && i < |r| && t in r[i].calls
    ensures Safe(r[i], t) <==>
      !(Walks(r[i].calls[t]) && exists j: nat :: j < i && Abandons(r, acts, j, Target(r[i].calls[t]).value))
    ensures r[i].calls[t].Swap? ==> r[i].word.Running?
  {
    RunInv(r, acts, i);
    if Walks(r[i].calls[t]) {
      TargetIsListed(r[i], t);
      AbandonedExactly(r, acts, i, Target(r[i].calls[t]).value);
    }
    hide Run, Linked, WalksInv, QueuePlaces, LeftPlaces, NodePlaces, AbandonedInv, AnswersInv;
  }

  /** Where no waiter is cancelled before it is signalled, every step is safe. */
  lemma UncancelledIsSafe(r: seq<State>, acts: seq<Action>, i: nat, t: Tid)
    requires Run(r, acts) && i < |r| && forall j: nat, x :: j < i ==> !Abandons(r, acts, j, x)
    ensures Safe(r[i], t)
  {
    if t in r[i].calls { NodesAreSafe(r, acts, i, t); }
  }

  ghost predicate Listed(s: State, x: Tid) {
    || (x in s.hist.queue && s.word.Running?)
    || (exists w :: w in s.hist.left && w in s.calls && Walks(s.calls[w]) && x in s.hist.left[w])
  }

  /**
   Every waiter that is not signalled is in the queue of the running initialiser, or on the list of one walker. So is
   every abandoned node, from the cancel on: the walker of its list is bound to come to it.
   */
  lemma WaitersAreListed(r: seq<State>, acts: seq<Action>, i: nat, x: Tid)
    requires Run(r, acts) && i < |r|
    ensures x in r[i].calls && r[i].calls[x].Waiting? ==> x in r[i].nodes && (r[i].nodes[x].signaled || Listed(r[i], x))
    ensures x in r[i].hist.abandoned ==> x !in r[i].nodes && x !in r[i].calls && Listed(r[i], x)
  {
    RunInv(r, acts, i);
    if x in r[i].hist.place { PlacedIsListed(r[i], x); }
    hide Run, Linked, WalksInv, WordInv, QueuePlaces, LeftPlaces, AnswersInv, Listed;
  }

  lemma PlacedIsListed(s: State, x: Tid)
    requires Inv(s) && x in s.hist.place
    ensures Listed(s, x)
  {
    hide Linked, NodePlaces, NodeCalls, AbandonedInv, AnswersInv;
    if s.hist.place[x].On? {
      var w := s.hist.place[x].walker;
      assert w in s.hist.left && w in s.calls && Walks(s.calls[w]) && x in s.hist.left[w];
    }
  }

  /**
   A walker can signal the waiter it stands at exactly when that one was not abandoned. It signals each waiter of its
   list once: the waiter leaves every list as its flag is stored.
   */
  lemma SignalledOnce(s: State, t: Tid, outcome: Option<Value>)
    requires Inv(s) && t in s.calls && s.calls[t].Store?
    ensures Enabled(s, Next(t, outcome)) <==> s.calls[t].q !in s.hist.abandoned
    ensures Enabled(s, Next(t, outcome)) ==>
      var q := s.calls[t].q;
      var s' := CallNext(s, t, outcome);
      && !s.nodes[q].signaled && q in s'.nodes && s'.nodes[q].signaled
      && q !in s'.hist.queue && (forall w :: w in s'.hist.left ==> q !in s'.hist.left[w])
      && (forall x :: x != q && x in s.nodes ==> x in s'.nodes && s'.nodes[x] == s.nodes[x])
  {
    hide Inv;
    TargetIsListed(s, t);
    if Enabled(s, Next(t, outcome)) {
      var q := s.calls[t].q;
      StoreKeepsInv(s, t, q, s.calls[t].next, s.calls[t].ok);
      SignalledIsUnlisted(CallNext(s, t, outcome), q);
    }
  }

  // ---------------------------------------------------------------- a cancelled waiter

  ghost predicate Reached(s: State) {
    exists r: seq<State>, acts: seq<Action> :: Run(r, acts) && r[|acts|] == s
  }

  lemma ReachStep(s: State, a: Action)
    requires Reached(s) && Enabled(s, a)
    ensures Reached(Step(s, a))
  {
    hide Step, Enabled;
    var r: seq<State>, acts: seq<Action> :| Run(r, acts) && r[|acts|] == s;
    var r', acts' := r + [Step(s, a)], acts + [a];
    assert Run(r', acts') && r'[|acts'|] == Step(s, a);
  }

  /** A waiter joins the queue of a running initialiser. */
  lemma ReachWaiting() returns (s: State)
    ensures Reached(s) && s.word == Running(Some(2)) && s.calls == map[1 := Init, 2 := Waiting]
    ensures s.nodes == map[2 := Node(None, false)] && s.hist.queue == [2] && s.hist.abandoned == {}
  {
    var r, acts: seq<Action> := [New], [];
    assert Run(r, acts) && r[|acts|] == New;
    ReachStep(New, Start(1));
    var s1 := Step(New, Start(1));
    ReachStep(s1, Next(1, None));
    var s2 := Step(s1, Next(1, None));
    ReachStep(s2, Next(1, None));
    var s3 := Step(s2, Next(1, None));
    assert s3.calls == map[1 := Init];
    ReachStep(s3, Start(2));
    var s4 := Step(s3, Start(2));
    ReachStep(s4, Next(2, None));
    var s5 := Step(s4, Next(2, None));
    ReachStep(s5, Next(2, None));
    s := Step(s5, Next(2, None));
  }

  /** It is cancelled, the initialiser ends, and the walk starts at a node that is gone. */
  lemma CancelledWaiterIsTouched()
    ensures exists s :: Reached(s) && 1 in s.calls && s.calls[1].Unpark? && !Safe(s, 1)
  {
    var s := ReachWaiting();
    ReachStep(s, Cancel(2));
    var s1 := Step(s, Cancel(2));
    assert s1.calls == map[1 := Init] && s1.nodes == map[];
    ReachStep(s1, Next(1, None));
    var s2 := Step(s1, Next(1, None));
    ReachStep(s2, Next(1, None));
    var s3 := Step(s2, Next(1, None));
    assert s3.calls[1] == Unpark(2, false) && !Safe(s3, 1);
  }
}
