/** No timer is ever lost: what every step of the shared timer list keeps. */
module TimerProof {
  import opened Common
  import opened TimerSteps

  // ---------------------------------------------------------------- invariant

  /** The scheduler is between taking the list's entry off the heap and deciding about the list again. */
  predicate Examines(x: Scheduler, l: Lid) {
    match x
    case Popped(_, k, _) => k == l
    case PopIf(_, k, _) => k == l
    case PeekList(_, k, _) => k == l
    case Reinstall(_, k, _, _) => k == l
    case WantMap(_, k, _) => k == l
    case Recheck(_, k, _) => k == l
    case _ => false
  }

  /** The scheduler has won the right to install the list. */
  predicate Installs(x: Scheduler, l: Lid) {
    match x
    case PeekAgain(_, k, _) => k == l
    case PushBack(_, k, _, _) => k == l
    case _ => false
  }

  predicate PoppedHere(x: Scheduler, l: Lid) { x.Popped? && x.l == l }

  /** The call that pushed the first node has still to see that it is first, or to install the list. */
  predicate Due(adders: map<Nid, Adder>, n: Nid, l: Lid, stub: Nid) {
    && n in adders
    && match adders[n]
       case Link(k, prev, _) => k == l && prev == stub
       case ReadTail(k, prev, _) => k == l && prev == stub
       case Install(k, _) => k == l
       case Created(k) => k == l
       case _ => false
  }

  predicate PushesHeap(adders: map<Nid, Adder>, n: Nid, l: Lid) {
    n in adders && adders[n].PushHeap? && adders[n].l == l
  }

  /** A list that holds timers has someone answerable for it. */
  predicate Covered(x: TList, l: Lid, adders: map<Nid, Adder>, sched: Scheduler) {
    x.pending != [] ==> x.owner != NoOne || Examines(sched, l) || Due(adders, x.pending[0], l, x.stub)
  }

  predicate ListOk(x: TList, l: Lid, adders: map<Nid, Adder>, sched: Scheduler) {
    && (x.owner.ByAdder? ==> PushesHeap(adders, x.owner.n, l))
    && (x.owner == ByScheduler <==> Installs(sched, l))
    && (if PoppedHere(sched, l) then x.owner == NoOne && x.inUse > 0 else (x.inUse == 0 <==> x.owner == NoOne))
    && (Installs(sched, l) ==> x.pending != [])
    && (sched.Reinstall? && sched.l == l ==> x.pending != [])
    && Covered(x, l, adders, sched)
  }

  predicate AdderOk(a: Adder, n: Nid, lists: map<Lid, TList>) {
    match a
    case Swap(l, _) => l in lists
    case Link(l, _, _) => l in lists
    case ReadTail(l, _, _) => l in lists
    case Install(l, _) => l in lists
    case PushHeap(l, _) => l in lists && lists[l].owner == ByAdder(n)
    case Created(l) => l in lists
    case _ => true
  }

  ghost predicate HasEntry(heap: seq<HeapEntry>, l: Lid) {
    exists i :: 0 <= i < |heap| && heap[i].lid == l
  }

  /** One heap entry per list, and exactly for the lists marked so. */
  ghost predicate HeapInv(heap: seq<HeapEntry>, lists: map<Lid, TList>) {
    && (forall i, j :: 0 <= i < j < |heap| ==> heap[i].lid != heap[j].lid)
    && (forall i :: 0 <= i < |heap| ==> heap[i].lid in lists && lists[heap[i].lid].owner == InHeap)
    && (forall l :: l in lists && lists[l].owner == InHeap ==> HasEntry(heap, l))
  }

  predicate SchedRef(x: Scheduler, lists: map<Lid, TList>) {
    x.Idle? || x.Peek? || (!x.Panicked? && x.l in lists)
  }

  ghost predicate RefsInv(s: State) {
    && SchedRef(s.sched, s.shared.lists)
    && (forall i :: i in s.shared.byInterval ==> s.shared.byInterval[i] in s.shared.lists)
  }

  /** The nodes of one list: distinct, and known to be there. */
  ghost predicate PendingOk(pending: seq<Nid>, l: Lid, fate: map<Nid, Fate>) {
    && (forall i :: 0 <= i < |pending| ==> pending[i] in fate && fate[pending[i]] == Pending(l))
    && (forall i, j :: 0 <= i < j < |pending| ==> pending[i] != pending[j])
  }

  /** Pushed nodes: where they are. */
  ghost predicate FateInv(lists: map<Lid, TList>, log: Log) {
    && (forall l :: l in lists ==> PendingOk(lists[l].pending, l, log.fate))
    && (forall n :: n in log.fate ==> n in log.timer && FateOk(n, log.fate[n], lists, log.timer[n]))
  }

  predicate FateOk(n: Nid, f: Fate, lists: map<Lid, TList>, t: Timer) {
    match f
    case Pending(l) => l in lists && n in lists[l].pending
    case Fired(now) => t.time <= now
    case Removed => true
  }

  /** Whether the call has pushed its node. */
  predicate HasPushed(a: Adder) {
    !(a.ReadMap? || a.WantLock? || a.Locked? || a.Swap?)
  }

  ghost predicate PushedInv(adders: map<Nid, Adder>, log: Log) {
    && (forall n :: n in adders ==> n in log.timer && (n in log.fate <==> HasPushed(adders[n])))
    && (forall n :: n in log.fate ==> n in log.linked || (n in adders && adders[n].Link?))
    && (forall n :: n in log.timer ==> n in log.fate || n in adders)
  }

  ghost predicate Inv(s: State) {
    && (forall l :: l in s.shared.lists ==> ListOk(s.shared.lists[l], l, s.adders, s.sched))
    && (forall n :: n in s.adders ==> AdderOk(s.adders[n], n, s.shared.lists))
    && HeapInv(s.shared.heap, s.shared.lists)
    && RefsInv(s)
    && FateInv(s.shared.lists, s.log)
    && PushedInv(s.adders, s.log)
  }

  // ---------------------------------------------------------------- frames

  predicate Targets(a: Adder, l: Lid) {
    match a
    case Link(k, _, _) => k == l
    case ReadTail(k, _, _) => k == l
    case Install(k, _) => k == l
    case PushHeap(k, _) => k == l
    case Created(k) => k == l
    case _ => false
  }

  ghost predicate ListsInv(lists: map<Lid, TList>, adders: map<Nid, Adder>, sched: Scheduler) {
    forall l :: l in lists ==> ListOk(lists[l], l, adders, sched)
  }

  ghost predicate AddersInv(adders: map<Nid, Adder>, lists: map<Lid, TList>) {
    forall n :: n in adders ==> AdderOk(adders[n], n, lists)
  }

  lemma Split(s: State)
    requires Inv(s)
    ensures ListsInv(s.shared.lists, s.adders, s.sched) && AddersInv(s.adders, s.shared.lists)
    ensures HeapInv(s.shared.heap, s.shared.lists) && RefsInv(s)
    ensures FateInv(s.shared.lists, s.log) && PushedInv(s.adders, s.log)
  {
    hide ListOk, AdderOk, HeapInv, RefsInv, FateInv, PushedInv;
  }

  lemma Join(s: State)
    requires ListsInv(s.shared.lists, s.adders, s.sched) && AddersInv(s.adders, s.shared.lists)
    requires HeapInv(s.shared.heap, s.shared.lists) && RefsInv(s)
    requires FateInv(s.shared.lists, s.log) && PushedInv(s.adders, s.log)
    ensures Inv(s)
  {
    hide ListOk, AdderOk, HeapInv, RefsInv, FateInv, PushedInv;
  }

  /** A call of another list does not matter to this one. */
  lemma ListFrame(x: TList, l: Lid, adders: map<Nid, Adder>, adders': map<Nid, Adder>, sched: Scheduler, n: Nid)
    requires ListOk(x, l, adders, sched)
    requires forall m :: m != n ==> (m in adders' <==> m in adders) && (m in adders ==> adders'[m] == adders[m])
    requires n in adders ==> !Targets(adders[n], l)
    ensures ListOk(x, l, adders', sched)
  {
  }

  /** A step of call `n` that changes at most list `l`. */
  lemma AdderMoves(lists: map<Lid, TList>, adders: map<Nid, Adder>, sched: Scheduler, n: Nid, l: Lid, x: TList,
      adders': map<Nid, Adder>)
    requires ListsInv(lists, adders, sched) && AddersInv(adders, lists) && l in lists
    requires n in adders ==> forall k :: k != l ==> !Targets(adders[n], k)
    requires adders' == adders - {n} || (n in adders' && adders' == adders[n := adders'[n]])
    requires ListOk(x, l, adders', sched)
    requires n in adders' ==> AdderOk(adders'[n], n, lists[l := x])
    requires x.owner == lists[l].owner || lists[l].owner == NoOne || lists[l].owner == ByAdder(n)
    ensures ListsInv(lists[l := x], adders', sched) && AddersInv(adders', lists[l := x])
  {
    hide ListOk;
    forall k | k in lists && k != l
      ensures ListOk(lists[k], k, adders', sched)
    {
      ListFrame(lists[k], k, adders, adders', sched, n);
    }
    forall m | m in adders' && m != n
      ensures AdderOk(adders'[m], m, lists[l := x])
    {
      assert AdderOk(adders[m], m, lists);
    }
  }

  /** A step of call `n` while it has no node in any list. */
  lemma AdderIdles(lists: map<Lid, TList>, adders: map<Nid, Adder>, sched: Scheduler, n: Nid, adders': map<Nid, Adder>)
    requires ListsInv(lists, adders, sched) && AddersInv(adders, lists)
    requires n in adders ==> forall k :: !Targets(adders[n], k)
    requires adders' == adders - {n} || (n in adders' && adders' == adders[n := adders'[n]])
    requires n in adders' ==> AdderOk(adders'[n], n, lists)
    ensures ListsInv(lists, adders', sched) && AddersInv(adders', lists)
  {
    hide ListOk;
    forall k | k in lists
      ensures ListOk(lists[k], k, adders', sched)
    {
      ListFrame(lists[k], k, adders, adders', sched, n);
    }
  }

  lemma PushedMove(adders: map<Nid, Adder>, log: Log, n: Nid, a: Adder)
    requires PushedInv(adders, log) && n in adders && !adders[n].Link? && HasPushed(a) == HasPushed(adders[n])
    ensures PushedInv(adders[n := a], log)
    ensures HasPushed(a) ==> PushedInv(adders - {n}, log)
  {
  }

  lemma HeapSame(heap: seq<HeapEntry>, lists: map<Lid, TList>, l: Lid, x: TList)
    requires HeapInv(heap, lists) && (l in lists ==> (lists[l].owner == InHeap <==> x.owner == InHeap))
    requires l !in lists ==> x.owner != InHeap
    ensures HeapInv(heap, lists[l := x])
  {
    forall k | k in lists[l := x] && lists[l := x][k].owner == InHeap
      ensures HasEntry(heap, k)
    {
      assert k in lists && lists[k].owner == InHeap;
    }
  }

  lemma HeapPush(heap: seq<HeapEntry>, lists: map<Lid, TList>, e: HeapEntry, x: TList)
    requires HeapInv(heap, lists) && e.lid in lists && lists[e.lid].owner != InHeap && x.owner == InHeap
    ensures HeapInv(heap + [e], lists[e.lid := x])
  {
    var heap', lists' := heap + [e], lists[e.lid := x];
    assert heap'[|heap|].lid == e.lid;
    forall k | k in lists' && lists'[k].owner == InHeap
      ensures HasEntry(heap', k)
    {
      if k != e.lid {
        assert HasEntry(heap, k);
        var i :| 0 <= i < |heap| && heap[i].lid == k;
        assert heap'[i].lid == k;
      }
    }
  }

  lemma HeapPop(heap: seq<HeapEntry>, lists: map<Lid, TList>, i: int, x: TList)
    requires HeapInv(heap, lists) && 0 <= i < |heap| && x.owner == NoOne
    ensures heap[i].lid in lists && lists[heap[i].lid].owner == InHeap
    ensures HeapInv(Omit(heap, i), lists[heap[i].lid := x])
  {
    var heap', lists' := Omit(heap, i), lists[heap[i].lid := x];
    forall k | k in lists' && lists'[k].owner == InHeap
      ensures HasEntry(heap', k)
    {
      assert HasEntry(heap, k);
      var j :| 0 <= j < |heap| && heap[j].lid == k;
      assert heap'[if j < i then j else j - 1].lid == k;
    }
  }

  /** One node of list `l` changes its fate, and the list changes with it. */
  lemma FateChange(lists: map<Lid, TList>, log: Log, log': Log, l: Lid, x: TList, n: Nid, f: Fate)
    requires FateInv(lists, log) && n in log.timer
    requires log'.timer == log.timer && log'.fate == log.fate[n := f]
    requires n in log.fate ==> log.fate[n] == Pending(l)
    requires PendingOk(x.pending, l, log'.fate) && FateOk(n, f, lists[l := x], log.timer[n])
    requires l in lists ==> forall m :: m in lists[l].pending && m != n ==> m in x.pending
    ensures FateInv(lists[l := x], log')
  {
    forall k | k in lists && k != l
      ensures PendingOk(lists[k].pending, k, log'.fate)
    {
      assert PendingOk(lists[k].pending, k, log.fate);
    }
    forall m | m in log'.fate && m != n
      ensures FateOk(m, log'.fate[m], lists[l := x], log'.timer[m])
    {
      assert FateOk(m, log.fate[m], lists, log.timer[m]);
    }
  }

  lemma FateSame(lists: map<Lid, TList>, log: Log, l: Lid, x: TList)
    requires FateInv(lists, log) && l in lists && x.pending == lists[l].pending
    ensures FateInv(lists[l := x], log)
  {
    hide PendingOk;
    forall n | n in log.fate
      ensures FateOk(n, log.fate[n], lists[l := x], log.timer[n])
    {
      assert FateOk(n, log.fate[n], lists, log.timer[n]);
    }
  }

  // ---------------------------------------------------------------- add_timer

  lemma StartAddKeepsInv(s: State, n: Nid, timer: Timer)
    requires Inv(s) && Enabled(s, StartAdd(n, timer))
    ensures Inv(Step(s, StartAdd(n, timer)))
  {
    hide Inv, ListsInv, AddersInv, HeapInv;
    Split(s);
    AdderIdles(s.shared.lists, s.adders, s.sched, n, s.adders[n := ReadMap]);
    Join(Step(s, StartAdd(n, timer)));
  }

  /** Steps of a call without a node in any list. */
  lemma IdleMoveKeepsInv(s: State, n: Nid, a: Adder, k: Lock)
    requires Inv(s) && n in s.adders && !HasPushed(s.adders[n]) && !HasPushed(a) && AdderOk(a, n, s.shared.lists)
    ensures Inv(SetLock(Goto(s, n, a), k)) && Inv(Goto(s, n, a))
  {
    hide Inv, ListsInv, AddersInv, HeapInv, FateInv, PushedInv;
    Split(s);
    AdderIdles(s.shared.lists, s.adders, s.sched, n, s.adders[n := a]);
    PushedMove(s.adders, s.log, n, a);
    Join(Goto(s, n, a));
    Join(SetLock(Goto(s, n, a), k));
  }

  lemma ReleaseKeepsInv(s: State, n: Nid)
    requires Inv(s) && n in s.adders && s.adders[n].Release?
    ensures Inv(SetLock(End(s, n), Free))
  {
    hide Inv, ListsInv, AddersInv, HeapInv, FateInv, PushedInv;
    Split(s);
    AdderIdles(s.shared.lists, s.adders, s.sched, n, s.adders - {n});
    PushedMove(s.adders, s.log, n, Release);
    Join(SetLock(End(s, n), Free));
  }

  lemma FindKeepsInv(s: State, n: Nid, interval: nat, locked: bool, otherwise: State)
    requires Inv(s) && n in s.adders && !HasPushed(s.adders[n]) && Inv(otherwise)
    ensures Inv(FindList(s, n, interval, locked, otherwise))
  {
    hide Inv, Goto;
    if interval in s.shared.byInterval {
      var l := s.shared.byInterval[interval];
      assert l in s.shared.lists by { Split(s); }
      IdleMoveKeepsInv(s, n, Swap(l, locked), Free);
    }
  }

  lemma CreateKeepsInv(s: State, n: Nid, interval: nat, l: Lid, stub: Nid)
    requires Inv(s) && n in s.adders && !HasPushed(s.adders[n]) && l !in s.shared.lists
    ensures Inv(CreateList(s, n, interval, l, stub))
  {
    hide Inv, HeapInv, ListsInv, AddersInv, FateInv, PushedInv;
    Split(s);
    var x := TList(stub, [n], 0, NoOne);
    CreateLists(s.shared.lists, s.adders, s.sched, n, l, x);
    HeapSame(s.shared.heap, s.shared.lists, l, x);
    CreateFate(s.shared.lists, s.adders, s.log, n, l, x);
    Join(CreateList(s, n, interval, l, stub));
  }

  lemma CreateLists(lists: map<Lid, TList>, adders: map<Nid, Adder>, sched: Scheduler, n: Nid, l: Lid, x: TList)
    requires ListsInv(lists, adders, sched) && AddersInv(adders, lists) && SchedRef(sched, lists)
    requires n in adders && !HasPushed(adders[n]) && l !in lists && x == TList(x.stub, [n], 0, NoOne)
    ensures ListsInv(lists[l := x], adders[n := Created(l)], sched) && AddersInv(adders[n := Created(l)], lists[l := x])
  {
    hide ListOk;
    assert ListOk(x, l, adders[n := Created(l)], sched) by { NewListOk(x, l, adders[n := Created(l)], sched, n); }
    forall k | k in lists
      ensures ListOk(lists[k], k, adders[n := Created(l)], sched)
    {
      ListFrame(lists[k], k, adders, adders[n := Created(l)], sched, n);
    }
  }

  lemma NewListOk(x: TList, l: Lid, adders: map<Nid, Adder>, sched: Scheduler, n: Nid)
    requires x == TList(x.stub, [n], 0, NoOne) && n in adders && adders[n] == Created(l)
    requires !(sched.Idle? || sched.Peek? || sched.Panicked?) ==> sched.l != l
    ensures ListOk(x, l, adders, sched)
  {
  }

  lemma CreateFate(lists: map<Lid, TList>, adders: map<Nid, Adder>, log: Log, n: Nid, l: Lid, x: TList)
    requires FateInv(lists, log) && PushedInv(adders, log) && n in adders && !HasPushed(adders[n]) && l !in lists
    requires x.pending == [n]
    ensures var log' := log.(linked := log.linked + {n}, fate := log.fate[n := Pending(l)]);
      FateInv(lists[l := x], log') && PushedInv(adders[n := Created(l)], log')
  {
    hide FateInv;
    var log' := log.(linked := log.linked + {n}, fate := log.fate[n := Pending(l)]);
    FateChange(lists, log, log', l, x, n, Pending(l));
  }

  /** Steps of a call on its own list. */
  lemma OwnMoveKeepsInv(s: State, n: Nid, l: Lid, x: TList, adders: map<Nid, Adder>, heap: seq<HeapEntry>, log: Log)
    requires Inv(s) && n in s.adders && l in s.shared.lists
    requires forall k :: k != l ==> !Targets(s.adders[n], k)
    requires adders == s.adders - {n} || (n in adders && adders == s.adders[n := adders[n]])
    requires ListOk(x, l, adders, s.sched)
    requires n in adders ==> AdderOk(adders[n], n, s.shared.lists[l := x])
    requires x.owner == s.shared.lists[l].owner || s.shared.lists[l].owner == NoOne
        || s.shared.lists[l].owner == ByAdder(n)
    requires HeapInv(heap, s.shared.lists[l := x])
    requires FateInv(s.shared.lists[l := x], log) && PushedInv(adders, log)
    ensures Inv(s.(shared := s.shared.(lists := s.shared.lists[l := x], heap := heap), adders := adders, log := log))
  {
    hide Inv, ListOk, AdderOk, HeapInv, ListsInv, AddersInv, FateInv, PushedInv;
    Split(s);
    AdderMoves(s.shared.lists, s.adders, s.sched, n, l, x, adders);
    Join(s.(shared := s.shared.(lists := s.shared.lists[l := x], heap := heap), adders := adders, log := log));
  }

  lemma OneList(s: State, l: Lid)
    requires Inv(s) && l in s.shared.lists
    ensures ListOk(s.shared.lists[l], l, s.adders, s.sched)
    ensures s.shared.lists[l := s.shared.lists[l]] == s.shared.lists
  {
    hide ListOk;
  }

  lemma SwapKeepsInv(s: State, n: Nid, l: Lid, locked: bool)
    requires Inv(s) && n in s.adders && s.adders[n] == Swap(l, locked) && l in s.shared.lists
    ensures Inv(SwapNext(s, n, l, locked))
  {
    hide Inv, HeapInv, FateInv, PushedInv;
    Split(s);
    OneList(s, l);
    var x := s.shared.lists[l];
    var x' := x.(pending := x.pending + [n]);
    var a := Link(l, Last(x), locked);
    var log := s.log.(fate := s.log.fate[n := Pending(l)]);
    HeapSame(s.shared.heap, s.shared.lists, l, x');
    SwapFate(s.shared.lists, s.adders, s.log, n, l, a);
    OwnMoveKeepsInv(s, n, l, x', s.adders[n := a], s.shared.heap, log);
  }

  lemma SwapFate(lists: map<Lid, TList>, adders: map<Nid, Adder>, log: Log, n: Nid, l: Lid, a: Adder)
    requires FateInv(lists, log) && PushedInv(adders, log) && n in adders && !HasPushed(adders[n]) && l in lists
    requires a.Link?
    ensures var log' := log.(fate := log.fate[n := Pending(l)]);
      && FateInv(lists[l := lists[l].(pending := lists[l].pending + [n])], log')
      && PushedInv(adders[n := a], log')
  {
    var x' := lists[l].(pending := lists[l].pending + [n]);
    var log' := log.(fate := log.fate[n := Pending(l)]);
    assert n !in log.fate && n in log.timer;
    assert PushedInv(adders[n := a], log') by { hide FateInv; }
    hide PushedInv;
    PendingAppend(lists[l].pending, l, log.fate, n);
    assert x'.pending[|lists[l].pending|] == n;
    FateChange(lists, log, log', l, x', n, Pending(l));
  }

  lemma PendingAppend(pending: seq<Nid>, l: Lid, fate: map<Nid, Fate>, n: Nid)
    requires PendingOk(pending, l, fate) && n !in fate
    ensures PendingOk(pending + [n], l, fate[n := Pending(l)])
  {
  }

  lemma PendingWithout(pending: seq<Nid>, l: Lid, fate: map<Nid, Fate>, k: int, f: Fate)
    requires PendingOk(pending, l, fate) && 0 <= k < |pending|
    ensures PendingOk(Omit(pending, k), l, fate[pending[k] := f])
    ensures forall m :: m in pending && m != pending[k] ==> m in Omit(pending, k)
  {
    forall m | m in pending && m != pending[k]
      ensures m in Omit(pending, k)
    {
      var i :| 0 <= i < |pending| && pending[i] == m;
      assert Omit(pending, k)[if i < k then i else i - 1] == m;
    }
  }

  lemma LinkKeepsInv(s: State, n: Nid, l: Lid, prev: Nid, locked: bool)
    requires Inv(s) && n in s.adders && s.adders[n] == Link(l, prev, locked) && l in s.shared.lists
    ensures Inv(Goto(s, n, ReadTail(l, prev, locked)).(log := s.log.(linked := s.log.linked + {n})))
  {
    hide Inv, HeapInv;
    Split(s);
    OneList(s, l);
    OwnMoveKeepsInv(s, n, l, s.shared.lists[l], s.adders[n := ReadTail(l, prev, locked)], s.shared.heap,
                    s.log.(linked := s.log.linked + {n}));
  }

  lemma ReadTailKeepsInv(s: State, n: Nid, l: Lid, prev: Nid, locked: bool)
    requires Inv(s) && n in s.adders && s.adders[n] == ReadTail(l, prev, locked) && l in s.shared.lists
    ensures s.shared.lists[l].stub == prev ==> Inv(Goto(s, n, Install(l, locked)))
    ensures s.shared.lists[l].stub != prev ==> Inv(Return(s, n, locked))
  {
    hide Inv, HeapInv, FateInv, PushedInv;
    Split(s);
    OneList(s, l);
    var x := s.shared.lists[l];
    PushedMove(s.adders, s.log, n, Install(l, locked));
    PushedMove(s.adders, s.log, n, Release);
    var adders := if x.stub == prev then s.adders[n := Install(l, locked)] else Return(s, n, locked).adders;
    OwnMoveKeepsInv(s, n, l, x, adders, s.shared.heap, s.log);
  }

  lemma InstallKeepsInv(s: State, n: Nid, l: Lid, locked: bool)
    requires Inv(s) && n in s.adders && s.adders[n] == Install(l, locked) && l in s.shared.lists
    ensures Inv(InstallNext(s, n, l, locked))
  {
    hide Inv, HeapInv, FateInv, PushedInv;
    Split(s);
    OneList(s, l);
    var s' := InstallNext(s, n, l, locked);
    var x' := s'.shared.lists[l];
    PushedMove(s.adders, s.log, n, PushHeap(l, locked));
    PushedMove(s.adders, s.log, n, Release);
    HeapSame(s.shared.heap, s.shared.lists, l, x');
    FateSame(s.shared.lists, s.log, l, x');
    OwnMoveKeepsInv(s, n, l, x', s'.adders, s.shared.heap, s.log);
  }

  lemma PushHeapKeepsInv(s: State, n: Nid, l: Lid, locked: bool)
    requires Inv(s) && n in s.adders && s.adders[n] == PushHeap(l, locked) && l in s.shared.lists && n in s.log.timer
    ensures Inv(PushHeapNext(s, n, l, locked))
  {
    hide Inv, HeapInv, FateInv, PushedInv;
    Split(s);
    OneList(s, l);
    var s' := PushHeapNext(s, n, l, locked);
    var x' := s'.shared.lists[l];
    var t := s.log.timer[n];
    assert AdderOk(s.adders[n], n, s.shared.lists);
    PushedMove(s.adders, s.log, n, Release);
    HeapPush(s.shared.heap, s.shared.lists, HeapEntry(t.time, l, t.interval), x');
    FateSame(s.shared.lists, s.log, l, x');
    OwnMoveKeepsInv(s, n, l, x', s'.adders, s'.shared.heap, s.log);
  }

  lemma LockIrrelevant(s: State, k: Lock)
    requires Inv(s)
    ensures Inv(SetLock(s, k))
  {
    hide ListOk, AdderOk, HeapInv, FateInv, PushedInv;
  }

  lemma CreatedKeepsInv(s: State, n: Nid, l: Lid)
    requires Inv(s) && n in s.adders && s.adders[n] == Created(l)
    ensures Inv(SetLock(Goto(s, n, Install(l, false)), Free))
  {
    hide Inv, HeapInv, FateInv, PushedInv, SetLock;
    Split(s);
    assert AdderOk(s.adders[n], n, s.shared.lists);
    OneList(s, l);
    PushedMove(s.adders, s.log, n, Install(l, false));
    OwnMoveKeepsInv(s, n, l, s.shared.lists[l], s.adders[n := Install(l, false)], s.shared.heap, s.log);
    LockIrrelevant(Goto(s, n, Install(l, false)), Free);
  }

  lemma AdderKeepsInv(s: State, n: Nid, l: Lid, stub: Nid)
    requires Inv(s) && AdderEnabled(s, n, l, stub)
    ensures Inv(AdderNext(s, n, l, stub))
  {
    hide Inv, SetLock, Goto, End, Return, FindList, CreateList, SwapNext, InstallNext, PushHeapNext, AdderOk;
    var interval := s.log.timer[n].interval;
    match s.adders[n]
    case ReadMap =>
      NoListYet(s, n, WantLock);
      IdleMoveKeepsInv(s, n, WantLock, Free);
      FindKeepsInv(s, n, interval, false, Goto(s, n, WantLock));
    case WantLock =>
      NoListYet(s, n, Locked);
      IdleMoveKeepsInv(s, n, Locked, AdderHas(n));
    case Locked =>
      CreateKeepsInv(s, n, interval, l, stub);
      FindKeepsInv(s, n, interval, true, CreateList(s, n, interval, l, stub));
    case Swap(k, locked) => SwapKeepsInv(s, n, k, locked);
    case Link(k, prev, locked) => LinkKeepsInv(s, n, k, prev, locked);
    case ReadTail(k, prev, locked) => ReadTailKeepsInv(s, n, k, prev, locked);
    case Install(k, locked) => InstallKeepsInv(s, n, k, locked);
    case PushHeap(k, locked) => PushHeapKeepsInv(s, n, k, locked);
    case Created(k) => CreatedKeepsInv(s, n, k);
    case Release => ReleaseKeepsInv(s, n);
  }

  lemma NoListYet(s: State, n: Nid, a: Adder)
    requires a.WantLock? || a.Locked?
    ensures AdderOk(a, n, s.shared.lists)
  {
  }

  // ---------------------------------------------------------------- schedule_timer

  /** What the scheduler may do to the lists it is not looking at: nothing. */
  predicate Elsewhere(x: Scheduler, l: Lid) {
    x.Idle? || x.Peek? || (!x.Panicked? && x.l != l)
  }

  lemma SchedFrame(x: TList, l: Lid, adders: map<Nid, Adder>, sched: Scheduler, sched': Scheduler)
    requires ListOk(x, l, adders, sched) && Elsewhere(sched, l) && Elsewhere(sched', l)
    ensures ListOk(x, l, adders, sched')
  {
  }

  /** A step of the scheduler on list `l`. */
  lemma SchedMoves(s: State, l: Lid, x: TList, sched: Scheduler, heap: seq<HeapEntry>, log: Log)
    requires Inv(s) && l in s.shared.lists
    requires forall k :: k != l ==> Elsewhere(s.sched, k) && Elsewhere(sched, k)
    requires ListOk(x, l, s.adders, sched)
    requires x.owner == s.shared.lists[l].owner || !s.shared.lists[l].owner.ByAdder?
    requires HeapInv(heap, s.shared.lists[l := x])
    requires FateInv(s.shared.lists[l := x], log) && PushedInv(s.adders, log)
    requires SchedRef(sched, s.shared.lists)
    ensures Inv(s.(shared := s.shared.(lists := s.shared.lists[l := x], heap := heap), sched := sched, log := log))
  {
    hide Inv, ListOk, HeapInv, FateInv, PushedInv, Elsewhere;
    Split(s);
    forall k | k in s.shared.lists && k != l
      ensures ListOk(s.shared.lists[k], k, s.adders, sched)
    {
      SchedFrame(s.shared.lists[k], k, s.adders, s.sched, sched);
    }
    forall m | m in s.adders
      ensures AdderOk(s.adders[m], m, s.shared.lists[l := x])
    {
      assert AdderOk(s.adders[m], m, s.shared.lists);
    }
    Join(s.(shared := s.shared.(lists := s.shared.lists[l := x], heap := heap), sched := sched, log := log));
  }

  /** The scheduler changes only its own place. */
  lemma SchedGoes(s: State, l: Lid, sched: Scheduler)
    requires Inv(s) && l in s.shared.lists
    requires forall k :: k != l ==> Elsewhere(s.sched, k) && Elsewhere(sched, k)
    requires ListOk(s.shared.lists[l], l, s.adders, sched) && SchedRef(sched, s.shared.lists)
    ensures Inv(SetSched(s, sched))
  {
    hide Inv, ListOk, HeapInv, FateInv, PushedInv, Elsewhere;
    Split(s);
    assert s.shared.lists[l := s.shared.lists[l]] == s.shared.lists;
    SchedMoves(s, l, s.shared.lists[l], sched, s.shared.heap, s.log);
  }

  /** Between lists the scheduler is nobody's concern. */
  lemma SchedRests(s: State, sched: Scheduler)
    requires Inv(s) && (s.sched.Idle? || s.sched.Peek?) && (sched.Idle? || sched.Peek?)
    ensures Inv(SetSched(s, sched))
  {
    hide Inv, ListOk, AddersInv, HeapInv, FateInv, PushedInv;
    Split(s);
    forall k | k in s.shared.lists
      ensures ListOk(s.shared.lists[k], k, s.adders, sched)
    {
      SchedFrame(s.shared.lists[k], k, s.adders, s.sched, sched);
    }
    Join(SetSched(s, sched));
  }

  lemma PeekKeepsInv(s: State, now: nat, i: int)
    requires Inv(s) && s.sched == Peek(now) && (s.shared.heap == [] || IsMin(s.shared.heap, i))
    ensures Inv(PeekNext(s, now, i))
  {
    hide Inv, HeapInv, FateInv, PushedInv, IsMin;
    var heap := s.shared.heap;
    if heap != [] { MinInRange(heap, i); }
    if heap == [] || heap[i].time > now {
      SchedRests(s, Idle);
    } else {
      Split(s);
      var l := heap[i].lid;
      HeapPop(heap, s.shared.lists, i, TList(0, [], 0, NoOne));
      OneList(s, l);
      var x := s.shared.lists[l].(owner := NoOne);
      HeapPop(heap, s.shared.lists, i, x);
      FateSame(s.shared.lists, s.log, l, x);
      SchedMoves(s, l, x, Popped(now, l, heap[i].interval), Omit(heap, i), s.log);
    }
  }

  lemma MinInRange(heap: seq<HeapEntry>, i: int)
    requires IsMin(heap, i)
    ensures 0 <= i < |heap|
  {
  }

  lemma PoppedKeepsInv(s: State, now: nat, l: Lid, interval: nat)
    requires Inv(s) && s.sched == Popped(now, l, interval) && l in s.shared.lists
    ensures Inv(SetSched(SetList(s, l, s.shared.lists[l].(inUse := 0)), PopIf(now, l, interval)))
  {
    hide Inv, HeapInv, FateInv, PushedInv;
    Split(s);
    OneList(s, l);
    var x := s.shared.lists[l].(inUse := 0);
    HeapSame(s.shared.heap, s.shared.lists, l, x);
    FateSame(s.shared.lists, s.log, l, x);
    SchedMoves(s, l, x, PopIf(now, l, interval), s.shared.heap, s.log);
  }

  lemma LeaveFate(lists: map<Lid, TList>, log: Log, l: Lid, k: int, x: TList, f: Fate)
    requires FateInv(lists, log) && l in lists && 0 <= k < |lists[l].pending|
    requires x.pending == Omit(lists[l].pending, k)
    requires lists[l].pending[k] in log.timer
    requires FateOk(lists[l].pending[k], f, lists[l := x], log.timer[lists[l].pending[k]])
    ensures FateInv(lists[l := x], log.(fate := log.fate[lists[l].pending[k] := f]))
  {
    var n := lists[l].pending[k];
    assert PendingOk(lists[l].pending, l, log.fate);
    PendingWithout(lists[l].pending, l, log.fate, k, f);
    FateChange(lists, log, log.(fate := log.fate[n := f]), l, x, n, f);
  }

  lemma PopIfKeepsInv(s: State, now: nat, l: Lid, interval: nat)
    requires Inv(s) && s.sched == PopIf(now, l, interval) && l in s.shared.lists
    ensures Inv(PopIfNext(s, now, l, interval))
  {
    hide Inv, HeapInv, FateInv, PushedInv;
    Split(s);
    OneList(s, l);
    var x := s.shared.lists[l];
    if x.pending != [] && x.pending[0] in s.log.timer && s.log.timer[x.pending[0]].time <= now {
      var x' := x.(stub := x.pending[0], pending := x.pending[1..]);
      HeapSame(s.shared.heap, s.shared.lists, l, x');
      assert x'.pending == Omit(x.pending, 0);
      LeaveFate(s.shared.lists, s.log, l, 0, x', Fired(now));
      FirePushed(s.shared.lists, s.adders, s.log, l, Fired(now), 0);
      SchedMoves(s, l, x', s.sched, s.shared.heap, s.log.(fate := s.log.fate[x.pending[0] := Fired(now)]));
    } else {
      SchedGoes(s, l, PeekList(now, l, interval));
    }
  }

  lemma FirePushed(lists: map<Lid, TList>, adders: map<Nid, Adder>, log: Log, l: Lid, f: Fate, k: int)
    requires FateInv(lists, log) && PushedInv(adders, log) && l in lists && 0 <= k < |lists[l].pending|
    ensures PushedInv(adders, log.(fate := log.fate[lists[l].pending[k] := f]))
  {
    PendingHasTimer(lists, log, l, k);
  }

  lemma PeekListKeepsInv(s: State, now: nat, l: Lid, interval: nat)
    requires Inv(s) && s.sched == PeekList(now, l, interval) && l in s.shared.lists
    ensures s.shared.lists[l].pending == [] ==> Inv(SetSched(s, WantMap(now, l, interval)))
    ensures s.shared.lists[l].pending != [] ==>
      Inv(SetSched(s, Reinstall(now, l, interval, FirstTime(s, s.shared.lists[l]))))
  {
    hide Inv, FirstTime;
    OneList(s, l);
    if s.shared.lists[l].pending == [] {
      SchedGoes(s, l, WantMap(now, l, interval));
    } else {
      SchedGoes(s, l, Reinstall(now, l, interval, FirstTime(s, s.shared.lists[l])));
    }
  }

  lemma ClaimKeepsInv(s: State, l: Lid, now: nat, won: Scheduler)
    requires Inv(s) && l in s.shared.lists && s.shared.lists[l].pending != []
    requires s.sched.Reinstall? || s.sched.Recheck?
    requires s.sched.l == l && (won.PushBack? || won.PeekAgain?) && won.l == l
    ensures Inv(Claim(s, l, now, won))
  {
    hide Inv, HeapInv, FateInv, PushedInv;
    Split(s);
    OneList(s, l);
    var s' := Claim(s, l, now, won);
    var x := s'.shared.lists[l];
    HeapSame(s.shared.heap, s.shared.lists, l, x);
    FateSame(s.shared.lists, s.log, l, x);
    SchedMoves(s, l, x, s'.sched, s.shared.heap, s.log);
  }

  lemma WantMapKeepsInv(s: State, now: nat, l: Lid, interval: nat)
    requires Inv(s) && s.sched == WantMap(now, l, interval)
    ensures Inv(SetSched(SetLock(s, SchedulerHas), Recheck(now, l, interval)))
  {
    hide Inv, SetLock;
    Split(s);
    OneList(s, l);
    SchedGoes(s, l, Recheck(now, l, interval));
    LockIrrelevant(SetSched(s, Recheck(now, l, interval)), SchedulerHas);
    SwapLockSched(s, Recheck(now, l, interval), SchedulerHas);
  }

  lemma SwapLockSched(s: State, x: Scheduler, k: Lock)
    ensures SetSched(SetLock(s, k), x) == SetLock(SetSched(s, x), k)
  {
  }

  lemma ForgetInterval(s: State, interval: nat)
    requires Inv(s)
    ensures Inv(s.(shared := s.shared.(byInterval := s.shared.byInterval - {interval})))
  {
    hide ListOk, AdderOk, HeapInv, FateInv, PushedInv;
  }

  lemma RecheckKeepsInv(s: State, now: nat, l: Lid, interval: nat)
    requires Inv(s) && s.sched == Recheck(now, l, interval) && l in s.shared.lists
    ensures Inv(RecheckNext(s, now, l, interval))
  {
    hide Inv, Claim, ListOk;
    LockIrrelevant(s, Free);
    var s1 := SetLock(s, Free);
    if s.shared.lists[l].pending == [] {
      OneList(s1, l);
      EmptyListRests(s1.shared.lists[l], l, s1.adders, s1.sched, now);
      SchedGoes(s1, l, Peek(now));
      ForgetInterval(SetSched(s1, Peek(now)), interval);
    } else {
      ClaimKeepsInv(s1, l, now, PeekAgain(now, l, interval));
    }
  }

  lemma EmptyListRests(x: TList, l: Lid, adders: map<Nid, Adder>, sched: Scheduler, now: nat)
    requires ListOk(x, l, adders, sched) && sched.Recheck? && x.pending == []
    ensures ListOk(x, l, adders, Peek(now))
  {
  }

  lemma PeekAgainKeepsInv(s: State, now: nat, l: Lid, interval: nat, time: nat)
    requires Inv(s) && s.sched == PeekAgain(now, l, interval) && l in s.shared.lists
    ensures s.shared.lists[l].pending != []
    ensures Inv(SetSched(s, PushBack(now, l, interval, time)))
  {
    hide Inv;
    OneList(s, l);
    SchedGoes(s, l, PushBack(now, l, interval, time));
  }

  lemma PushBackKeepsInv(s: State, now: nat, l: Lid, interval: nat, time: nat)
    requires Inv(s) && s.sched == PushBack(now, l, interval, time) && l in s.shared.lists
    ensures Inv(PushBackNext(s, now, l, interval, time))
  {
    hide Inv, HeapInv, FateInv, PushedInv;
    Split(s);
    OneList(s, l);
    var x := s.shared.lists[l].(owner := InHeap);
    var e := HeapEntry(time, l, interval);
    HeapPush(s.shared.heap, s.shared.lists, e, x);
    FateSame(s.shared.lists, s.log, l, x);
    SchedMoves(s, l, x, Peek(now), s.shared.heap + [e], s.log);
  }

  lemma SchedKeepsInv(s: State, i: int)
    requires Inv(s) && SchedEnabled(s, i)
    ensures Inv(SchedNext(s, i))
  {
    hide Inv, SetSched, SetLock, SetList, PeekNext, PopIfNext, Claim, RecheckNext, PushBackNext, FirstTime, IsMin;
    match s.sched
    case Peek(now) => PeekKeepsInv(s, now, i);
    case Popped(now, l, interval) => PoppedKeepsInv(s, now, l, interval);
    case PopIf(now, l, interval) => PopIfKeepsInv(s, now, l, interval);
    case PeekList(now, l, interval) => PeekListKeepsInv(s, now, l, interval);
    case Reinstall(now, l, interval, time) =>
      assert s.shared.lists[l].pending != [] by { ReinstallHasTimer(s, l); }
      ClaimKeepsInv(s, l, now, PushBack(now, l, interval, time));
    case WantMap(now, l, interval) => WantMapKeepsInv(s, now, l, interval);
    case Recheck(now, l, interval) => RecheckKeepsInv(s, now, l, interval);
    case PeekAgain(now, l, interval) =>
      PeekAgainKeepsInv(s, now, l, interval, 0);
      PeekAgainKeepsInv(s, now, l, interval, FirstTime(s, s.shared.lists[l]));
    case PushBack(now, l, interval, time) => PushBackKeepsInv(s, now, l, interval, time);
  }

  lemma ReinstallHasTimer(s: State, l: Lid)
    requires Inv(s) && s.sched.Reinstall? && s.sched.l == l && l in s.shared.lists
    ensures s.shared.lists[l].pending != []
  {
    OneList(s, l);
  }

  // ---------------------------------------------------------------- remove

  lemma PendingHasTimer(lists: map<Lid, TList>, log: Log, l: Lid, k: int)
    requires FateInv(lists, log) && l in lists && 0 <= k < |lists[l].pending|
    ensures lists[l].pending[k] in log.fate && log.fate[lists[l].pending[k]] == Pending(l)
    ensures lists[l].pending[k] in log.timer
  {
    assert PendingOk(lists[l].pending, l, log.fate);
  }

  lemma RemoveKeepsInv(s: State, l: Lid, k: int)
    requires Inv(s) && Enabled(s, Remove(l, k))
    ensures Inv(RemoveAt(s, l, k))
  {
    hide Inv, HeapInv, FateInv, PushedInv;
    Split(s);
    OneList(s, l);
    var x := s.shared.lists[l];
    if k + 1 < |x.pending| && x.pending[k + 1] in s.log.linked {
      var x' := x.(pending := Omit(x.pending, k));
      HeapSame(s.shared.heap, s.shared.lists, l, x');
      PendingHasTimer(s.shared.lists, s.log, l, k);
      LeaveFate(s.shared.lists, s.log, l, k, x', Removed);
      FirePushed(s.shared.lists, s.adders, s.log, l, Removed, k);
      assert k > 0 ==> x'.pending[0] == x.pending[0];
      SchedMoves(s, l, x', s.sched, s.shared.heap, s.log.(fate := s.log.fate[x.pending[k] := Removed]));
    }
  }

  // ---------------------------------------------------------------- every step, every run

  lemma StepKeepsInv(s: State, a: Action)
    requires Inv(s) && Enabled(s, a)
    ensures Inv(Step(s, a))
  {
    hide Inv, AdderNext, SchedNext, RemoveAt;
    match a
    case StartAdd(n, timer) => StartAddKeepsInv(s, n, timer);
    case Add(n, l, stub) => AdderKeepsInv(s, n, l, stub);
    case StartSchedule(now) => SchedRests(s, Peek(now));
    case Sched(i) => SchedKeepsInv(s, i);
    case Remove(l, k) => RemoveKeepsInv(s, l, k);
  }

  lemma InitInv()
    ensures Inv(Init)
  {
  }

  lemma {:induction false} RunInv(r: seq<State>, acts: seq<Action>, i: nat)
    requires Run(r, acts) && i < |r|
    ensures Inv(r[i])
  {
    hide Inv, Step, Enabled;
    if i == 0 {
      InitInv();
    } else {
      RunInv(r, acts, i - 1);
      StepKeepsInv(r[i - 1], acts[i - 1]);
    }
  }

  // ---------------------------------------------------------------- what the timer list promises

  /** Those who may be answerable for a list. */
  predicate OnHeapOrInstalling(s: State, l: Lid, x: TList) {
    && x.owner != NoOne
    && (x.owner.ByAdder? ==> PushesHeap(s.adders, x.owner.n, l))
    && (x.owner == ByScheduler ==> Installs(s.sched, l))
  }

  /**
   No timer is lost: a list that holds one, in the map or dropped from it, has its heap entry or someone about to push
   it, or is being examined by the scheduler, or the call that pushed its first node has still to install it.
   */
  lemma NoTimerLost(r: seq<State>, acts: seq<Action>, i: nat, l: Lid)
    requires Run(r, acts) && i < |r| && l in r[i].shared.lists && r[i].shared.lists[l].pending != []
    ensures var x := r[i].shared.lists[l];
      || OnHeapOrInstalling(r[i], l, x)
      || Examines(r[i].sched, l)
      || Due(r[i].adders, x.pending[0], l, x.stub)
    ensures r[i].shared.lists[l].owner == InHeap ==> HasEntry(r[i].shared.heap, l)
  {
    hide Inv;
    RunInv(r, acts, i);
    Split(r[i]);
    OneList(r[i], l);
  }

  /** Every list a call works on exists, in the map or out of it. */
  lemma ListsAreThere(r: seq<State>, acts: seq<Action>, i: nat, n: Nid)
    requires Run(r, acts) && i < |r| && n in r[i].adders
    ensures ListThere(r[i], r[i].adders[n]) && n in r[i].log.timer
  {
    hide Inv;
    RunInv(r, acts, i);
    Split(r[i]);
    assert AdderOk(r[i].adders[n], n, r[i].shared.lists);
  }

  /** `in_use` lets one entry per list onto the heap, and nobody pushes a second while it is there. */
  lemma OneEntryPerList(r: seq<State>, acts: seq<Action>, i: nat, j: int, k: int)
    requires Run(r, acts) && i < |r| && 0 <= j < |r[i].shared.heap| && 0 <= k < |r[i].shared.heap|
    ensures r[i].shared.heap[j].lid == r[i].shared.heap[k].lid ==> j == k
    ensures forall n :: n in r[i].adders && r[i].adders[n].PushHeap? ==> r[i].adders[n].l != r[i].shared.heap[j].lid
    ensures !Installs(r[i].sched, r[i].shared.heap[j].lid)
    ensures r[i].shared.heap[j].lid in r[i].shared.lists && r[i].shared.lists[r[i].shared.heap[j].lid].inUse > 0
  {
    hide Inv;
    RunInv(r, acts, i);
    Split(r[i]);
    var l := r[i].shared.heap[j].lid;
    OneList(r[i], l);
    forall n | n in r[i].adders && r[i].adders[n].PushHeap?
      ensures r[i].adders[n].l != l
    {
      assert AdderOk(r[i].adders[n], n, r[i].shared.lists);
    }
  }

  /** Two installers of one list never coexist. */
  lemma OneInstaller(r: seq<State>, acts: seq<Action>, i: nat, n: Nid, m: Nid)
    requires Run(r, acts) && i < |r| && n in r[i].adders && m in r[i].adders
    requires r[i].adders[n].PushHeap? && r[i].adders[m].PushHeap? && r[i].adders[n].l == r[i].adders[m].l
    ensures n == m && !Installs(r[i].sched, r[i].adders[n].l)
  {
    hide Inv;
    RunInv(r, acts, i);
    Split(r[i]);
    assert AdderOk(r[i].adders[n], n, r[i].shared.lists) && AdderOk(r[i].adders[m], m, r[i].shared.lists);
    OneList(r[i], r[i].adders[n].l);
  }

  /**
   `peek().unwrap()` in the recheck never fails, and the first node of a list is always on its way to being
   reachable.
   */
  lemma PeekNeverFails(r: seq<State>, acts: seq<Action>, i: nat)
    requires Run(r, acts) && i < |r|
    ensures !r[i].sched.Panicked?
    ensures r[i].sched.PeekAgain? ==> r[i].sched.l in r[i].shared.lists && r[i].shared.lists[r[i].sched.l].pending != []
    ensures forall l :: l in r[i].shared.lists && r[i].shared.lists[l].pending != [] ==>
      var n := r[i].shared.lists[l].pending[0]; n in r[i].log.linked || (n in r[i].adders && r[i].adders[n].Link?)
  {
    hide Inv, FateOk;
    RunInv(r, acts, i);
    Split(r[i]);
    if r[i].sched.PeekAgain? { OneList(r[i], r[i].sched.l); }
  }

  /** Every timer added is still being added, waits in one list, fired when due, or was removed; never two of these. */
  lemma TimersConserved(r: seq<State>, acts: seq<Action>, i: nat, n: Nid)
    requires Run(r, acts) && i < |r|
    ensures n in r[i].log.timer <==> n in r[i].log.fate || n in r[i].adders
    ensures n in r[i].log.fate ==> FateOk(n, r[i].log.fate[n], r[i].shared.lists, r[i].log.timer[n])
    ensures forall l :: l in r[i].shared.lists && n in r[i].shared.lists[l].pending ==>
      n in r[i].log.fate && r[i].log.fate[n] == Pending(l)
  {
    hide Inv;
    RunInv(r, acts, i);
    Split(r[i]);
  }

  /** When every call has returned and the scheduler rests, each list that holds timers has exactly one heap entry. */
  lemma QuietListsOnHeap(r: seq<State>, acts: seq<Action>, i: nat, l: Lid)
    requires Run(r, acts) && i < |r| && r[i].adders == map[] && r[i].sched.Idle?
    requires l in r[i].shared.lists && r[i].shared.lists[l].pending != []
    ensures HasEntry(r[i].shared.heap, l)
  {
    hide Inv;
    RunInv(r, acts, i);
    Split(r[i]);
    OneList(r[i], l);
  }

  /** A timer's end is final. */
  lemma FateIsFinal(s: State, a: Action, n: Nid)
    requires Inv(s) && Enabled(s, a) && n in s.log.fate && !s.log.fate[n].Pending?
    ensures n in Step(s, a).log.fate && Step(s, a).log.fate[n] == s.log.fate[n]
  {
    hide Inv, IsMin, FirstTime, AdderNext, SchedNext;
    Split(s);
    match a
    case Add(m, l, stub) => AdderKeepsFates(s, m, l, stub, n);
    case Sched(i) => SchedKeepsFates(s, i, n);
    case Remove(l, k) => PendingHasTimer(s.shared.lists, s.log, l, k);
    case _ =>
  }

  lemma AdderKeepsFates(s: State, m: Nid, l: Lid, stub: Nid, n: Nid)
    requires PushedInv(s.adders, s.log) && AdderEnabled(s, m, l, stub) && n in s.log.fate
    ensures n in AdderNext(s, m, l, stub).log.fate && AdderNext(s, m, l, stub).log.fate[n] == s.log.fate[n]
  {
  }

  lemma SchedKeepsFates(s: State, i: int, n: Nid)
    requires FateInv(s.shared.lists, s.log) && SchedEnabled(s, i) && n in s.log.fate && !s.log.fate[n].Pending?
    ensures n in SchedNext(s, i).log.fate && SchedNext(s, i).log.fate[n] == s.log.fate[n]
  {
    hide IsMin, FirstTime, FateInv, Omit;
    if s.sched.PopIf? && s.shared.lists[s.sched.l].pending != [] {
      PendingHasTimer(s.shared.lists, s.log, s.sched.l, 0);
    }
  }
}
