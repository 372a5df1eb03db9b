/**
 The shared timer list (src/timeout_list.rs) as a state machine: any number of `add_timer` calls beside one timer
 thread that runs `schedule_timer` and removes timers; one step per atomic operation or lock.

 An interval list is the queue of src/std/queue/mpsc_list_v1.rs seen through its linearisation points: a push takes
 effect at the swap of `head`, becomes reachable when its predecessor's `next` is stored, and then compares that
 predecessor with the consumer's `tail`. Node names are never reused.
 */
module TimerSteps {
  import opened Common

  type Nid = nat
  type Lid = nat

  const HASH_CAP: nat := 1024

  /** History: who may push the list onto the heap, or whether its entry is there. */
  datatype Owner = NoOne | InHeap | ByAdder(n: Nid) | ByScheduler

  /** A `TimeoutQueueWrapper`: the consumer's tail node, the nodes after it, and the `in_use` counter. */
  datatype TList = TList(stub: Nid, pending: seq<Nid>, inUse: nat, owner: Owner)

  datatype HeapEntry = HeapEntry(time: nat, lid: Lid, interval: nat)

  datatype Lock = Free | AdderHas(n: Nid) | SchedulerHas

  datatype Shared = Shared(lists: map<Lid, TList>, byInterval: map<nat, Lid>, mapLock: Lock, heap: seq<HeapEntry>)

  /** An `add_timer` call, named by its node; `locked` says that it holds the map's write lock. */
  datatype Adder =
    | ReadMap
    | WantLock
    | Locked
    | Swap(l: Lid, locked: bool)
    | Link(l: Lid, prev: Nid, locked: bool)
    | ReadTail(l: Lid, prev: Nid, locked: bool)
    | Install(l: Lid, locked: bool)
    | PushHeap(l: Lid, locked: bool)
    | Created(l: Lid)
    | Release

  datatype Scheduler =
    | Idle
    | Peek(now: nat)
    | Popped(now: nat, l: Lid, interval: nat)
    | PopIf(now: nat, l: Lid, interval: nat)
    | PeekList(now: nat, l: Lid, interval: nat)
    | Reinstall(now: nat, l: Lid, interval: nat, time: nat)
    | WantMap(now: nat, l: Lid, interval: nat)
    | Recheck(now: nat, l: Lid, interval: nat)
    | PeekAgain(now: nat, l: Lid, interval: nat)
    | PushBack(now: nat, l: Lid, interval: nat, time: nat)
    | Panicked

  /** History of a timer. */
  datatype Fate = Pending(l: Lid) | Fired(now: nat) | Removed

  datatype Timer = Timer(time: nat, interval: nat)

  /** The timers' data, which nodes are reachable from their predecessor, and what became of each node pushed. */
  datatype Log = Log(timer: map<Nid, Timer>, linked: set<Nid>, fate: map<Nid, Fate>)

  datatype State = State(shared: Shared, adders: map<Nid, Adder>, sched: Scheduler, log: Log)

  function SetList(s: State, l: Lid, x: TList): State {
    s.(shared := s.shared.(lists := s.shared.lists[l := x]))
  }

  function SetLock(s: State, k: Lock): State { s.(shared := s.shared.(mapLock := k)) }

  function SetHeap(s: State, h: seq<HeapEntry>): State { s.(shared := s.shared.(heap := h)) }

  function Goto(s: State, n: Nid, a: Adder): State { s.(adders := s.adders[n := a]) }

  function End(s: State, n: Nid): State { s.(adders := s.adders - {n}) }

  function Return(s: State, n: Nid, locked: bool): State {
    if locked then Goto(s, n, Release) else End(s, n)
  }

  function SetSched(s: State, x: Scheduler): State { s.(sched := x) }

  // ---------------------------------------------------------------- add_timer

  /** The list is there: push to it; if not, go on. */
  function FindList(s: State, n: Nid, interval: nat, locked: bool, otherwise: State): State {
    if interval in s.shared.byInterval then Goto(s, n, Swap(s.shared.byInterval[interval], locked)) else otherwise
  }

  /** A new list with the timer in it goes into the map. */
  function CreateList(s: State, n: Nid, interval: nat, l: Lid, stub: Nid): State {
    State(s.shared.(lists := s.shared.lists[l := TList(stub, [n], 0, NoOne)],
                    byInterval := s.shared.byInterval[interval := l]),
          s.adders[n := Created(l)], s.sched,
          s.log.(linked := s.log.linked + {n}, fate := s.log.fate[n := Pending(l)]))
  }

  function Last(x: TList): Nid {
    if x.pending == [] then x.stub else x.pending[|x.pending| - 1]
  }

  function SwapNext(s: State, n: Nid, l: Lid, locked: bool): State
    requires l in s.shared.lists
  {
    var x := s.shared.lists[l];
    var s1 := Goto(SetList(s, l, x.(pending := x.pending + [n])), n, Link(l, Last(x), locked));
    s1.(log := s.log.(fate := s.log.fate[n := Pending(l)]))
  }

  function InstallNext(s: State, n: Nid, l: Lid, locked: bool): State
    requires l in s.shared.lists
  {
    var x := s.shared.lists[l];
    if x.inUse == 0 then Goto(SetList(s, l, x.(inUse := 1, owner := ByAdder(n))), n, PushHeap(l, locked))
    else Return(SetList(s, l, x.(inUse := x.inUse + 1)), n, locked)
  }

  function PushHeapNext(s: State, n: Nid, l: Lid, locked: bool): State
    requires l in s.shared.lists && n in s.log.timer
  {
    var x := s.shared.lists[l];
    var t := s.log.timer[n];
    Return(SetHeap(SetList(s, l, x.(owner := InHeap)), s.shared.heap + [HeapEntry(t.time, l, t.interval)]), n, locked)
  }

  predicate ListThere(s: State, a: Adder) {
    match a
    case Swap(l, _) => l in s.shared.lists
    case Link(l, _, _) => l in s.shared.lists
    case ReadTail(l, _, _) => l in s.shared.lists
    case Install(l, _) => l in s.shared.lists
    case PushHeap(l, _) => l in s.shared.lists
    case _ => true
  }

  predicate AdderEnabled(s: State, n: Nid, l: Lid, stub: Nid) {
    && n in s.adders && n in s.log.timer && ListThere(s, s.adders[n])
    && match s.adders[n]
       case ReadMap => s.shared.mapLock == Free
       case WantLock => s.shared.mapLock == Free
       case Locked => l !in s.shared.lists
       case PushHeap(_, _) => !s.sched.Popped?
       case _ => true
  }

  function AdderNext(s: State, n: Nid, l: Lid, stub: Nid): State
    requires AdderEnabled(s, n, l, stub)
  {
    var interval := s.log.timer[n].interval;
    match s.adders[n]
    case ReadMap => FindList(s, n, interval, false, Goto(s, n, WantLock))
    case WantLock => SetLock(Goto(s, n, Locked), AdderHas(n))
    case Locked => FindList(s, n, interval, true, CreateList(s, n, interval, l, stub))
    case Swap(k, locked) => SwapNext(s, n, k, locked)
    case Link(k, prev, locked) =>
      Goto(s, n, ReadTail(k, prev, locked)).(log := s.log.(linked := s.log.linked + {n}))
    case ReadTail(k, prev, locked) =>
      if s.shared.lists[k].stub == prev then Goto(s, n, Install(k, locked)) else Return(s, n, locked)
    case Install(k, locked) => InstallNext(s, n, k, locked)
    case PushHeap(k, locked) => PushHeapNext(s, n, k, locked)
    case Created(k) => SetLock(Goto(s, n, Install(k, false)), Free)
    case Release => SetLock(End(s, n), Free)
  }

  // ---------------------------------------------------------------- schedule_timer

  predicate IsMin(heap: seq<HeapEntry>, i: int) {
    0 <= i < |heap| && forall j :: 0 <= j < |heap| ==> heap[i].time <= heap[j].time
  }

  function PeekNext(s: State, now: nat, i: int): State
    requires s.shared.heap == [] || IsMin(s.shared.heap, i)
  {
    var heap := s.shared.heap;
    if heap == [] || heap[i].time > now then SetSched(s, Idle)
    else
      var l := heap[i].lid;
      var s1 := SetSched(SetHeap(s, Omit(heap, i)), Popped(now, l, heap[i].interval));
      if l in s.shared.lists then SetList(s1, l, s.shared.lists[l].(owner := NoOne)) else s1
  }

  /** `pop_if(time <= now)`: fire the first timer if it is due. */
  function PopIfNext(s: State, now: nat, l: Lid, interval: nat): State
    requires l in s.shared.lists
  {
    var x := s.shared.lists[l];
    if x.pending != [] && x.pending[0] in s.log.timer && s.log.timer[x.pending[0]].time <= now then
      SetList(s, l, x.(stub := x.pending[0], pending := x.pending[1..]))
        .(log := s.log.(fate := s.log.fate[x.pending[0] := Fired(now)]))
    else SetSched(s, PeekList(now, l, interval))
  }

  function FirstTime(s: State, x: TList): nat
    requires x.pending != []
  {
    if x.pending[0] in s.log.timer then s.log.timer[x.pending[0]].time else 0
  }

  /** `in_use.fetch_add(1)`: on zero the scheduler goes on to `won`, else it is done with this list. */
  function Claim(s: State, l: Lid, now: nat, won: Scheduler): State
    requires l in s.shared.lists
  {
    var x := s.shared.lists[l];
    if x.inUse == 0 then SetSched(SetList(s, l, x.(inUse := 1, owner := ByScheduler)), won)
    else SetSched(SetList(s, l, x.(inUse := x.inUse + 1)), Peek(now))
  }

  /** Under the write lock: drop an empty list from a large map, or take it back if a timer has come. */
  function RecheckNext(s: State, now: nat, l: Lid, interval: nat): State
    requires l in s.shared.lists
  {
    var s1 := SetLock(s, Free);
    if s.shared.lists[l].pending == [] then
      var m := s.shared.byInterval;
      SetSched(if |m| > HASH_CAP then s1.(shared := s1.shared.(byInterval := m - {interval})) else s1, Peek(now))
    else Claim(s1, l, now, PeekAgain(now, l, interval))
  }

  function PushBackNext(s: State, now: nat, l: Lid, interval: nat, time: nat): State
    requires l in s.shared.lists
  {
    var s1 := SetList(s, l, s.shared.lists[l].(owner := InHeap));
    SetSched(SetHeap(s1, s.shared.heap + [HeapEntry(time, l, interval)]), Peek(now))
  }

  /** The consumer spins until the first node is reachable. */
  predicate Reachable(s: State, l: Lid) {
    l in s.shared.lists && (s.shared.lists[l].pending == [] || s.shared.lists[l].pending[0] in s.log.linked)
  }

  predicate SchedEnabled(s: State, i: int) {
    match s.sched
    case Idle => false
    case Peek(_) => s.shared.heap == [] || IsMin(s.shared.heap, i)
    case Popped(_, l, _) => l in s.shared.lists
    case PopIf(_, l, _) => Reachable(s, l)
    case PeekList(_, l, _) => Reachable(s, l)
    case Reinstall(_, l, _, _) => l in s.shared.lists
    case WantMap(_, _, _) => s.shared.mapLock == Free
    case Recheck(_, l, _) => l in s.shared.lists
    case PeekAgain(_, l, _) => Reachable(s, l)
    case PushBack(_, l, _, _) => l in s.shared.lists
    case Panicked => false
  }

  function SchedNext(s: State, i: int): State
    requires SchedEnabled(s, i)
  {
    match s.sched
    case Peek(now) => PeekNext(s, now, i)
    case Popped(now, l, interval) =>
      SetSched(SetList(s, l, s.shared.lists[l].(inUse := 0)), PopIf(now, l, interval))
    case PopIf(now, l, interval) => PopIfNext(s, now, l, interval)
    case PeekList(now, l, interval) =>
      var x := s.shared.lists[l];
      if x.pending == [] then SetSched(s, WantMap(now, l, interval))
      else SetSched(s, Reinstall(now, l, interval, FirstTime(s, x)))
    case Reinstall(now, l, interval, time) => Claim(s, l, now, PushBack(now, l, interval, time))
    case WantMap(now, l, interval) => SetSched(SetLock(s, SchedulerHas), Recheck(now, l, interval))
    case Recheck(now, l, interval) => RecheckNext(s, now, l, interval)
    case PeekAgain(now, l, interval) =>
      var x := s.shared.lists[l];
      if x.pending == [] then SetSched(s, Panicked)
      else SetSched(s, PushBack(now, l, interval, FirstTime(s, x)))
    case PushBack(now, l, interval, time) => PushBackNext(s, now, l, interval, time)
  }

  // ---------------------------------------------------------------- remove

  /** `Entry::remove` by the timer thread: unlinks any node but the last; position `k` of list `l`. */
  function RemoveAt(s: State, l: Lid, k: int): State
    requires l in s.shared.lists && 0 <= k < |s.shared.lists[l].pending|
  {
    var x := s.shared.lists[l];
    if k + 1 < |x.pending| && x.pending[k + 1] in s.log.linked then
      SetList(s, l, x.(pending := Omit(x.pending, k))).(log := s.log.(fate := s.log.fate[x.pending[k] := Removed]))
    else s
  }

  // ---------------------------------------------------------------- runs

  datatype Action =
    | StartAdd(n: Nid, timer: Timer)
    | Add(n: Nid, l: Lid, stub: Nid)
    | StartSchedule(now: nat)
    | Sched(i: int)
    | Remove(l: Lid, k: int)

  predicate Enabled(s: State, a: Action) {
    match a
    case StartAdd(n, timer) => n !in s.adders && n !in s.log.timer && n !in s.log.fate
    case Add(n, l, stub) => AdderEnabled(s, n, l, stub)
    case StartSchedule(now) => s.sched.Idle?
    case Sched(i) => SchedEnabled(s, i)
    case Remove(l, k) =>
      && s.sched.Idle? && l in s.shared.lists && 0 <= k < |s.shared.lists[l].pending|
      && s.shared.lists[l].pending[k] !in s.adders
  }

  function Step(s: State, a: Action): State
    requires Enabled(s, a)
  {
    match a
    case StartAdd(n, timer) => Goto(s, n, ReadMap).(log := s.log.(timer := s.log.timer[n := timer]))
    case Add(n, l, stub) => AdderNext(s, n, l, stub)
    case StartSchedule(now) => SetSched(s, Peek(now))
    case Sched(i) => SchedNext(s, i)
    case Remove(l, k) => RemoveAt(s, l, k)
  }

  const Init: State := State(Shared(map[], map[], Free, []), map[], Idle, Log(map[], {}, map[]))

  ghost predicate Run(r: seq<State>, acts: seq<Action>) {
    && |r| == |acts| + 1 && r[0] == Init
    && forall i {:trigger acts[i]} :: 0 <= i < |acts| ==> Enabled(r[i], acts[i]) && r[i + 1] == Step(r[i], acts[i])
  }
}
