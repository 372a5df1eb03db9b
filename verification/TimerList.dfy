/**
 The timer list of src/timeout_list.rs while one thread uses it: a FIFO per interval and a heap of list heads, proved
 to agree with a flat set of deadlines. Stamping a timer and pushing it happen together, the clock never goes back.
 */
module TimerList {
  import opened Common

  const NANOS_PER_SEC: nat := 1_000_000_000
  const U64_MAX: nat := 0xFFFF_FFFF_FFFF_FFFF
  const HASH_CAP: nat := 1024

  // ---------------------------------------------------------------- durations

  /** A `Duration`: seconds in a u64 and nanoseconds below one second. */
  datatype Duration = Duration(secs: nat, nanos: nat)

  predicate ValidDuration(d: Duration) {
    d.secs <= U64_MAX && d.nanos < NANOS_PER_SEC
  }

  function Saturate(n: nat): nat {
    if n > U64_MAX then U64_MAX else n
  }

  function DurToNs(d: Duration): nat {
    Saturate(Saturate(d.secs * NANOS_PER_SEC) + d.nanos)
  }

  function NsToDur(ns: nat): Duration {
    Duration(ns / NANOS_PER_SEC, ns % NANOS_PER_SEC)
  }

  /** Every u64 count of nanoseconds survives the trip through `Duration`. */
  lemma NsRoundTrip(ns: nat)
    requires ns <= U64_MAX
    ensures ValidDuration(NsToDur(ns)) && DurToNs(NsToDur(ns)) == ns
  {
    assert ns == (ns / NANOS_PER_SEC) * NANOS_PER_SEC + ns % NANOS_PER_SEC;
  }

  /**
   A duration survives the trip through nanoseconds exactly when they fit the word; longer ones all become the
   longest.
   */
  lemma DurRoundTrip(d: Duration)
    requires ValidDuration(d)
    ensures NsToDur(DurToNs(d)) == d <==> d.secs * NANOS_PER_SEC + d.nanos <= U64_MAX
    ensures d.secs * NANOS_PER_SEC + d.nanos > U64_MAX ==> DurToNs(d) == U64_MAX
  {
    var ns := DurToNs(d);
    if d.secs * NANOS_PER_SEC + d.nanos <= U64_MAX {
      assert ns == d.secs * NANOS_PER_SEC + d.nanos;
    } else {
      assert ns == U64_MAX;
    }
  }

  // ---------------------------------------------------------------- lists

  /** A timer; `id` is the node that holds it. */
  datatype Timer = Timer(id: nat, time: nat, interval: nat)

  datatype IntervalList = IntervalList(timers: seq<Timer>, inUse: nat)

  datatype Entry = Entry(time: nat, interval: nat)

  ghost function Pending(lists: map<nat, IntervalList>): set<Timer> {
    set i, t | i in lists && t in lists[i].timers :: t
  }

  ghost predicate ListOk(x: IntervalList, interval: nat, clock: nat, nextId: nat) {
    && (forall i :: 0 <= i < |x.timers| ==>
          x.timers[i].interval == interval && x.timers[i].id < nextId && x.timers[i].time <= clock + interval)
    && (forall i, j :: 0 <= i < j < |x.timers| ==>
       x.timers[i].time <= x.timers[j].time && x.timers[i].id != x.timers[j].id)
    && (x.inUse > 0 <==> x.timers != [])
  }

  ghost predicate HasEntry(heap: seq<Entry>, interval: nat) {
    exists i :: 0 <= i < |heap| && heap[i].interval == interval
  }

  /** One entry per list that holds timers, not later than the first of them. */
  ghost predicate HeapOk(heap: seq<Entry>, lists: map<nat, IntervalList>) {
    && (forall i, j :: 0 <= i < j < |heap| ==> heap[i].interval != heap[j].interval)
    && (forall i :: 0 <= i < |heap| ==>
          && heap[i].interval in lists && lists[heap[i].interval].timers != []
          && heap[i].time <= lists[heap[i].interval].timers[0].time)
    && (forall l :: l in lists && lists[l].timers != [] ==> HasEntry(heap, l))
  }

  ghost predicate ListsOk(lists: map<nat, IntervalList>, clock: nat, nextId: nat) {
    forall i :: i in lists ==> ListOk(lists[i], i, clock, nextId)
  }

  // ---------------------------------------------------------------- heap

  /** Entries that are due. */
  function DueCount(heap: seq<Entry>, now: nat): nat {
    if heap == [] then 0 else DueCount(heap[..|heap| - 1], now) + if heap[|heap| - 1].time <= now then 1 else 0
  }

  lemma {:induction false} DueWithout(heap: seq<Entry>, now: nat, i: int)
    requires 0 <= i < |heap|
    ensures DueCount(Omit(heap, i), now) == DueCount(heap, now) - if heap[i].time <= now then 1 else 0
  {
    var last := |heap| - 1;
    if i == last {
      assert Omit(heap, i) == heap[..last];
    } else {
      DueWithout(heap[..last], now, i);
      assert Omit(heap, i) == Omit(heap[..last], i) + [heap[last]];
      assert Omit(heap, i)[..last - 1] == Omit(heap[..last], i);
    }
  }

  lemma DueAppend(heap: seq<Entry>, now: nat, e: Entry)
    ensures DueCount(heap + [e], now) == DueCount(heap, now) + if e.time <= now then 1 else 0
  {
    assert (heap + [e])[..|heap|] == heap;
  }

  predicate IsMin(heap: seq<Entry>, i: int) {
    0 <= i < |heap| && forall j :: 0 <= j < |heap| ==> heap[i].time <= heap[j].time
  }

  datatype Ordering = Less | Equal | Greater

  function CompareTimes(a: nat, b: nat): Ordering {
    if a < b then Less else if a == b then Equal else Greater
  }

  /** `cmp` of `IntervalEntry`: the times compared the other way round. */
  function Compare(e: Entry, f: Entry): Ordering {
    CompareTimes(f.time, e.time)
  }

  predicate IsGreatest(heap: seq<Entry>, i: int) {
    0 <= i < |heap| && forall j :: 0 <= j < |heap| ==> Compare(heap[j], heap[i]) != Greater
  }

  /** The greatest entry of the heap in its own order is one of least time. */
  lemma GreatestIsEarliest(heap: seq<Entry>, i: int)
    ensures IsGreatest(heap, i) <==> IsMin(heap, i)
  {
    if IsGreatest(heap, i) {
      forall j | 0 <= j < |heap|
        ensures heap[i].time <= heap[j].time
      {
        assert Compare(heap[j], heap[i]) != Greater;
      }
    }
  }

  /** `BinaryHeap::peek`: a greatest entry, by the order of the entries, or nothing. */
  method Peek(heap: seq<Entry>) returns (top: Option<int>)
    ensures top == None <==> heap == []
    ensures top.Some? ==> IsGreatest(heap, top.value) && IsMin(heap, top.value)
  {
    if heap == [] { return None; }
    var i := 0;
    for j := 1 to |heap|
      invariant 0 <= i < j
      invariant forall k :: 0 <= k < j ==> Compare(heap[k], heap[i]) != Greater
    {
      if Compare(heap[j], heap[i]) == Greater { i := j; }
    }
    GreatestIsEarliest(heap, i);
    top := Some(i);
  }

  lemma EntryAdded(heap: seq<Entry>, lists: map<nat, IntervalList>, e: Entry, x: IntervalList)
    requires HeapOk(heap, lists) && x.timers != [] && e.time <= x.timers[0].time
    requires e.interval in lists ==> lists[e.interval].timers == []
    ensures HeapOk(heap + [e], lists[e.interval := x])
  {
    var heap', lists' := heap + [e], lists[e.interval := x];
    assert heap'[|heap|] == e;
    forall l | l in lists' && lists'[l].timers != []
      ensures HasEntry(heap', l)
    {
      if l != e.interval {
        assert HasEntry(heap, l);
        var i :| 0 <= i < |heap| && heap[i].interval == l;
        assert heap'[i].interval == l;
      }
    }
  }

  /** A list changes behind its entry: it still holds timers, the first no earlier than before. */
  lemma EntryKept(heap: seq<Entry>, lists: map<nat, IntervalList>, l: nat, x: IntervalList)
    requires HeapOk(heap, lists) && l in lists && lists[l].timers != [] && x.timers != []
    requires lists[l].timers[0].time <= x.timers[0].time
    ensures HeapOk(heap, lists[l := x])
  {
    forall k | k in lists[l := x] && lists[l := x][k].timers != []
      ensures HasEntry(heap, k)
    {
      assert k in lists && lists[k].timers != [];
    }
  }

  lemma EntryTaken(heap: seq<Entry>, lists: map<nat, IntervalList>, i: int, x: IntervalList)
    requires HeapOk(heap, lists) && 0 <= i < |heap| && x.timers == []
    ensures HeapOk(Omit(heap, i), lists[heap[i].interval := x])
    ensures HeapOk(Omit(heap, i), lists - {heap[i].interval})
  {
    var heap' := Omit(heap, i);
    forall l | l in lists && l != heap[i].interval && lists[l].timers != []
      ensures HasEntry(heap', l)
    {
      assert HasEntry(heap, l);
      var j :| 0 <= j < |heap| && heap[j].interval == l;
      assert heap'[if j < i then j else j - 1].interval == l;
    }
  }

  lemma EntryReturned(heap: seq<Entry>, lists: map<nat, IntervalList>, i: int, x: IntervalList, e: Entry)
    requires HeapOk(heap, lists) && 0 <= i < |heap| && e.interval == heap[i].interval
    requires x.timers != [] && e.time <= x.timers[0].time
    ensures HeapOk(Omit(heap, i) + [e], lists[e.interval := x])
  {
    var none := IntervalList([], 0);
    EntryTaken(heap, lists, i, none);
    EntryAdded(Omit(heap, i), lists[e.interval := none], e, x);
    assert lists[e.interval := none][e.interval := x] == lists[e.interval := x];
  }

  // ---------------------------------------------------------------- pending timers

  lemma PendingReplaced(lists: map<nat, IntervalList>, l: nat, x: IntervalList, clock: nat, nextId: nat)
    requires ListsOk(lists, clock, nextId) && ListOk(x, l, clock, nextId)
    ensures ListsOk(lists[l := x], clock, nextId)
    ensures forall t :: t in Pending(lists[l := x]) <==>
      if t.interval == l then t in x.timers else t in Pending(lists)
  {
    forall t
      ensures t in Pending(lists[l := x]) <==> if t.interval == l then t in x.timers else t in Pending(lists)
    {
      PendingAt(lists, t, clock, nextId);
      PendingAt(lists[l := x], t, clock, nextId);
    }
  }

  /** A timer is pending exactly when it is in the list of its interval. */
  lemma PendingAt(lists: map<nat, IntervalList>, t: Timer, clock: nat, nextId: nat)
    requires ListsOk(lists, clock, nextId)
    ensures t in Pending(lists) <==> t.interval in lists && t in lists[t.interval].timers
  {
    if t in Pending(lists) {
      var i :| i in lists && t in lists[i].timers;
      assert ListOk(lists[i], i, clock, nextId);
    }
  }

  lemma PendingDropped(lists: map<nat, IntervalList>, l: nat, clock: nat, nextId: nat)
    requires ListsOk(lists, clock, nextId) && l in lists && lists[l].timers == []
    ensures ListsOk(lists - {l}, clock, nextId) && Pending(lists - {l}) == Pending(lists)
  {
    forall t
      ensures t in Pending(lists - {l}) <==> t in Pending(lists)
    {
      PendingAt(lists, t, clock, nextId);
      PendingAt(lists - {l}, t, clock, nextId);
    }
  }

  /** The front of a list, dropped up to the first timer that is not due. */
  function DuePrefix(timers: seq<Timer>, now: nat): (k: nat)
    ensures k <= |timers|
    ensures forall i :: 0 <= i < k ==> timers[i].time <= now
    ensures k < |timers| ==> timers[k].time > now
  {
    if timers == [] || timers[0].time > now then 0 else 1 + DuePrefix(timers[1..], now)
  }

  lemma ListSuffix(x: IntervalList, l: nat, clock: nat, nextId: nat, k: int, inUse: nat)
    requires ListOk(x, l, clock, nextId) && 0 <= k <= |x.timers| && (inUse > 0 <==> k < |x.timers|)
    ensures ListOk(IntervalList(x.timers[k..], inUse), l, clock, nextId)
  {
  }

  // ---------------------------------------------------------------- firing

  /** `fired` and `rest` split `all`; what fired was due. */
  ghost predicate Splits(fired: seq<Timer>, rest: set<Timer>, all: set<Timer>, now: nat) {
    && Distinct(fired)
    && (forall t :: t in all <==> t in fired || t in rest)
    && (forall t :: t in fired ==> t !in rest && t.time <= now)
  }

  /** Firing the front of one list moves exactly those timers from the rest to the fired. */
  lemma FireStep(lists: map<nat, IntervalList>, l: nat, k: int, x: IntervalList, fired: seq<Timer>, all: set<Timer>,
      now: nat,
                 clock: nat, nextId: nat)
    requires ListsOk(lists, clock, nextId) && l in lists && 0 <= k <= |lists[l].timers|
    requires forall i :: 0 <= i < k ==> lists[l].timers[i].time <= now
    requires x.timers == lists[l].timers[k..] && ListOk(x, l, clock, nextId)
    requires Splits(fired, Pending(lists), all, now)
    ensures ListsOk(lists[l := x], clock, nextId)
    ensures Splits(fired + lists[l].timers[..k], Pending(lists[l := x]), all, now)
  {
    var ts := lists[l].timers;
    PendingReplaced(lists, l, x, clock, nextId);
    assert ts == ts[..k] + ts[k..];
    FrontAndBack(lists[l], l, clock, nextId, k);
    forall t
      ensures t in Pending(lists) <==> t in ts[..k] || t in Pending(lists[l := x])
      ensures t in ts[..k] ==> t !in Pending(lists[l := x]) && t.time <= now && t in Pending(lists)
    {
      PendingAt(lists, t, clock, nextId);
    }
    DistinctSum(fired, ts[..k]);
  }

  lemma FrontAndBack(x: IntervalList, l: nat, clock: nat, nextId: nat, k: int)
    requires ListOk(x, l, clock, nextId) && 0 <= k <= |x.timers|
    ensures Distinct(x.timers[..k])
    ensures forall t :: t in x.timers[..k] ==> t !in x.timers[k..] && t.interval == l
    ensures forall t :: t in x.timers ==> t.interval == l && (t in x.timers[..k] || t in x.timers[k..])
  {
    assert x.timers == x.timers[..k] + x.timers[k..];
  }

  lemma DistinctSum(a: seq<Timer>, b: seq<Timer>)
    requires Distinct(a) && Distinct(b) && forall t :: t in b ==> t !in a
    ensures Distinct(a + b)
  {
    forall i, j | 0 <= i < j < |a + b|
      ensures (a + b)[i] != (a + b)[j]
    {
      if i < |a| <= j { assert b[j - |a|] in b; }
    }
  }

  /** The least entry bounds every pending timer. */
  lemma MinBounds(heap: seq<Entry>, lists: map<nat, IntervalList>, clock: nat, nextId: nat, i: int, t: Timer)
    requires HeapOk(heap, lists) && ListsOk(lists, clock, nextId) && t in Pending(lists)
    ensures heap != []
    ensures IsMin(heap, i) ==> heap[i].time <= t.time
  {
    PendingAt(lists, t, clock, nextId);
    var l := t.interval;
    assert ListOk(lists[l], l, clock, nextId) && HasEntry(heap, l);
    var j :| 0 <= j < |heap| && heap[j].interval == l;
    assert heap[j].time <= lists[l].timers[0].time;
    var k :| 0 <= k < |lists[l].timers| && lists[l].timers[k] == t;
    assert lists[l].timers[0].time <= t.time;
  }

  /** `IntervalEntry::pop_timeout` on one list: fires the due front and tells when the next timer is due. */
  method PopTimeout(timers: seq<Timer>, now: nat) returns (fired: seq<Timer>, rest: seq<Timer>, next: Option<nat>)
    ensures fired == timers[..DuePrefix(timers, now)] && rest == timers[DuePrefix(timers, now)..]
    ensures next == if rest == [] then None else Some(rest[0].time)
  {
    fired, rest := [], timers;
    while rest != [] && rest[0].time <= now
      invariant |fired| <= |timers| && fired == timers[..|fired|] && rest == timers[|fired|..]
      invariant DuePrefix(timers, now) == |fired| + DuePrefix(rest, now)
      decreases |rest|
    {
      fired, rest := fired + [rest[0]], rest[1..];
    }
    next := if rest == [] then None else Some(rest[0].time);
  }

  // ---------------------------------------------------------------- the timer list

  class TimeOutList {
    var lists: map<nat, IntervalList>
    var heap: seq<Entry>
    var nextId: nat
    ghost var clock: nat

    ghost predicate Valid()
      reads this
    {
      ListsOk(lists, clock, nextId) && HeapOk(heap, lists)
    }

    constructor ()
      ensures Valid() && Pending(lists) == {} && clock == 0
    {
      lists, heap, nextId, clock := map[], [], 0, 0;
    }

    /**
     `add_timer`: the timer joins the pending set. The timer thread is told to recompute its wake-up exactly when no
     earlier timer of the same interval is pending. A deadline past the word overflows, in a build that checks
     arithmetic, before anything is changed.
     */
    method AddTimer(now: nat, interval: nat) returns (added: Option<Timer>, isHead: bool)
      requires Valid() && clock <= now <= U64_MAX && interval <= U64_MAX
      modifies this
      ensures Valid()
      ensures added == None <==> now + interval > U64_MAX
      ensures added == None ==> unchanged(this)
      ensures added.Some? ==>
        var handle := added.value;
        && clock == now
        && handle.time == now + interval && handle.interval == interval && handle !in old(Pending(lists))
        && Pending(lists) == old(Pending(lists)) + {handle}
        && (!isHead <==> SomeBefore(old(Pending(lists)), interval, U64_MAX + interval))
        && (!isHead <==> SomeBefore(old(Pending(lists)), interval, handle.time))
    {
      hide ListsOk, ListOk, HeapOk, Pending, SomeBefore;
      if now + interval > U64_MAX { return None, false; }
      var handle := Timer(nextId, now + interval, interval);
      var x := if interval in lists then lists[interval] else IntervalList([], 0);
      isHead := x.timers == [];
      AddToList(lists, x, clock, nextId, now, handle);
      var inUse := x.inUse;
      var y := IntervalList(x.timers + [handle], if isHead then inUse + 1 else inUse);
      if isHead && inUse == 0 {
        EntryAdded(heap, lists, Entry(handle.time, interval), y);
        heap := heap + [Entry(handle.time, interval)];
      } else {
        EntryKept(heap, lists, interval, y);
      }
      lists, nextId, clock := lists[interval := y], nextId + 1, now;
      added := Some(handle);
    }

    /**
     `schedule_timer`: fires each pending timer with time <= now once, keeps the others, and returns a delay that ends
     no later than the earliest of them (none if there are none).
     */
    method ScheduleTimer(now: nat) returns (fired: seq<Timer>, delay: Option<nat>)
      requires Valid()
      modifies this
      ensures Valid() && clock == old(clock)
      ensures Distinct(fired)
      ensures forall t :: t in fired <==> t in old(Pending(lists)) && t.time <= now
      ensures forall t :: t in Pending(lists) <==> t in old(Pending(lists)) && t.time > now
      ensures delay == None <==> Pending(lists) == {}
      ensures delay.Some? ==> delay.value > 0 && forall t :: t in Pending(lists) ==> now + delay.value <= t.time
    {
      hide ListsOk, ListOk, HeapOk, IsMin, IsGreatest, Pending;
      fired := [];
      ghost var all := Pending(lists);
      NothingFired(all, now);
      while true
        invariant Valid() && clock == old(clock) && nextId == old(nextId)
        invariant Splits(fired, Pending(lists), all, now)
        decreases DueCount(heap, now)
      {
        var top := Peek(heap);
        if top == None {
          delay := None;
          AllFired(heap, lists, clock, nextId, -1, fired, all, now);
          return;
        }
        var i := top.value;
        assert 0 <= i < |heap| by { MinInRange(heap, i); }
        if heap[i].time > now {
          delay := Some(heap[i].time - now);
          AllFired(heap, lists, clock, nextId, i, fired, all, now);
          return;
        }
        fired := Serve(now, i, fired, all);
      }
    }

    /** One round of the loop of `schedule_timer`: the due entry at `i` is taken and its list examined. */
    method Serve(now: nat, i: int, fired: seq<Timer>, ghost all: set<Timer>) returns (fired': seq<Timer>)
      requires Valid() && 0 <= i < |heap| && heap[i].time <= now && Splits(fired, Pending(lists), all, now)
      modifies this
      ensures Valid() && clock == old(clock) && nextId == old(nextId)
      ensures Splits(fired', Pending(lists), all, now)
      ensures DueCount(heap, now) < old(DueCount(heap, now))
    {
      hide ListsOk, ListOk, HeapOk, Pending, Splits;
      var entry, rest := heap[i], Omit(heap, i);
      DueWithout(heap, now, i);
      EntryHasList(heap, lists, i, clock, nextId);
      var x := lists[entry.interval];
      var due, left, next := PopTimeout(x.timers, now);
      ListSuffix(x, entry.interval, clock, nextId, |due|, if left == [] then 0 else 1);
      fired' := fired + due;
      if next.Some? {
        var e, y := entry.(time := next.value), IntervalList(left, 1);
        FireStep(lists, entry.interval, |due|, y, fired, all, now, clock, nextId);
        EntryReturned(heap, lists, i, y, e);
        DueAppend(rest, now, e);
        lists, heap := lists[entry.interval := y], rest + [e];
      } else {
        var y := IntervalList(left, 0);
        FireStep(lists, entry.interval, |due|, y, fired, all, now, clock, nextId);
        EntryTaken(heap, lists, i, y);
        var emptied := lists[entry.interval := y];
        PendingDropped(emptied, entry.interval, clock, nextId);
        assert emptied - {entry.interval} == lists - {entry.interval};
        heap := rest;
        lists := if |emptied| > HASH_CAP then emptied - {entry.interval} else emptied;
      }
    }

    /** `Entry::remove`: takes any timer but the last of its list; a timer that is not pending is left alone. */
    method Remove(t: Timer) returns (removed: bool)
      requires Valid()
      modifies this
      ensures Valid() && clock == old(clock)
      ensures Pending(lists) == if removed then old(Pending(lists)) - {t} else old(Pending(lists))
      ensures removed <==> old(InFront(lists, t))
    {
      hide ListsOk, ListOk, HeapOk, Pending, InFront;
      removed := false;
      if t.interval !in lists {
        NotThere(lists, t, clock, nextId);
        return;
      }
      var x := lists[t.interval];
      var k := 0;
      while k < |x.timers| && x.timers[k] != t
        invariant 0 <= k <= |x.timers| && forall i :: 0 <= i < k ==> x.timers[i] != t
      {
        k := k + 1;
      }
      LastOrAbsent(lists, t, clock, nextId, k);
      if k + 1 < |x.timers| {
        removed := true;
        var y := IntervalList(Omit(x.timers, k), x.inUse);
        RemoveFromLists(lists, t, clock, nextId, k);
        EntryKept(heap, lists, t.interval, y);
        lists := lists[t.interval := y];
      }
    }
  }

  // ---------------------------------------------------------------- steps of the methods

  lemma NothingFired(all: set<Timer>, now: nat)
    ensures Splits([], all, all, now)
  {
  }

  lemma MinInRange(heap: seq<Entry>, i: int)
    requires IsMin(heap, i)
    ensures 0 <= i < |heap|
  {
  }

  lemma ClockMoves(lists: map<nat, IntervalList>, x: IntervalList, interval: nat, clock: nat, nextId: nat, now: nat,
      t: Timer)
    requires ListsOk(lists, clock, nextId) && clock <= now && t == Timer(nextId, now + interval, interval)
    requires x == if interval in lists then lists[interval] else IntervalList([], 0)
    ensures ListsOk(lists, now, nextId + 1)
    ensures x.inUse > 0 <==> x.timers != []
    ensures forall i :: 0 <= i < |x.timers| ==> x.timers[i].interval == interval && x.timers[i].time <= t.time
    ensures t !in x.timers
    ensures ListOk(IntervalList(x.timers + [t], if x.timers == [] then x.inUse + 1 else x.inUse), interval, now,
                   nextId + 1)
  {
    assert ListOk(x, interval, clock, nextId);
    forall i | i in lists
      ensures ListOk(lists[i], i, now, nextId + 1)
    {
      assert ListOk(lists[i], i, clock, nextId);
    }
  }

  /** Some timer of this interval ends by `time`. */
  ghost predicate SomeBefore(pending: set<Timer>, interval: nat, time: nat) {
    exists t :: t in pending && t.interval == interval && t.time <= time
  }

  lemma AddToList(lists: map<nat, IntervalList>, x: IntervalList, clock: nat, nextId: nat, now: nat, t: Timer)
    requires ListsOk(lists, clock, nextId) && clock <= now && t == Timer(nextId, now + t.interval, t.interval)
    requires now <= U64_MAX
    requires x == if t.interval in lists then lists[t.interval] else IntervalList([], 0)
    ensures x.inUse > 0 <==> x.timers != []
    ensures var y := IntervalList(x.timers + [t], if x.timers == [] then x.inUse + 1 else x.inUse);
      ListsOk(lists[t.interval := y], now, nextId + 1) && Pending(lists[t.interval := y]) == Pending(lists) + {t}
    ensures t !in Pending(lists)
    ensures x.timers != [] <==> SomeBefore(Pending(lists), t.interval, U64_MAX + t.interval)
    ensures x.timers != [] <==> SomeBefore(Pending(lists), t.interval, t.time)
  {
    hide ListOk, ListsOk, Pending;
    ClockMoves(lists, x, t.interval, clock, nextId, now, t);
    PendingAt(lists, t, clock, nextId);
    var y := IntervalList(x.timers + [t], if x.timers == [] then x.inUse + 1 else x.inUse);
    PendingReplaced(lists, t.interval, y, now, nextId + 1);
    forall u
      ensures u in Pending(lists) && u.interval == t.interval <==> u in x.timers
    {
      PendingAt(lists, u, clock, nextId);
    }
    if x.timers != [] { assert x.timers[0] in x.timers; }
  }

  lemma EntryHasList(heap: seq<Entry>, lists: map<nat, IntervalList>, i: int, clock: nat, nextId: nat)
    requires HeapOk(heap, lists) && ListsOk(lists, clock, nextId) && 0 <= i < |heap|
    ensures heap[i].interval in lists && ListOk(lists[heap[i].interval], heap[i].interval, clock, nextId)
  {
  }

  lemma AllFired(heap: seq<Entry>, lists: map<nat, IntervalList>, clock: nat, nextId: nat, i: int,
                 fired: seq<Timer>, all: set<Timer>, now: nat)
    requires HeapOk(heap, lists) && ListsOk(lists, clock, nextId) && Splits(fired, Pending(lists), all, now)
    requires heap == [] || (IsMin(heap, i) && heap[i].time > now)
    ensures forall t :: t in fired <==> t in all && t.time <= now
    ensures forall t :: t in Pending(lists) <==> t in all && t.time > now
    ensures heap == [] <==> Pending(lists) == {}
    ensures heap != [] ==> forall t :: t in Pending(lists) ==> heap[i].time <= t.time
  {
    hide HeapOk, ListsOk, Pending, IsMin;
    if heap != [] { MinInRange(heap, i); }
    forall t | t in Pending(lists)
      ensures heap != [] && heap[i].time <= t.time
    {
      MinBounds(heap, lists, clock, nextId, i, t);
    }
    if heap != [] {
      SomePending(heap, lists, clock, nextId);
    }
  }

  lemma SomePending(heap: seq<Entry>, lists: map<nat, IntervalList>, clock: nat, nextId: nat)
    requires HeapOk(heap, lists) && ListsOk(lists, clock, nextId) && heap != []
    ensures Pending(lists) != {}
  {
    var l := heap[0].interval;
    assert lists[l].timers[0] in lists[l].timers;
    assert lists[l].timers[0] in Pending(lists);
  }

  /** The timer waits in some list and is not the last of it. */
  ghost predicate InFront(lists: map<nat, IntervalList>, t: Timer) {
    exists l, k :: l in lists && 0 <= k < |lists[l].timers| - 1 && lists[l].timers[k] == t
  }

  lemma NotThere(lists: map<nat, IntervalList>, t: Timer, clock: nat, nextId: nat)
    requires ListsOk(lists, clock, nextId) && t.interval !in lists
    ensures !InFront(lists, t)
  {
    forall l, k | l in lists && 0 <= k < |lists[l].timers| - 1
      ensures lists[l].timers[k] != t
    {
      assert ListOk(lists[l], l, clock, nextId);
    }
  }

  lemma LastOrAbsent(lists: map<nat, IntervalList>, t: Timer, clock: nat, nextId: nat, k: int)
    requires ListsOk(lists, clock, nextId) && t.interval in lists && 0 <= k <= |lists[t.interval].timers|
    requires forall i :: 0 <= i < k ==> lists[t.interval].timers[i] != t
    requires k < |lists[t.interval].timers| ==> lists[t.interval].timers[k] == t
    ensures k + 1 < |lists[t.interval].timers| <==> InFront(lists, t)
  {
    if l, j :| l in lists && 0 <= j < |lists[l].timers| - 1 && lists[l].timers[j] == t {
      assert ListOk(lists[l], l, clock, nextId);
    }
  }

  lemma RemoveFromList(x: IntervalList, l: nat, clock: nat, nextId: nat, k: int)
    requires ListOk(x, l, clock, nextId) && 0 <= k < |x.timers| - 1
    ensures ListOk(IntervalList(Omit(x.timers, k), x.inUse), l, clock, nextId)
    ensures Omit(x.timers, k) != [] && x.timers[0].time <= Omit(x.timers, k)[0].time
    ensures forall t :: t in Omit(x.timers, k) <==> t in x.timers && t != x.timers[k]
  {
    forall t | t in x.timers && t != x.timers[k]
      ensures t in Omit(x.timers, k)
    {
      var i :| 0 <= i < |x.timers| && x.timers[i] == t;
      assert Omit(x.timers, k)[if i < k then i else i - 1] == t;
    }
  }

  lemma RemoveFromLists(lists: map<nat, IntervalList>, t: Timer, clock: nat, nextId: nat, k: int)
    requires ListsOk(lists, clock, nextId) && t.interval in lists
    requires 0 <= k < |lists[t.interval].timers| - 1 && lists[t.interval].timers[k] == t
    ensures var x := lists[t.interval];
      var y := IntervalList(Omit(x.timers, k), x.inUse);
      && ListsOk(lists[t.interval := y], clock, nextId) && Pending(lists[t.interval := y]) == Pending(lists) - {t}
      && y.timers != [] && x.timers[0].time <= y.timers[0].time
  {
    var x := lists[t.interval];
    assert ListOk(x, t.interval, clock, nextId);
    hide ListOk, ListsOk, Pending;
    RemoveFromList(x, t.interval, clock, nextId, k);
    PendingReplaced(lists, t.interval, IntervalList(Omit(x.timers, k), x.inUse), clock, nextId);
    RemovedIsPending(lists, t, clock, nextId, k);
  }

  lemma RemovedIsPending(lists: map<nat, IntervalList>, t: Timer, clock: nat, nextId: nat, k: int)
    requires ListsOk(lists, clock, nextId) && t.interval in lists
    requires 0 <= k < |lists[t.interval].timers| && lists[t.interval].timers[k] == t
    ensures t in Pending(lists)
    ensures forall u :: u in Pending(lists) && u.interval == t.interval <==> u in lists[t.interval].timers
  {
    assert ListOk(lists[t.interval], t.interval, clock, nextId);
    forall u
      ensures u in Pending(lists) && u.interval == t.interval <==> u in lists[t.interval].timers
    {
      PendingAt(lists, u, clock, nextId);
    }
  }
}
