/** What every step of the semaphore protocol keeps, and what that means for its users. */
module SemphoreProof {
  import opened Common
  import opened SemphoreSteps

  // ---------------------------------------------------------------- invariant

  /** Phases after the push in which the call still has its park ahead. */
  predicate ParksLater(ph: Phase) {
    match ph
    case Decrement => true
    case Park => true
    case Post(park) => park
    case Pop(park) => park
    case Unpark(_, park) => park
    case Mark(_, park) => park
    case Take(_, park) => park
    case _ => false
  }

  /** Phases of a call that posts, for itself or on behalf of an abandoned wait. */
  predicate Posts(ph: Phase) {
    match ph
    case Post(park) => !park
    case Pop(park) => !park
    case Unpark(_, park) => !park
    case Mark(_, park) => !park
    case Take(_, park) => !park
    case _ => false
  }

  /** A call that never pushed a blocker. */
  predicate NeverPushed(fl: Option<Flags>, ph: Option<Phase>, fate: Option<Fate>, granted: bool) {
    && fl == None && fate == None && !granted
    && (ph.Some? ==> ph.value.TryLoad? || ph.value.TryCas? || ph.value.Enqueue? || Posts(ph.value))
    && (ph.Some? && ph.value.TryCas? ==> ph.value.seen > 0)
  }

  /** A blocker that has not been handed a permit. */
  predicate NotHanded(fl: Flags, ph: Option<Phase>, fate: Option<Fate>, granted: bool) {
    && !fl.token && !fl.unparked && fate == None && !granted
    && match ph
       case None => fl.release
       case Some(p) =>
         && (ParksLater(p) || p.CheckUnparked? || p.SetRelease? || p.Recheck?)
         && (fl.release <==> p.Recheck?)
  }

  /** A blocker that was handed a permit; `wakerLeft` says its waker is past the handshake. */
  predicate WasHanded(fl: Flags, ph: Option<Phase>, fate: Option<Fate>, granted: bool, wakerLeft: bool) {
    match ph
    case None => if fl.release then granted && !wakerLeft && fate == None else !granted && fate.Some?
    case Some(p) =>
      if ParksLater(p) then fl.token && !fl.release && granted && fate == None
      else if p.CheckUnparked? || p.SetRelease? then !fl.release && granted && fate == None
      else if p.Recheck? || p.TakeRelease? then
        && (p.TakeRelease? ==> fl.unparked)
        && (if fl.release then granted && fate == None else !granted && wakerLeft && fate == Some(Returned))
      else Posts(p) && !fl.release && !granted && fate == Some(Returned)
  }

  /** Everything about one id. */
  predicate Local(st: Option<Stage>, fl: Option<Flags>, ph: Option<Phase>, fate: Option<Fate>, granted: bool) {
    match st
    case None => NeverPushed(fl, ph, fate, granted)
    case Some(stage) =>
      && fl.Some?
      && match stage
         case Waiting => NotHanded(fl.value, ph, fate, granted)
         case Popped(_) => NotHanded(fl.value, ph, fate, granted)
         case Handed(_) => !fl.value.unparked && WasHanded(fl.value, ph, fate, granted, false)
         case Marked(_) => fl.value.unparked && WasHanded(fl.value, ph, fate, granted, false)
         case Finished => fl.value.unparked && WasHanded(fl.value, ph, fate, granted, true)
  }

  predicate LocalAt(s: State, x: Id) {
    Local(Get(s.hist.stage, x), Get(s.sem.flags, x), Get(s.calls, x), Get(s.hist.fate, x), x in s.sets.granted)
  }

  predicate Waker(calls: map<Id, Phase>, w: Id, st: Stage) {
    match st
    case Popped(c) => c in calls && calls[c].Unpark? && calls[c].w == w
    case Handed(c) => c in calls && calls[c].Mark? && calls[c].w == w
    case Marked(c) => c in calls && calls[c].Take? && calls[c].w == w
    case _ => true
  }

  predicate Target(stage: map<Id, Stage>, c: Id, ph: Phase) {
    match ph
    case Unpark(w, _) => w in stage && stage[w] == Popped(c)
    case Mark(w, _) => w in stage && stage[w] == Handed(c)
    case Take(w, _) => w in stage && stage[w] == Marked(c)
    case _ => true
  }

  /** Each blocker being woken has one waker at work on it, and each waker its own blocker. */
  ghost predicate WakersInv(calls: map<Id, Phase>, stage: map<Id, Stage>) {
    && (forall w :: w in stage ==> Waker(calls, w, stage[w]))
    && (forall c :: c in calls ==> Target(stage, c, calls[c]))
  }

  ghost predicate QueueInv(queue: seq<Id>, stage: map<Id, Stage>) {
    && (forall i, j :: 0 <= i < j < |queue| ==> queue[i] != queue[j])
    && (forall w :: w in queue <==> w in stage && stage[w] == Waiting)
  }

  ghost predicate SetsInv(calls: map<Id, Phase>, x: Sets) {
    && (forall b :: b in x.uncounted <==> b in calls && calls[b].Decrement?)
    && (forall b :: b in x.popping <==> b in calls && calls[b].Pop?)
    && (forall b :: b in x.carrying <==> b in calls && Carries(calls[b]))
  }

  function Pos(n: int): nat { if n > 0 then n else 0 }

  /** Blockers in the list, counted. */
  predicate QueueCount(cnt: int, queue: nat, uncounted: nat, popping: nat) {
    queue == uncounted + popping + Pos(-cnt)
  }

  /** Permits, counted. */
  predicate PermitCount(cnt: int, carrying: nat, granted: nat, t: Tally) {
    t.initial + t.posts == t.taken + Pos(cnt) + carrying + granted
  }

  predicate Numbers(s: State) {
    && QueueCount(s.sem.cnt, |s.sem.queue|, |s.sets.uncounted|, |s.sets.popping|)
    && PermitCount(s.sem.cnt, |s.sets.carrying|, |s.sets.granted|, s.tally)
  }

  ghost predicate ReturnedInv(fate: map<Id, Fate>, returned: set<Id>, stage: map<Id, Stage>) {
    forall x :: (x in returned <==> x in fate && fate[x] == Returned) && (x in fate ==> x in stage)
  }

  ghost predicate Inv(s: State) {
    && (forall x :: LocalAt(s, x))
    && WakersInv(s.calls, s.hist.stage)
    && QueueInv(s.sem.queue, s.hist.stage)
    && SetsInv(s.calls, s.sets)
    && Numbers(s)
    && ReturnedInv(s.hist.fate, s.hist.returned, s.hist.stage)
  }

  // ---------------------------------------------------------------- frames

  predicate SameAt(s: State, s': State, x: Id) {
    && Get(s'.hist.stage, x) == Get(s.hist.stage, x) && Get(s'.sem.flags, x) == Get(s.sem.flags, x)
    && Get(s'.calls, x) == Get(s.calls, x) && Get(s'.hist.fate, x) == Get(s.hist.fate, x)
    && (x in s'.sets.granted <==> x in s.sets.granted)
  }

  lemma LocalFrame(s: State, s': State, b: Id, w: Id)
    requires forall x :: LocalAt(s, x)
    requires LocalAt(s', b) && LocalAt(s', w)
    requires forall x :: x != b && x != w ==> SameAt(s, s', x)
    ensures forall x :: LocalAt(s', x)
  {
    hide Local;
    forall x | x != b && x != w
      ensures LocalAt(s', x)
    {
      assert SameAt(s, s', x) && LocalAt(s, x);
    }
  }

  lemma Assemble(s: State, s': State, b: Id, w: Id)
    requires Inv(s) && LocalAt(s', b) && LocalAt(s', w)
    requires forall x :: x != b && x != w ==> SameAt(s, s', x)
    requires WakersInv(s'.calls, s'.hist.stage) && QueueInv(s'.sem.queue, s'.hist.stage)
    requires SetsInv(s'.calls, s'.sets) && Numbers(s') && ReturnedInv(s'.hist.fate, s'.hist.returned, s'.hist.stage)
    ensures Inv(s')
  {
    hide LocalAt, SameAt, WakersInv, QueueInv, SetsInv, Numbers, ReturnedInv;
    LocalFrame(s, s', b, w);
  }

  lemma LocalOf(s: State, x: Id)
    requires Inv(s)
    ensures LocalAt(s, x)
  {
    hide LocalAt, WakersInv, QueueInv, SetsInv, Numbers, ReturnedInv;
  }

  lemma RestOf(s: State)
    requires Inv(s)
    ensures WakersInv(s.calls, s.hist.stage) && QueueInv(s.sem.queue, s.hist.stage) && SetsInv(s.calls, s.sets)
    ensures Numbers(s) && ReturnedInv(s.hist.fate, s.hist.returned, s.hist.stage)
  {
    hide LocalAt, WakersInv, QueueInv, SetsInv, Numbers, ReturnedInv;
  }

  lemma TargetOf(s: State, b: Id)
    requires Inv(s) && b in s.calls
    ensures Target(s.hist.stage, b, s.calls[b])
  {
    hide LocalAt, QueueInv, SetsInv, Numbers, ReturnedInv;
  }

  // ---------------------------------------------------------------- sizes

  predicate IsUncounted(ph: Option<Phase>) { ph.Some? && ph.value.Decrement? }

  predicate IsPopping(ph: Option<Phase>) { ph.Some? && ph.value.Pop? }

  predicate IsCarrying(ph: Option<Phase>) { ph.Some? && Carries(ph.value) }

  lemma TrackSizes(calls: map<Id, Phase>, x: Sets, b: Id, ph: Option<Phase>)
    requires SetsInv(calls, x)
    ensures var x' := Track(x, b, ph);
      && |x'.uncounted| == |x.uncounted| - Bit(IsUncounted(Get(calls, b))) + Bit(IsUncounted(ph))
      && |x'.popping| == |x.popping| - Bit(IsPopping(Get(calls, b))) + Bit(IsPopping(ph))
      && |x'.carrying| == |x.carrying| - Bit(IsCarrying(Get(calls, b))) + Bit(IsCarrying(ph))
  {
    hide Put;
    PutSize(x.uncounted, b, ph == Some(Decrement));
    PutSize(x.popping, b, IsPopping(ph));
    PutSize(x.carrying, b, IsCarrying(ph));
  }

  lemma TrackSets(calls: map<Id, Phase>, x: Sets, y: Sets, b: Id, ph: Phase)
    requires SetsInv(calls, x)
    requires y.uncounted == x.uncounted && y.popping == x.popping && y.carrying == x.carrying
    ensures SetsInv(calls[b := ph], Track(y, b, Some(ph)))
    ensures SetsInv(calls - {b}, Track(y, b, None))
  {
  }

  // ---------------------------------------------------------------- steps of a call on its own

  predicate Wakes(ph: Phase) { ph.Unpark? || ph.Mark? || ph.Take? }

  lemma WakersMove(calls: map<Id, Phase>, stage: map<Id, Stage>, b: Id, ph: Phase)
    requires WakersInv(calls, stage) && (b in calls ==> !Wakes(calls[b])) && !Wakes(ph)
    ensures WakersInv(calls[b := ph], stage) && WakersInv(calls - {b}, stage)
  {
  }

  function Place(s: State, b: Id, ph: Option<Phase>): State {
    if ph.Some? then Goto(s, b, ph.value) else End(s, b)
  }

  /** `s1` differs from `s` only in the count, the tally and the call's own blocker. */
  ghost predicate OwnChange(s: State, s1: State, b: Id) {
    && s1.calls == s.calls && s1.hist.stage == s.hist.stage && s1.sem.queue == s.sem.queue
    && s1.sets.uncounted == s.sets.uncounted && s1.sets.popping == s.sets.popping && s1.sets.carrying == s.sets.carrying
    && forall x :: x != b ==> SameAt(s, s1, x)
  }

  function QueueShare(ph: Option<Phase>): nat { Bit(IsUncounted(ph)) + Bit(IsPopping(ph)) }

  /** The numbers balance when call `b` moves from where it is to `ph`. */
  predicate Balanced(s: State, s1: State, b: Id, ph: Option<Phase>) {
    var was := Get(s.calls, b);
    && Pos(-s.sem.cnt) + QueueShare(was) + |s1.sem.queue| == Pos(-s1.sem.cnt) + QueueShare(ph) + |s.sem.queue|
    && s1.tally.initial == s.tally.initial
    && s.tally.taken + Pos(s.sem.cnt) + Bit(IsCarrying(was)) + |s.sets.granted| + s1.tally.posts
       == s1.tally.taken + Pos(s1.sem.cnt) + Bit(IsCarrying(ph)) + |s1.sets.granted| + s.tally.posts
  }

  lemma MoveNumbers(s: State, s1: State, b: Id, ph: Option<Phase>)
    requires Numbers(s) && SetsInv(s.calls, s.sets) && Balanced(s, s1, b, ph)
    requires s1.calls == s.calls
    requires s1.sets.uncounted == s.sets.uncounted && s1.sets.popping == s.sets.popping
    requires s1.sets.carrying == s.sets.carrying
    ensures Numbers(Place(s1, b, ph))
  {
    hide Track, SetsInv, IsUncounted, IsPopping, IsCarrying, Get, Pos;
    assert Track(s1.sets, b, ph) == Track(s.sets, b, ph).(granted := s1.sets.granted) by {
      TrackGranted(s.sets, s1.sets, b, ph);
    }
    TrackSizes(s.calls, s.sets, b, ph);
    PlaceSets(s1, b, ph);
  }

  lemma TrackGranted(x: Sets, y: Sets, b: Id, ph: Option<Phase>)
    requires y.uncounted == x.uncounted && y.popping == x.popping && y.carrying == x.carrying
    ensures Track(y, b, ph) == Track(x, b, ph).(granted := y.granted)
  {
  }

  lemma PlaceSets(s: State, b: Id, ph: Option<Phase>)
    ensures var s' := Place(s, b, ph);
      && s'.sets == Track(s.sets, b, ph) && s'.sem == s.sem && s'.tally == s.tally && s'.hist == s.hist
      && s'.calls == (if ph.Some? then s.calls[b := ph.value] else s.calls - {b})
  {
  }

  lemma MoveKeepsInv(s: State, s1: State, b: Id, ph: Option<Phase>)
    requires Inv(s) && OwnChange(s, s1, b) && Balanced(s, s1, b, ph)
    requires (b in s.calls ==> !Wakes(s.calls[b])) && (ph.Some? ==> !Wakes(ph.value))
    requires Local(Get(s.hist.stage, b), Get(s1.sem.flags, b), ph, Get(s1.hist.fate, b), b in s1.sets.granted)
    requires ReturnedInv(s1.hist.fate, s1.hist.returned, s1.hist.stage)
    ensures Inv(Place(s1, b, ph))
  {
    hide Inv, Local, Place, Balanced, Track, WakersInv, QueueInv, SetsInv, Numbers, ReturnedInv;
    RestOf(s);
    var p := if ph.Some? then ph.value else Park;
    WakersMove(s.calls, s.hist.stage, b, p);
    TrackSets(s.calls, s.sets, s1.sets, b, p);
    MoveNumbers(s, s1, b, ph);
    PlaceSets(s1, b, ph);
    var s' := Place(s1, b, ph);
    TrackGranted(s1.sets, s1.sets, b, ph);
    assert LocalAt(s', b);
    forall x | x != b
      ensures SameAt(s, s', x)
    {
      assert SameAt(s, s1, x);
    }
    Assemble(s, s', b, b);
  }

  /** A step of call `b` that also changes the list or blocker `w`. */
  lemma PairKeepsInv(s: State, s1: State, b: Id, w: Id, ph: Option<Phase>)
    requires Inv(s) && s1.calls == s.calls && Balanced(s, s1, b, ph)
    requires s1.sets.uncounted == s.sets.uncounted && s1.sets.popping == s.sets.popping
    requires s1.sets.carrying == s.sets.carrying
    requires forall x :: x != b && x != w ==> SameAt(s, s1, x)
    requires Local(Get(s1.hist.stage, b), Get(s1.sem.flags, b), ph, Get(s1.hist.fate, b), b in s1.sets.granted)
    requires w == b || LocalAt(s1, w)
    requires WakersInv(if ph.Some? then s.calls[b := ph.value] else s.calls - {b}, s1.hist.stage)
    requires QueueInv(s1.sem.queue, s1.hist.stage)
    requires ReturnedInv(s1.hist.fate, s1.hist.returned, s1.hist.stage)
    ensures Inv(Place(s1, b, ph))
  {
    hide Inv, Local, Place, Balanced, Track, WakersInv, QueueInv, SetsInv, Numbers, ReturnedInv;
    RestOf(s);
    TrackSets(s.calls, s.sets, s1.sets, b, if ph.Some? then ph.value else Park);
    MoveNumbers(s, s1, b, ph);
    PlaceSets(s1, b, ph);
    var s' := Place(s1, b, ph);
    TrackGranted(s1.sets, s1.sets, b, ph);
    assert LocalAt(s', b) && LocalAt(s', w);
    forall x | x != b && x != w
      ensures SameAt(s, s', x)
    {
      assert SameAt(s, s1, x);
    }
    Assemble(s, s', b, w);
  }

  lemma StartKeepsInv(s: State, a: Action)
    requires Inv(s) && Enabled(s, a) && !a.Next?
    ensures Inv(Step(s, a))
  {
    hide Inv, Goto, End, Track, WakersInv, QueueInv, SetsInv, Numbers, ReturnedInv;
    LocalOf(s, a.b);
    RestOf(s);
    if a.StartWait? {
      MoveKeepsInv(s, s, a.b, Some(TryLoad(a.block)));
    } else {
      MoveKeepsInv(s, s.(tally := s.tally.(posts := s.tally.posts + 1)), a.b, Some(Post(false)));
    }
  }

  lemma TryAgainKeepsInv(s: State, b: Id, seen: int, block: bool)
    requires Inv(s) && b in s.calls && (s.calls[b].TryLoad? || s.calls[b].TryCas?)
    ensures Inv(TryAgain(s, b, seen, block))
  {
    hide Inv, Goto, End, Track, WakersInv, QueueInv, SetsInv, Numbers, ReturnedInv;
    LocalOf(s, b);
    RestOf(s);
    if seen > 0 { MoveKeepsInv(s, s, b, Some(TryCas(seen, block))); }
    else if block { MoveKeepsInv(s, s, b, Some(Enqueue)); }
    else { MoveKeepsInv(s, s, b, None); }
  }

  lemma TryCasKeepsInv(s: State, b: Id, seen: int, block: bool)
    requires Inv(s) && b in s.calls && s.calls[b] == TryCas(seen, block)
    ensures Inv(TryCasNext(s, b, seen, block))
  {
    hide Inv, Goto, End, Track, WakersInv, QueueInv, SetsInv, Numbers, ReturnedInv;
    if s.sem.cnt == seen {
      LocalOf(s, b);
      RestOf(s);
      MoveKeepsInv(s, Succeed(SetCnt(s, seen - 1)), b, None);
    } else {
      TryAgainKeepsInv(s, b, s.sem.cnt, block);
    }
  }

  lemma DecrementKeepsInv(s: State, b: Id)
    requires Inv(s) && b in s.calls && s.calls[b].Decrement?
    ensures Inv(DecrementNext(s, b))
  {
    hide Inv, Goto, End, Track, WakersInv, QueueInv, SetsInv, Numbers, ReturnedInv;
    LocalOf(s, b);
    RestOf(s);
    MoveKeepsInv(s, SetCnt(s, s.sem.cnt - 1), b, Some(if s.sem.cnt > 0 then Pop(true) else Park));
  }

  lemma PostKeepsInv(s: State, b: Id, park: bool)
    requires Inv(s) && b in s.calls && s.calls[b] == Post(park)
    ensures Inv(PostNext(s, b, park))
  {
    hide Inv, Goto, End, Track, WakersInv, QueueInv, SetsInv, Numbers, ReturnedInv;
    LocalOf(s, b);
    RestOf(s);
    var s1 := SetCnt(s, s.sem.cnt + 1);
    if s.sem.cnt < 0 { MoveKeepsInv(s, s1, b, Some(Pop(park))); }
    else { MoveKeepsInv(s, s1, b, if park then Some(Park) else None); }
  }

  // ---------------------------------------------------------------- timeouts and cancels

  lemma SettleReturned(s: State, b: Id, f: Fate)
    requires ReturnedInv(s.hist.fate, s.hist.returned, s.hist.stage) && b in s.hist.stage && b !in s.hist.fate
    ensures var s1 := Settle(s, b, f); ReturnedInv(s1.hist.fate, s1.hist.returned, s1.hist.stage)
  {
  }

  lemma SettleOwn(s: State, b: Id, f: Fate)
    requires b in s.sets.granted
    ensures OwnChange(s, Settle(s, b, f), b) && |Settle(s, b, f).sets.granted| == |s.sets.granted| - 1
  {
  }

  /** A call with a permit granted to it ends its wait one way or the other. */
  lemma SettleKeepsInv(s: State, b: Id, fl: Flags, f: Fate, ph: Option<Phase>)
    requires Inv(s) && b in s.calls && !Wakes(s.calls[b]) && b in s.hist.stage && b in s.sets.granted
    requires b !in s.hist.fate
    requires !IsCarrying(Some(s.calls[b])) && !s.calls[b].Decrement?
    requires if f == Owned then ph == None else ph == Some(Post(false))
    requires Local(Get(s.hist.stage, b), Some(fl), ph, Some(f), false)
    ensures f == Owned ==> Inv(End(Succeed(Settle(SetFlags(s, b, fl), b, f)), b))
    ensures f == Returned ==> Inv(Goto(Settle(SetFlags(s, b, fl), b, f), b, Post(false)))
  {
    hide Inv, Goto, End, Track, Local, WakersInv, QueueInv, SetsInv, Numbers, ReturnedInv, Settle, IsUncounted,
        IsPopping;
    RestOf(s);
    var s1 := SetFlags(s, b, fl);
    SettleReturned(s1, b, f);
    SettleOwn(s1, b, f);
    SettleEffect(s1, b, f);
    NotCounted(s.calls[b]);
    NotCounted(Post(false));
    var s2 := if f == Owned then Succeed(Settle(s1, b, f)) else Settle(s1, b, f);
    forall x | x != b
      ensures SameAt(s, s2, x)
    {
      assert SameAt(s1, Settle(s1, b, f), x);
    }
    MoveKeepsInv(s, s2, b, ph);
  }

  lemma NotCounted(ph: Phase)
    ensures !ph.Pop? && !ph.Decrement? ==> QueueShare(Some(ph)) == 0
    ensures QueueShare(None) == 0
  {
  }

  lemma SettleEffect(s: State, b: Id, f: Fate)
    ensures var s1 := Settle(s, b, f);
      s1.sem == s.sem && s1.tally == s.tally && s1.calls == s.calls && s1.hist.stage == s.hist.stage
    ensures var s1 := Settle(s, b, f); b !in s1.sets.granted && b in s1.hist.fate && s1.hist.fate[b] == f
  {
  }

  lemma ParkKeepsInv(s: State, b: Id, fail: bool)
    requires Inv(s) && Enabled(s, Next(b, fail)) && s.calls[b].Park?
    ensures Inv(ParkNext(s, b, fail))
  {
    hide Inv, Goto, End, Track, WakersInv, QueueInv, SetsInv, Numbers, ReturnedInv;
    LocalOf(s, b);
    RestOf(s);
    if fail {
      MoveKeepsInv(s, s, b, Some(CheckUnparked));
    } else {
      SettleKeepsInv(s, b, s.sem.flags[b].(token := false), Owned, None);
    }
  }

  lemma CheckUnparkedKeepsInv(s: State, b: Id)
    requires Inv(s) && b in s.calls && s.calls[b].CheckUnparked? && b in s.sem.flags
    ensures Inv(CheckUnparkedNext(s, b))
  {
    hide Inv, Goto, End, Track, WakersInv, QueueInv, SetsInv, Numbers, ReturnedInv;
    LocalOf(s, b);
    RestOf(s);
    if s.sem.flags[b].unparked {
      assert s.sem.flags[b := s.sem.flags[b]] == s.sem.flags;
      SettleKeepsInv(s, b, s.sem.flags[b], Returned, Some(Post(false)));
    } else {
      MoveKeepsInv(s, s, b, Some(SetRelease));
    }
  }

  lemma SetReleaseKeepsInv(s: State, b: Id)
    requires Inv(s) && b in s.calls && s.calls[b].SetRelease? && b in s.sem.flags
    ensures Inv(Goto(SetFlags(s, b, s.sem.flags[b].(release := true)), b, Recheck))
  {
    hide Inv, Goto, End, Track, WakersInv, QueueInv, SetsInv, Numbers, ReturnedInv;
    LocalOf(s, b);
    RestOf(s);
    MoveKeepsInv(s, SetFlags(s, b, s.sem.flags[b].(release := true)), b, Some(Recheck));
  }

  lemma RecheckKeepsInv(s: State, b: Id)
    requires Inv(s) && b in s.calls && s.calls[b].Recheck? && b in s.sem.flags
    ensures s.sem.flags[b].unparked ==> Inv(Goto(s, b, TakeRelease))
    ensures !s.sem.flags[b].unparked ==> Inv(End(s, b))
  {
    hide Inv, Goto, End, Track, WakersInv, QueueInv, SetsInv, Numbers, ReturnedInv;
    LocalOf(s, b);
    RestOf(s);
    MoveKeepsInv(s, s, b, if s.sem.flags[b].unparked then Some(TakeRelease) else None);
  }

  lemma TakeReleaseKeepsInv(s: State, b: Id)
    requires Inv(s) && b in s.calls && s.calls[b].TakeRelease? && b in s.sem.flags
    ensures Inv(TakeReleaseNext(s, b))
  {
    hide Inv, Goto, End, Track, WakersInv, QueueInv, SetsInv, Numbers, ReturnedInv;
    LocalOf(s, b);
    RestOf(s);
    var s1 := SetFlags(s, b, s.sem.flags[b].(release := false));
    if s.sem.flags[b].release {
      SettleKeepsInv(s, b, s.sem.flags[b].(release := false), Returned, Some(Post(false)));
    } else {
      MoveKeepsInv(s, s1, b, None);
    }
  }

  // ---------------------------------------------------------------- the list and the wakers

  lemma EnqueueKeepsInv(s: State, b: Id)
    requires Inv(s) && b in s.calls && s.calls[b].Enqueue?
    ensures Inv(EnqueueNext(s, b))
  {
    hide Inv, Goto, End, Track, WakersInv, QueueInv, SetsInv, Numbers, ReturnedInv;
    LocalOf(s, b);
    RestOf(s);
    EnqueueWakers(s.calls, s.hist.stage, b);
    EnqueueQueue(s.sem.queue, s.hist.stage, b);
    var flags := s.sem.flags[b := Flags(false, false, false)];
    var s1 := SetStage(s.(sem := s.sem.(queue := s.sem.queue + [b], flags := flags)), b, Waiting);
    StageReturned(s, b, Waiting);
    PairKeepsInv(s, s1, b, b, Some(Decrement));
  }

  lemma StageReturned(s: State, w: Id, st: Stage)
    requires ReturnedInv(s.hist.fate, s.hist.returned, s.hist.stage)
    ensures ReturnedInv(s.hist.fate, s.hist.returned, s.hist.stage[w := st])
  {
  }

  lemma EnqueueWakers(calls: map<Id, Phase>, stage: map<Id, Stage>, b: Id)
    requires WakersInv(calls, stage) && b in calls && !Wakes(calls[b]) && b !in stage
    ensures WakersInv(calls[b := Decrement], stage[b := Waiting])
  {
  }

  lemma EnqueueQueue(queue: seq<Id>, stage: map<Id, Stage>, b: Id)
    requires QueueInv(queue, stage) && b !in stage
    ensures QueueInv(queue + [b], stage[b := Waiting])
  {
    assert b !in queue;
  }

  /** A wake-up finds a blocker in the list, whoever has or has not counted itself yet. */
  lemma PopFindsWaiter(s: State, b: Id)
    requires Inv(s) && b in s.calls && s.calls[b].Pop?
    ensures s.sem.queue != [] && s.sem.queue[0] in s.hist.stage && s.hist.stage[s.sem.queue[0]] == Waiting
  {
    hide LocalAt, WakersInv, ReturnedInv;
    assert b in s.sets.popping;
    assert s.sem.queue[0] in s.sem.queue;
  }

  lemma PopWakers(calls: map<Id, Phase>, stage: map<Id, Stage>, b: Id, w: Id, park: bool)
    requires WakersInv(calls, stage) && b in calls && !Wakes(calls[b]) && w in stage && stage[w] == Waiting
    ensures WakersInv(calls[b := Unpark(w, park)], stage[w := Popped(b)])
  {
  }

  lemma PopQueue(queue: seq<Id>, stage: map<Id, Stage>, b: Id)
    requires QueueInv(queue, stage) && queue != []
    ensures QueueInv(queue[1..], stage[queue[0] := Popped(b)])
  {
    forall x | x in queue && x != queue[0]
      ensures x in queue[1..]
    {
      var i :| 0 <= i < |queue| && queue[i] == x;
      assert queue[1..][i - 1] == x;
    }
  }

  lemma PopKeepsInv(s: State, b: Id, park: bool)
    requires Inv(s) && b in s.calls && s.calls[b] == Pop(park)
    ensures Inv(PopNext(s, b, park))
  {
    hide Inv, Goto, End, Track, WakersInv, QueueInv, SetsInv, Numbers, ReturnedInv;
    PopFindsWaiter(s, b);
    var w := s.sem.queue[0];
    LocalOf(s, b);
    LocalOf(s, w);
    RestOf(s);
    PopQueue(s.sem.queue, s.hist.stage, b);
    PopWakers(s.calls, s.hist.stage, b, w, park);
    StageReturned(s, w, Popped(b));
    var s1 := SetStage(s.(sem := s.sem.(queue := s.sem.queue[1..])), w, Popped(b));
    PairKeepsInv(s, s1, b, w, Some(Unpark(w, park)));
  }

  lemma UnparkWakers(calls: map<Id, Phase>, stage: map<Id, Stage>, b: Id, w: Id, park: bool)
    requires WakersInv(calls, stage) && b in calls && calls[b] == Unpark(w, park)
    ensures WakersInv(calls[b := Mark(w, park)], stage[w := Handed(b)])
  {
    assert Target(stage, b, calls[b]);
  }

  lemma MarkWakers(calls: map<Id, Phase>, stage: map<Id, Stage>, b: Id, w: Id, park: bool)
    requires WakersInv(calls, stage) && b in calls && calls[b] == Mark(w, park)
    ensures WakersInv(calls[b := Take(w, park)], stage[w := Marked(b)])
  {
    assert Target(stage, b, calls[b]);
  }

  lemma TakeWakers(calls: map<Id, Phase>, stage: map<Id, Stage>, b: Id, w: Id, park: bool, ph: Phase)
    requires WakersInv(calls, stage) && b in calls && calls[b] == Take(w, park) && !Wakes(ph)
    ensures WakersInv(calls[b := ph], stage[w := Finished])
    ensures WakersInv(calls - {b}, stage[w := Finished])
  {
    assert Target(stage, b, calls[b]);
  }

  lemma StageQueue(queue: seq<Id>, stage: map<Id, Stage>, w: Id, st: Stage)
    requires QueueInv(queue, stage) && w in stage && stage[w] != Waiting && st != Waiting
    ensures QueueInv(queue, stage[w := st])
  {
  }

  lemma UnparkKeepsInv(s: State, b: Id, w: Id, park: bool)
    requires Inv(s) && b in s.calls && s.calls[b] == Unpark(w, park) && w in s.sem.flags
    ensures Inv(UnparkNext(s, b, w, park))
  {
    hide Inv, Goto, End, Track, WakersInv, QueueInv, SetsInv, Numbers, ReturnedInv;
    TargetOf(s, b);
    LocalOf(s, b);
    LocalOf(s, w);
    RestOf(s);
    StageQueue(s.sem.queue, s.hist.stage, w, Handed(b));
    UnparkWakers(s.calls, s.hist.stage, b, w, park);
    StageReturned(s, w, Handed(b));
    var s1 := Grant(SetStage(SetFlags(s, w, s.sem.flags[w].(token := true)), w, Handed(b)), w);
    PairKeepsInv(s, s1, b, w, Some(Mark(w, park)));
  }

  lemma MarkKeepsInv(s: State, b: Id, w: Id, park: bool)
    requires Inv(s) && b in s.calls && s.calls[b] == Mark(w, park) && w in s.sem.flags
    ensures Inv(MarkNext(s, b, w, park))
  {
    hide Inv, Goto, End, Track, WakersInv, QueueInv, SetsInv, Numbers, ReturnedInv;
    TargetOf(s, b);
    LocalOf(s, b);
    LocalOf(s, w);
    RestOf(s);
    StageQueue(s.sem.queue, s.hist.stage, w, Marked(b));
    MarkWakers(s.calls, s.hist.stage, b, w, park);
    StageReturned(s, w, Marked(b));
    var s1 := SetStage(SetFlags(s, w, s.sem.flags[w].(unparked := true)), w, Marked(b));
    PairKeepsInv(s, s1, b, w, Some(Take(w, park)));
  }

  lemma TakeNothing(s: State, b: Id, w: Id, park: bool)
    requires Inv(s) && b in s.calls && s.calls[b] == Take(w, park) && w in s.sem.flags && !s.sem.flags[w].release
    ensures Inv(TakeNext(s, b, w, park))
  {
    hide Inv, Goto, End, Track, WakersInv, QueueInv, SetsInv, Numbers, ReturnedInv;
    TargetOf(s, b);
    LocalOf(s, b);
    LocalOf(s, w);
    RestOf(s);
    StageQueue(s.sem.queue, s.hist.stage, w, Finished);
    TakeWakers(s.calls, s.hist.stage, b, w, park, Park);
    StageReturned(s, w, Finished);
    var s1 := SetStage(SetFlags(s, w, s.sem.flags[w].(release := false)), w, Finished);
    PairKeepsInv(s, s1, b, w, if park then Some(Park) else None);
  }

  lemma TakeBack(s: State, b: Id, w: Id, park: bool)
    requires Inv(s) && b in s.calls && s.calls[b] == Take(w, park) && w in s.sem.flags && s.sem.flags[w].release
    ensures Inv(TakeNext(s, b, w, park))
  {
    hide Inv, Goto, End, Track, WakersInv, QueueInv, SetsInv, Numbers, ReturnedInv;
    TargetOf(s, b);
    LocalOf(s, b);
    LocalOf(s, w);
    RestOf(s);
    StageQueue(s.sem.queue, s.hist.stage, w, Finished);
    TakeWakers(s.calls, s.hist.stage, b, w, park, Post(park));
    var s1 := SetStage(SetFlags(s, w, s.sem.flags[w].(release := false)), w, Finished);
    StageReturned(s, w, Finished);
    SettleReturned(s1, w, Returned);
    PairKeepsInv(s, Settle(s1, w, Returned), b, w, Some(Post(park)));
  }

  // ---------------------------------------------------------------- every step, every run

  lemma CallKeepsInv(s: State, b: Id, fail: bool)
    requires Inv(s) && Enabled(s, Next(b, fail))
    ensures Inv(CallNext(s, b, fail))
  {
    hide Inv, Goto, End, TryAgain, TryCasNext, EnqueueNext, DecrementNext, ParkNext, CheckUnparkedNext, TakeReleaseNext;
    hide PostNext, PopNext, UnparkNext, MarkNext, TakeNext;
    match s.calls[b]
    case TryLoad(block) => TryAgainKeepsInv(s, b, s.sem.cnt, block);
    case TryCas(seen, block) => TryCasKeepsInv(s, b, seen, block);
    case Enqueue => EnqueueKeepsInv(s, b);
    case Decrement => DecrementKeepsInv(s, b);
    case Park => ParkKeepsInv(s, b, fail);
    case CheckUnparked => CheckUnparkedKeepsInv(s, b);
    case SetRelease => SetReleaseKeepsInv(s, b);
    case Recheck => RecheckKeepsInv(s, b);
    case TakeRelease => TakeReleaseKeepsInv(s, b);
    case Post(park) => PostKeepsInv(s, b, park);
    case Pop(park) => PopKeepsInv(s, b, park);
    case Unpark(w, park) => UnparkKeepsInv(s, b, w, park);
    case Mark(w, park) => MarkKeepsInv(s, b, w, park);
    case Take(w, park) => if s.sem.flags[w].release { TakeBack(s, b, w, park); } else { TakeNothing(s, b, w, park); }
  }

  lemma StepKeepsInv(s: State, a: Action)
    requires Inv(s) && Enabled(s, a)
    ensures Inv(Step(s, a))
  {
    hide Inv, CallNext;
    if a.Next? { CallKeepsInv(s, a.b, a.fail); } else { StartKeepsInv(s, a); }
  }

  lemma NewInv(initial: nat)
    ensures Inv(New(initial))
  {
  }

  lemma {:induction false} RunInv(r: seq<State>, acts: seq<Action>, i: nat)
    requires Run(r, acts) && i < |r|
    ensures Inv(r[i])
  {
    hide Inv, Step, Enabled;
    if i == 0 {
      NewInv(r[0].tally.initial);
    } else {
      RunInv(r, acts, i - 1);
      StepKeepsInv(r[i - 1], acts[i - 1]);
    }
  }

  // ---------------------------------------------------------------- what the semaphore promises

  /**
   No permit is lost or made up, whatever timed out or was cancelled, and the list holds exactly the uncounted and
   the owed.
   */
  lemma PermitsConserved(r: seq<State>, acts: seq<Action>, i: nat)
    requires Run(r, acts) && i < |r|
    ensures var s := r[i];
      && s.tally.initial + s.tally.posts == s.tally.taken + Pos(s.sem.cnt) + |s.sets.carrying| + |s.sets.granted|
      && |s.sem.queue| == |s.sets.uncounted| + |s.sets.popping| + Pos(-s.sem.cnt)
      && s.tally.taken <= s.tally.initial + s.tally.posts && s.sem.cnt <= s.tally.initial + s.tally.posts
    ensures forall b :: b in r[i].sets.carrying <==> b in r[i].calls && Carries(r[i].calls[b])
    ensures forall b :: b in r[i].sets.popping <==> b in r[i].calls && r[i].calls[b].Pop?
    ensures forall b :: b in r[i].sets.uncounted <==> b in r[i].calls && r[i].calls[b].Decrement?
    ensures forall b :: b in r[i].sets.granted <==> HandedUnsettled(r[i], b)
  {
    hide Inv;
    RunInv(r, acts, i);
    RestOf(r[i]);
    forall b
      ensures b in r[i].sets.granted <==> HandedUnsettled(r[i], b)
    {
      LocalOf(r[i], b);
    }
  }

  /** A waker has set the token of this blocker, and its permit was neither used nor posted again yet. */
  predicate HandedUnsettled(s: State, b: Id) {
    && b in s.hist.stage && b !in s.hist.fate
    && (s.hist.stage[b].Handed? || s.hist.stage[b].Marked? || s.hist.stage[b].Finished?)
  }

  /** Every blocker a call reads or writes has been made. */
  lemma BlockersAreThere(s: State, b: Id)
    requires Inv(s) && b in s.calls
    ensures FlagsThere(s, b, s.calls[b])
  {
    hide Inv;
    LocalOf(s, b);
    TargetOf(s, b);
    if Wakes(s.calls[b]) { LocalOf(s, s.calls[b].w); }
  }

  /** "got null blocker!" never fires. */
  lemma WakeupFindsBlocker(r: seq<State>, acts: seq<Action>, i: nat, b: Id)
    requires Run(r, acts) && i < |r| && b in r[i].calls
    ensures r[i].calls[b].Pop? ==> r[i].sem.queue != []
    ensures !r[i].calls[b].NullBlocker?
  {
    hide Inv;
    RunInv(r, acts, i);
    LocalOf(r[i], b);
    if r[i].calls[b].Pop? { PopFindsWaiter(r[i], b); }
  }

  /**
   A permit handed to a blocker is with a call that is still running, or with a waker that will find the release
   flag.
   */
  lemma GrantedIsAnswered(s: State, x: Id)
    requires Inv(s) && x in s.sets.granted
    ensures x in s.hist.stage && x in s.sem.flags && x !in s.hist.fate
    ensures x in s.calls || (s.sem.flags[x].release && (s.hist.stage[x].Handed? || s.hist.stage[x].Marked?))
    ensures s.hist.stage[x].Handed? || s.hist.stage[x].Marked? ==>
      s.hist.stage[x].waker in s.calls && Wakes(s.calls[s.hist.stage[x].waker]) && s.calls[s.hist.stage[x].waker].w == x
  {
    hide Inv;
    LocalOf(s, x);
    RestOf(s);
    assert Waker(s.calls, x, s.hist.stage[x]);
  }

  /** A wait that was handed a permit ends in exactly one way, once, and only then. */
  lemma SettledOnce(s: State, a: Action, x: Id)
    requires Inv(s) && Enabled(s, a)
    ensures x in s.hist.fate ==> x in Step(s, a).hist.fate && Step(s, a).hist.fate[x] == s.hist.fate[x]
  {
    hide Inv, Track;
    LocalOf(s, x);
    if a.Next? {
      LocalOf(s, a.b);
      TargetOf(s, a.b);
    }
  }

  /**
   With nothing at work the value is what was put in minus what was taken out; the list holds only abandoned
   blockers, all counted.
   */
  lemma QuietSemaphore(s: State)
    requires Inv(s) && s.calls == map[]
    ensures Pos(s.sem.cnt) == s.tally.initial + s.tally.posts - s.tally.taken
    ensures |s.sem.queue| == Pos(-s.sem.cnt)
  {
    hide LocalAt, QueueInv, ReturnedInv;
    assert s.sets.granted == {} by {
      if x :| x in s.sets.granted { GrantedIsAnswered(s, x); }
    }
    assert s.sets.carrying == {} && s.sets.popping == {} && s.sets.uncounted == {};
  }

  /** Calls of `post` made on behalf of abandoned waits, each for a blocker of its own. */
  lemma RepostsAreBounded(s: State)
    requires Inv(s)
    ensures s.hist.returned <= s.hist.stage.Keys
    ensures |s.hist.returned| <= |s.hist.stage|
  {
    hide LocalAt, WakersInv, QueueInv, SetsInv, Numbers;
    SubsetSize(s.hist.returned, s.hist.stage.Keys);
  }

  lemma {:induction false} SubsetSize(a: set<Id>, b: set<Id>)
    requires a <= b
    ensures |a| <= |b|
  {
    if x :| x in a {
      SubsetSize(a - {x}, b - {x});
    }
  }

  /** Blockers that may still send a waker round the post and wakeup_one recursion once more. */
  function RecursionsLeft(s: State): int { |s.hist.stage| - |s.hist.returned| }

  /**
   The recursion of post and wakeup_one ends: going round again uses up a blocker for good,
       and only a new wait adds one.
   */
  lemma RecursionEnds(s: State, a: Action)
    requires Inv(s) && Enabled(s, a)
    ensures RecursionsLeft(s) >= 0
    ensures a.Next? && s.calls[a.b].Take? && a.b in Step(s, a).calls && Step(s, a).calls[a.b].Post? ==>
      RecursionsLeft(Step(s, a)) < RecursionsLeft(s)
    ensures RecursionsLeft(Step(s, a)) > RecursionsLeft(s) ==> a.Next? && s.calls[a.b].Enqueue?
  {
    hide Inv, CallNext;
    RepostsAreBounded(s);
    if a.Next? {
      if s.calls[a.b].Take? { TakeMeasure(s, a.b, s.calls[a.b].w, s.calls[a.b].park, a.fail); }
      else if Wakes(s.calls[a.b]) || s.calls[a.b].Pop? { WakerMeasure(s, a.b, a.fail); }
      else if !s.calls[a.b].Enqueue? { OwnMeasure(s, a.b, a.fail); }
    }
  }

  lemma TakeMeasure(s: State, b: Id, w: Id, park: bool, fail: bool)
    requires Inv(s) && Enabled(s, Next(b, fail)) && s.calls[b] == Take(w, park)
    ensures RecursionsLeft(CallNext(s, b, fail)) <= RecursionsLeft(s)
    ensures b in CallNext(s, b, fail).calls && CallNext(s, b, fail).calls[b].Post? ==>
      RecursionsLeft(CallNext(s, b, fail)) < RecursionsLeft(s)
  {
    hide Inv, Track, ReturnedInv, Put;
    TargetOf(s, b);
    LocalOf(s, w);
    RestOf(s);
    StageKeys(s.hist.stage, w, Finished);
    ReturnedGrows(s, w);
  }

  lemma WakerMeasure(s: State, b: Id, fail: bool)
    requires Inv(s) && Enabled(s, Next(b, fail)) && (s.calls[b].Pop? || s.calls[b].Unpark? || s.calls[b].Mark?)
    ensures RecursionsLeft(CallNext(s, b, fail)) == RecursionsLeft(s)
  {
    hide Inv, Track, ReturnedInv;
    TargetOf(s, b);
    match s.calls[b]
    case Pop(park) => PopFindsWaiter(s, b); StageKeys(s.hist.stage, s.sem.queue[0], Popped(b));
    case Unpark(w, park) => StageKeys(s.hist.stage, w, Handed(b));
    case Mark(w, park) => StageKeys(s.hist.stage, w, Marked(b));
  }

  lemma OwnMeasure(s: State, b: Id, fail: bool)
    requires Inv(s) && Enabled(s, Next(b, fail)) && !Wakes(s.calls[b]) && !s.calls[b].Pop? && !s.calls[b].Enqueue?
    ensures RecursionsLeft(CallNext(s, b, fail)) <= RecursionsLeft(s)
  {
    hide Inv, Track, ReturnedInv, Put;
    LocalOf(s, b);
    RestOf(s);
    ReturnedGrows(s, b);
  }

  lemma StageKeys(stage: map<Id, Stage>, w: Id, st: Stage)
    requires w in stage
    ensures |stage[w := st]| == |stage|
  {
    assert stage[w := st].Keys == stage.Keys;
  }

  lemma ReturnedGrows(s: State, w: Id)
    requires ReturnedInv(s.hist.fate, s.hist.returned, s.hist.stage)
    ensures w !in s.hist.fate ==> |Put(s.hist.returned, w, true)| == |s.hist.returned| + 1
    ensures w !in s.hist.fate ==> |Put(s.hist.returned, w, false)| == |s.hist.returned|
  {
  }
}
