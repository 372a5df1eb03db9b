/** What every step of the mutex protocol keeps, and what that means for its users. */
module MutexProof {
  import opened Common
  import opened MutexSteps

  // ---------------------------------------------------------------- invariant

  /** Phases in which a call carries the lock itself. */
  predicate Carries(ph: Phase) {
    ph.Guard? || ph.Unlock? || ph.Pop? || ph.Unpark?
  }

  /** Phases after the push in which the call still has its park ahead. */
  predicate ParksLater(ph: Phase) {
    match ph
    case Increment => true
    case Park => true
    case Unlock(park) => park
    case Pop(park) => park
    case Unpark(_, park) => park
    case Mark(_, park) => park
    case Take(_, park) => park
    case _ => false
  }

  /** Phases of a call that has its answer: it owns the lock, or is handing it on. */
  predicate Leaves(ph: Phase) {
    match ph
    case Guard => true
    case Unlock(park) => !park
    case Pop(park) => !park
    case Unpark(_, park) => !park
    case Mark(_, park) => !park
    case Take(_, park) => !park
    case _ => false
  }

  /** A call that never pushed a blocker. */
  predicate NeverPushed(fl: Option<Flags>, ph: Option<Phase>, fate: Option<Fate>, mine: bool) {
    && fl == None && fate == None
    && match ph
       case None => !mine
       case Some(p) =>
         && (p.TryLoad? || p.TryCas? || p.Enqueue? || Leaves(p))
         && (mine <==> Carries(p))
  }

  /** A blocker that has not been handed the lock. */
  predicate NotHanded(fl: Flags, ph: Option<Phase>, fate: Option<Fate>, mine: bool) {
    && !fl.token && !fl.unparked && fate == None
    && match ph
       case None => fl.release && !mine
       case Some(p) =>
         && (ParksLater(p) || p.CheckUnparked? || p.SetRelease? || p.Recheck?)
         && (mine <==> Carries(p))
         && (fl.release <==> p.Recheck?)
  }

  /** A blocker that was handed the lock; `wakerLeft` says its waker is past the handshake. */
  predicate WasHanded(fl: Flags, ph: Option<Phase>, fate: Option<Fate>, mine: bool, wakerLeft: bool) {
    match ph
    case None =>
      // cancelled before the hand-off: the waker will find the release flag; or all is settled
      if fl.release then mine && !wakerLeft && fate == None else !mine && fate.Some?
    case Some(p) =>
      if ParksLater(p) then fl.token && !fl.release && mine && !Carries(p) && fate == None
      else if p.CheckUnparked? || p.SetRelease? then !fl.release && mine && fate == None
      else if p.Recheck? || p.TakeRelease? then
        && (p.TakeRelease? ==> fl.unparked)
        && (if fl.release then mine && fate == None else !mine && wakerLeft && fate == Some(Returned))
      else Leaves(p) && !fl.release && (mine <==> Carries(p)) && fate.Some? && (p.Guard? ==> fate == Some(Owned))
  }

  /** Everything about one id. */
  predicate Local(st: Option<Stage>, fl: Option<Flags>, ph: Option<Phase>, fate: Option<Fate>, mine: bool) {
    match st
    case None => NeverPushed(fl, ph, fate, mine)
    case Some(stage) =>
      && fl.Some?
      && match stage
         case Waiting => NotHanded(fl.value, ph, fate, mine)
         case Popped(_) => NotHanded(fl.value, ph, fate, mine)
         case Handed(_) => !fl.value.unparked && WasHanded(fl.value, ph, fate, mine, false)
         case Marked(_) => fl.value.unparked && WasHanded(fl.value, ph, fate, mine, false)
         case Finished => fl.value.unparked && WasHanded(fl.value, ph, fate, mine, true)
  }

  predicate LocalAt(s: State, x: Id) {
    Local(Get(s.hist.stage, x), Get(s.lock.flags, x), Get(s.calls, x), Get(s.hist.fate, x), s.hist.holder == Some(x))
  }

  /** A blocker that is being woken, and the phase of the call that wakes it. */
  predicate Waker(calls: map<Id, Phase>, w: Id, st: Stage) {
    match st
    case Popped(c) => c in calls && calls[c].Unpark? && calls[c].w == w
    case Handed(c) => c in calls && calls[c].Mark? && calls[c].w == w
    case Marked(c) => c in calls && calls[c].Take? && calls[c].w == w
    case _ => true
  }

  predicate Target(stage: map<Id, Stage>, c: Id, ph: Phase) {
    match ph
    case Unpark(w, _) => w in stage && stage[w] == Popped(c)
    case Mark(w, _) => w in stage && stage[w] == Handed(c)
    case Take(w, _) => w in stage && stage[w] == Marked(c)
    case _ => true
  }

  ghost predicate WakersInv(calls: map<Id, Phase>, stage: map<Id, Stage>) {
    && (forall w :: w in stage ==> Waker(calls, w, stage[w]))
    && (forall c :: c in calls ==> Target(stage, c, calls[c]))
  }

  ghost predicate QueueInv(queue: seq<Id>, stage: map<Id, Stage>) {
    && (forall i, j :: 0 <= i < j < |queue| ==> queue[i] != queue[j])
    && (forall w :: w in queue <==> w in stage && stage[w] == Waiting)
  }

  /** The lock is with a call that has won it and is about to take a waiter for it. */
  predicate AboutToPop(calls: map<Id, Phase>, holder: Option<Id>) {
    holder.Some? && holder.value in calls && calls[holder.value].Pop?
  }

  /** Waiters plus the lock itself, counted. */
  ghost predicate CountInv(cnt: int, queue: seq<Id>, calls: map<Id, Phase>, holder: Option<Id>, uncounted: set<Id>) {
    && cnt >= 0 && (cnt > 0 <==> holder.Some?)
    && cnt + |uncounted| == |queue| + (if holder == None || AboutToPop(calls, holder) then 0 else 1)
    && (forall b :: b in uncounted <==> b in calls && calls[b] == Increment)
  }

  ghost predicate Inv(s: State) {
    && (forall x :: LocalAt(s, x))
    && WakersInv(s.calls, s.hist.stage)
    && QueueInv(s.lock.queue, s.hist.stage)
    && CountInv(s.lock.cnt, s.lock.queue, s.calls, s.hist.holder, s.hist.uncounted)
  }

  // ---------------------------------------------------------------- steps

  /** Ids a step does not name keep everything of theirs. */
  predicate SameAt(s: State, s': State, x: Id) {
    && Get(s'.hist.stage, x) == Get(s.hist.stage, x) && Get(s'.lock.flags, x) == Get(s.lock.flags, x)
    && Get(s'.calls, x) == Get(s.calls, x) && Get(s'.hist.fate, x) == Get(s.hist.fate, x)
    && (s'.hist.holder == Some(x) <==> s.hist.holder == Some(x))
  }

  lemma LocalFrame(s: State, s': State, b: Id, w: Id)
    requires forall x :: LocalAt(s, x)
    requires LocalAt(s', b) && LocalAt(s', w)
    requires forall x :: x != b && x != w ==> SameAt(s, s', x)
    ensures forall x :: LocalAt(s', x)
  {
    hide Local;
    forall x | x != b && x != w
      ensures LocalAt(s', x)
    {
      assert SameAt(s, s', x) && LocalAt(s, x);
    }
  }

  /** The three global parts of the invariant. */
  ghost predicate Rest(s: State) {
    && WakersInv(s.calls, s.hist.stage)
    && QueueInv(s.lock.queue, s.hist.stage)
    && CountInv(s.lock.cnt, s.lock.queue, s.calls, s.hist.holder, s.hist.uncounted)
  }

  lemma Assemble(s: State, s': State, b: Id, w: Id)
    requires Inv(s) && LocalAt(s', b) && LocalAt(s', w) && Rest(s')
    requires forall x :: x != b && x != w ==> SameAt(s, s', x)
    ensures Inv(s')
  {
    hide Local, LocalAt, SameAt, WakersInv, QueueInv, CountInv;
    LocalFrame(s, s', b, w);
  }

  /** What one call knows of itself and of the blocker it is waking. */
  lemma CallFacts(s: State, b: Id)
    requires Inv(s) && b in s.calls
    ensures LocalAt(s, b) && Target(s.hist.stage, b, s.calls[b])
    ensures s.hist.holder == Some(b) ==> s.lock.cnt > 0
    ensures Carries(s.calls[b]) ==> s.hist.holder == Some(b)
  {
    hide QueueInv;
    assert LocalAt(s, b);
  }

  lemma LocalOf(s: State, x: Id)
    requires Inv(s)
    ensures LocalAt(s, x)
  {
    hide LocalAt, WakersInv, QueueInv, CountInv;
  }

  lemma RestOf(s: State)
    requires Inv(s)
    ensures Rest(s)
  {
    hide LocalAt, WakersInv, QueueInv, CountInv;
  }

  // A call that is not waking anyone moves to a phase in which it is not waking anyone.

  predicate Wakes(ph: Phase) { ph.Unpark? || ph.Mark? || ph.Take? }

  lemma WakersMove(calls: map<Id, Phase>, stage: map<Id, Stage>, b: Id, ph: Phase)
    requires WakersInv(calls, stage) && (b in calls ==> !Wakes(calls[b])) && !Wakes(ph)
    ensures WakersInv(calls[b := ph], stage) && WakersInv(calls - {b}, stage)
  {
  }

  lemma WakersPop(calls: map<Id, Phase>, stage: map<Id, Stage>, b: Id, w: Id, park: bool)
    requires WakersInv(calls, stage) && b in calls && !Wakes(calls[b]) && w in stage && stage[w] == Waiting
    ensures WakersInv(calls[b := Unpark(w, park)], stage[w := Popped(b)])
  {
  }

  lemma WakersUnpark(calls: map<Id, Phase>, stage: map<Id, Stage>, b: Id, w: Id, park: bool)
    requires WakersInv(calls, stage) && b in calls && calls[b] == Unpark(w, park)
    ensures WakersInv(calls[b := Mark(w, park)], stage[w := Handed(b)])
  {
    assert Target(stage, b, calls[b]);
  }

  lemma WakersMark(calls: map<Id, Phase>, stage: map<Id, Stage>, b: Id, w: Id, park: bool)
    requires WakersInv(calls, stage) && b in calls && calls[b] == Mark(w, park)
    ensures WakersInv(calls[b := Take(w, park)], stage[w := Marked(b)])
  {
    assert Target(stage, b, calls[b]);
  }

  lemma WakersTake(calls: map<Id, Phase>, stage: map<Id, Stage>, b: Id, w: Id, park: bool, ph: Phase)
    requires WakersInv(calls, stage) && b in calls && calls[b] == Take(w, park) && !Wakes(ph)
    ensures WakersInv(calls[b := ph], stage[w := Finished])
    ensures WakersInv(calls - {b}, stage[w := Finished])
  {
    assert Target(stage, b, calls[b]);
  }

  lemma CountMove(cnt: int, queue: seq<Id>, calls: map<Id, Phase>, holder: Option<Id>, uncounted: set<Id>, b: Id,
      ph: Phase)
    requires CountInv(cnt, queue, calls, holder, uncounted)
    requires b in calls ==> calls[b] != Increment && !calls[b].Pop?
    requires ph != Increment && !ph.Pop?
    ensures CountInv(cnt, queue, calls[b := ph], holder, uncounted)
    ensures CountInv(cnt, queue, calls - {b}, holder, uncounted)
  {
  }

  /** Steps that change only the call's own place. */
  lemma MoveKeepsInv(s: State, b: Id, ph: Phase)
    requires Inv(s)
    requires b in s.calls ==> !Wakes(s.calls[b]) && s.calls[b] != Increment && !s.calls[b].Pop?
    requires !Wakes(ph) && ph != Increment && !ph.Pop?
    ensures LocalAt(Goto(s, b, ph), b) ==> Inv(Goto(s, b, ph))
    ensures LocalAt(End(s, b), b) ==> Inv(End(s, b))
  {
    hide Local, WakersInv, QueueInv, CountInv;
    WakersMove(s.calls, s.hist.stage, b, ph);
    CountMove(s.lock.cnt, s.lock.queue, s.calls, s.hist.holder, s.hist.uncounted, b, ph);
    if LocalAt(Goto(s, b, ph), b) { Assemble(s, Goto(s, b, ph), b, b); }
    if LocalAt(End(s, b), b) { Assemble(s, End(s, b), b, b); }
  }

  /** Steps that also change the call's own blocker. */
  lemma MoveWithFlags(s: State, b: Id, ph: Phase, f: Flags, fate: map<Id, Fate>)
    requires Inv(s) && b in s.calls && b in s.hist.stage
    requires !Wakes(s.calls[b]) && s.calls[b] != Increment && !s.calls[b].Pop?
    requires !Wakes(ph) && ph != Increment && !ph.Pop?
    requires forall x :: x != b ==> Get(fate, x) == Get(s.hist.fate, x)
    ensures var s1 := SetFlags(s, b, f).(hist := s.hist.(fate := fate));
      && (LocalAt(Goto(s1, b, ph), b) ==> Inv(Goto(s1, b, ph)))
      && (LocalAt(End(s1, b), b) ==> Inv(End(s1, b)))
  {
    hide Local, WakersInv, QueueInv, CountInv;
    WakersMove(s.calls, s.hist.stage, b, ph);
    CountMove(s.lock.cnt, s.lock.queue, s.calls, s.hist.holder, s.hist.uncounted, b, ph);
    var s1 := SetFlags(s, b, f).(hist := s.hist.(fate := fate));
    if LocalAt(Goto(s1, b, ph), b) { Assemble(s, Goto(s1, b, ph), b, b); }
    if LocalAt(End(s1, b), b) { Assemble(s, End(s1, b), b, b); }
  }

  lemma StartKeepsInv(s: State, b: Id, block: bool)
    requires Inv(s) && b !in s.calls && b !in s.hist.stage
    ensures Inv(Goto(s, b, TryLoad(block)))
  {
    hide Inv;
    LocalOf(s, b);
    MoveKeepsInv(s, b, TryLoad(block));
  }

  lemma BlockedKeepsInv(s: State, b: Id, block: bool)
    requires Inv(s) && b in s.calls && (s.calls[b].TryLoad? || s.calls[b].TryCas?)
    ensures Inv(Blocked(s, b, block))
  {
    hide Inv;
    CallFacts(s, b);
    MoveKeepsInv(s, b, Enqueue);
  }

  lemma TryLoadKeepsInv(s: State, b: Id, block: bool)
    requires Inv(s) && b in s.calls && s.calls[b].TryLoad?
    ensures Inv(Goto(s, b, TryCas(block)))
  {
    hide Inv;
    CallFacts(s, b);
    MoveKeepsInv(s, b, TryCas(block));
  }

  lemma TryCasKeepsInv(s: State, b: Id, block: bool)
    requires Inv(s) && b in s.calls && s.calls[b].TryCas? && s.lock.cnt == 0
    ensures Inv(TryCasNext(s, b, block))
  {
    hide Local;
    var s' := TryCasNext(s, b, block);
    CallFacts(s, b);
    assert LocalAt(s', b) by { TryCasLocal(s, b, block); }
    WakersMove(s.calls, s.hist.stage, b, Guard);
    Assemble(s, s', b, b);
  }

  lemma TryCasLocal(s: State, b: Id, block: bool)
    requires LocalAt(s, b) && b in s.calls && s.calls[b].TryCas? && s.lock.cnt == 0
    ensures LocalAt(TryCasNext(s, b, block), b)
  {
  }

  lemma EnqueueKeepsInv(s: State, b: Id)
    requires Inv(s) && b in s.calls && s.calls[b].Enqueue?
    ensures Inv(EnqueueNext(s, b))
  {
    hide Inv, Local, WakersInv, QueueInv, CountInv;
    var s' := EnqueueNext(s, b);
    LocalOf(s, b);
    RestOf(s);
    EnqueueLocal(s, b);
    EnqueueRest(s, b);
    Assemble(s, s', b, b);
  }

  lemma EnqueueRest(s: State, b: Id)
    requires Rest(s) && b in s.calls && s.calls[b].Enqueue? && b !in s.hist.stage
    ensures Rest(EnqueueNext(s, b))
  {
    hide WakersInv, QueueInv, CountInv;
    EnqueueWakers(s.calls, s.hist.stage, b);
    EnqueueQueue(s.lock.queue, s.hist.stage, b);
    EnqueueCount(s.lock.cnt, s.lock.queue, s.calls, s.hist.holder, s.hist.uncounted, b);
  }

  lemma EnqueueWakers(calls: map<Id, Phase>, stage: map<Id, Stage>, b: Id)
    requires WakersInv(calls, stage) && b in calls && !Wakes(calls[b]) && b !in stage
    ensures WakersInv(calls[b := Increment], stage[b := Waiting])
  {
  }

  lemma EnqueueQueue(queue: seq<Id>, stage: map<Id, Stage>, b: Id)
    requires QueueInv(queue, stage) && b !in stage
    ensures QueueInv(queue + [b], stage[b := Waiting])
  {
    assert b !in queue;
  }

  lemma EnqueueCount(cnt: int, queue: seq<Id>, calls: map<Id, Phase>, holder: Option<Id>, uncounted: set<Id>, b: Id)
    requires CountInv(cnt, queue, calls, holder, uncounted) && b in calls && calls[b].Enqueue?
    ensures CountInv(cnt, queue + [b], calls[b := Increment], holder, uncounted + {b})
  {
    assert b !in uncounted;
  }

  lemma EnqueueLocal(s: State, b: Id)
    requires LocalAt(s, b) && b in s.calls && s.calls[b].Enqueue?
    ensures b !in s.hist.stage && LocalAt(EnqueueNext(s, b), b)
  {
  }

  lemma IncrementKeepsInv(s: State, b: Id)
    requires Inv(s) && b in s.calls && s.calls[b].Increment?
    ensures Inv(IncrementNext(s, b))
  {
    hide Inv, Local, WakersInv, QueueInv, CountInv;
    LocalOf(s, b);
    RestOf(s);
    IncrementRest(s, b);
    IncrementLocal(s, b);
    Assemble(s, IncrementNext(s, b), b, b);
  }

  lemma IncrementRest(s: State, b: Id)
    requires Rest(s) && b in s.calls && s.calls[b].Increment?
    ensures Rest(IncrementNext(s, b)) && (s.lock.cnt > 0 <==> s.hist.holder.Some?)
  {
    WakersMove(s.calls, s.hist.stage, b, Park);
    WakersMove(s.calls, s.hist.stage, b, Pop(true));
  }

  lemma IncrementLocal(s: State, b: Id)
    requires LocalAt(s, b) && b in s.calls && s.calls[b].Increment? && (s.lock.cnt > 0 <==> s.hist.holder.Some?)
    ensures LocalAt(IncrementNext(s, b), b)
  {
  }

  lemma ParkCancelledKeepsInv(s: State, b: Id)
    requires Inv(s) && b in s.calls && s.calls[b].Park? && b in s.lock.flags
    ensures Inv(ParkNext(s, b, true))
  {
    hide Inv;
    CallFacts(s, b);
    MoveKeepsInv(s, b, CheckUnparked);
  }

  lemma ParkResumedKeepsInv(s: State, b: Id)
    requires Inv(s) && b in s.calls && s.calls[b].Park? && b in s.lock.flags && s.lock.flags[b].token
    ensures Inv(ParkNext(s, b, false))
  {
    hide Inv;
    CallFacts(s, b);
    MoveWithFlags(s, b, Guard, s.lock.flags[b].(token := false), s.hist.fate[b := Owned]);
  }

  lemma CheckUnparkedKeepsInv(s: State, b: Id)
    requires Inv(s) && b in s.calls && s.calls[b].CheckUnparked? && b in s.lock.flags
    ensures Inv(CheckUnparkedNext(s, b))
  {
    hide Inv;
    CallFacts(s, b);
    if s.lock.flags[b].unparked {
      MoveWithFlags(s, b, Unlock(false), s.lock.flags[b], s.hist.fate[b := Returned]);
      assert s.lock.flags[b := s.lock.flags[b]] == s.lock.flags;
    } else {
      MoveKeepsInv(s, b, SetRelease);
    }
  }

  lemma SetReleaseKeepsInv(s: State, b: Id)
    requires Inv(s) && b in s.calls && s.calls[b].SetRelease? && b in s.lock.flags
    ensures Inv(Goto(SetFlags(s, b, s.lock.flags[b].(release := true)), b, Recheck))
  {
    hide Inv;
    CallFacts(s, b);
    MoveWithFlags(s, b, Recheck, s.lock.flags[b].(release := true), s.hist.fate);
  }

  lemma RecheckKeepsInv(s: State, b: Id)
    requires Inv(s) && b in s.calls && s.calls[b].Recheck? && b in s.lock.flags
    ensures s.lock.flags[b].unparked ==> Inv(Goto(s, b, TakeRelease))
    ensures !s.lock.flags[b].unparked ==> Inv(End(s, b))
  {
    hide Inv;
    CallFacts(s, b);
    MoveKeepsInv(s, b, TakeRelease);
  }

  lemma TakeReleaseKeepsInv(s: State, b: Id)
    requires Inv(s) && b in s.calls && s.calls[b].TakeRelease? && b in s.lock.flags
    ensures Inv(TakeReleaseNext(s, b))
  {
    hide Inv;
    CallFacts(s, b);
    var f := s.lock.flags[b].(release := false);
    MoveWithFlags(s, b, Unlock(false), f, s.hist.fate[b := Returned]);
    MoveWithFlags(s, b, Unlock(false), f, s.hist.fate);
  }

  lemma GuardKeepsInv(s: State, b: Id)
    requires Inv(s) && b in s.calls && s.calls[b].Guard?
    ensures Inv(Goto(s, b, Unlock(false)))
  {
    hide Inv;
    CallFacts(s, b);
    MoveKeepsInv(s, b, Unlock(false));
  }

  // ---------------------------------------------------------------- unlock

  lemma UnlockKeepsInv(s: State, b: Id, park: bool)
    requires Inv(s) && b in s.calls && s.calls[b] == Unlock(park)
    ensures Inv(UnlockNext(s, b, park))
  {
    hide Inv, Local, WakersInv, QueueInv, CountInv;
    CallFacts(s, b);
    RestOf(s);
    UnlockRest(s, b, park);
    UnlockLocal(s, b, park);
    Assemble(s, UnlockNext(s, b, park), b, b);
  }

  lemma UnlockRest(s: State, b: Id, park: bool)
    requires Rest(s) && b in s.calls && s.calls[b] == Unlock(park) && s.hist.holder == Some(b)
    ensures Rest(UnlockNext(s, b, park))
  {
    WakersMove(s.calls, s.hist.stage, b, Park);
    WakersMove(s.calls, s.hist.stage, b, Pop(park));
  }

  /** What one id may look like after giving the lock up. */
  lemma LeavesLock(st: Option<Stage>, fl: Option<Flags>, park: bool, fate: Option<Fate>, mine: bool)
    requires Local(st, fl, Some(Unlock(park)), fate, mine)
    ensures mine && Local(st, fl, Some(Pop(park)), fate, true)
    ensures Local(st, fl, if park then Some(Park) else None, fate, false)
  {
  }

  lemma UnlockLocal(s: State, b: Id, park: bool)
    requires LocalAt(s, b) && b in s.calls && s.calls[b] == Unlock(park)
    ensures LocalAt(UnlockNext(s, b, park), b)
  {
    hide Local;
    LeavesLock(Get(s.hist.stage, b), Get(s.lock.flags, b), park, Get(s.hist.fate, b), s.hist.holder == Some(b));
  }

  /** A call about to pop finds a waiter, whoever has or has not counted itself yet. */
  lemma PopFindsWaiter(s: State, b: Id)
    requires Inv(s) && b in s.calls && s.calls[b].Pop?
    ensures s.lock.queue != [] && s.hist.holder == Some(b)
    ensures s.lock.queue[0] in s.hist.stage && s.hist.stage[s.lock.queue[0]] == Waiting
  {
    hide Local;
    CallFacts(s, b);
    assert s.lock.queue[0] in s.lock.queue;
  }

  lemma PopKeepsInv(s: State, b: Id, park: bool)
    requires Inv(s) && b in s.calls && s.calls[b] == Pop(park)
    ensures Inv(PopNext(s, b, park))
  {
    hide Inv, Local, WakersInv, QueueInv, CountInv;
    PopFindsWaiter(s, b);
    var w := s.lock.queue[0];
    LocalOf(s, b);
    LocalOf(s, w);
    RestOf(s);
    PopLocal(s, b, w, park);
    PopRest(s, b, park);
    Assemble(s, PopNext(s, b, park), b, w);
  }

  lemma PopRest(s: State, b: Id, park: bool)
    requires Rest(s) && b in s.calls && s.calls[b] == Pop(park) && s.hist.holder == Some(b)
    requires s.lock.queue != [] && s.lock.queue[0] in s.hist.stage && s.hist.stage[s.lock.queue[0]] == Waiting
    ensures Rest(PopNext(s, b, park))
  {
    hide WakersInv, QueueInv;
    PopQueue(s.lock.queue, s.hist.stage, b);
    WakersPop(s.calls, s.hist.stage, b, s.lock.queue[0], park);
  }

  lemma PopQueue(queue: seq<Id>, stage: map<Id, Stage>, b: Id)
    requires QueueInv(queue, stage) && queue != []
    ensures QueueInv(queue[1..], stage[queue[0] := Popped(b)])
  {
    forall x | x in queue && x != queue[0]
      ensures x in queue[1..]
    {
      var i :| 0 <= i < |queue| && queue[i] == x;
      assert queue[1..][i - 1] == x;
    }
  }

  lemma PopLocal(s: State, b: Id, w: Id, park: bool)
    requires LocalAt(s, b) && LocalAt(s, w) && b in s.calls && s.calls[b] == Pop(park)
    requires s.lock.queue != [] && s.lock.queue[0] == w && w in s.hist.stage && s.hist.stage[w] == Waiting
    ensures LocalAt(PopNext(s, b, park), b) && LocalAt(PopNext(s, b, park), w)
  {
  }

  // ---------------------------------------------------------------- unpark_one

  lemma UnparkKeepsInv(s: State, b: Id, w: Id, park: bool)
    requires Inv(s) && b in s.calls && s.calls[b] == Unpark(w, park) && w in s.lock.flags
    ensures Inv(UnparkNext(s, b, w, park))
  {
    hide Inv, Local, WakersInv, QueueInv, CountInv;
    CallFacts(s, b);
    LocalOf(s, w);
    RestOf(s);
    UnparkLocal(s, b, w, park);
    UnparkRest(s, b, w, park);
    Assemble(s, UnparkNext(s, b, w, park), b, w);
  }

  predicate NotPopping(s: State, w: Id) { w in s.calls ==> !s.calls[w].Pop? }

  lemma UnparkRest(s: State, b: Id, w: Id, park: bool)
    requires Rest(s) && b in s.calls && s.calls[b] == Unpark(w, park) && w in s.lock.flags
    requires w in s.hist.stage && s.hist.stage[w] == Popped(b) && s.hist.holder == Some(b) && NotPopping(s, w)
    ensures Rest(UnparkNext(s, b, w, park))
  {
    hide WakersInv;
    WakersUnpark(s.calls, s.hist.stage, b, w, park);
  }

  lemma UnparkLocal(s: State, b: Id, w: Id, park: bool)
    requires LocalAt(s, b) && LocalAt(s, w) && b in s.calls && s.calls[b] == Unpark(w, park) && w in s.lock.flags
    requires w in s.hist.stage && s.hist.stage[w] == Popped(b)
    ensures LocalAt(UnparkNext(s, b, w, park), b) && LocalAt(UnparkNext(s, b, w, park), w)
    ensures NotPopping(s, w)
  {
  }

  lemma MarkKeepsInv(s: State, b: Id, w: Id, park: bool)
    requires Inv(s) && b in s.calls && s.calls[b] == Mark(w, park) && w in s.lock.flags
    ensures Inv(MarkNext(s, b, w, park))
  {
    hide Inv, Local, WakersInv, QueueInv, CountInv;
    CallFacts(s, b);
    LocalOf(s, w);
    RestOf(s);
    MarkLocal(s, b, w, park);
    MarkRest(s, b, w, park);
    Assemble(s, MarkNext(s, b, w, park), b, w);
  }

  lemma MarkRest(s: State, b: Id, w: Id, park: bool)
    requires Rest(s) && b in s.calls && s.calls[b] == Mark(w, park) && w in s.lock.flags
    requires w in s.hist.stage && s.hist.stage[w] == Handed(b)
    ensures Rest(MarkNext(s, b, w, park))
  {
    hide WakersInv;
    WakersMark(s.calls, s.hist.stage, b, w, park);
  }

  lemma MarkLocal(s: State, b: Id, w: Id, park: bool)
    requires LocalAt(s, b) && LocalAt(s, w) && b in s.calls && s.calls[b] == Mark(w, park) && w in s.lock.flags
    requires w in s.hist.stage && s.hist.stage[w] == Handed(b)
    ensures LocalAt(MarkNext(s, b, w, park), b) && LocalAt(MarkNext(s, b, w, park), w)
  {
  }

  lemma TakeKeepsInv(s: State, b: Id, w: Id, park: bool)
    requires Inv(s) && b in s.calls && s.calls[b] == Take(w, park) && w in s.lock.flags
    ensures Inv(TakeNext(s, b, w, park))
  {
    hide Inv, Local, WakersInv, QueueInv, CountInv;
    CallFacts(s, b);
    LocalOf(s, w);
    RestOf(s);
    TakeLocal(s, b, w, park);
    TakeRest(s, b, w, park);
    Assemble(s, TakeNext(s, b, w, park), b, w);
  }

  lemma TakeRest(s: State, b: Id, w: Id, park: bool)
    requires Rest(s) && b in s.calls && s.calls[b] == Take(w, park) && w in s.lock.flags
    requires w in s.hist.stage && s.hist.stage[w] == Marked(b)
    requires s.lock.flags[w].release ==> s.hist.holder == Some(w) && NotPopping(s, w)
    ensures Rest(TakeNext(s, b, w, park))
  {
    hide WakersInv, CountInv;
    WakersTake(s.calls, s.hist.stage, b, w, park, Park);
    WakersTake(s.calls, s.hist.stage, b, w, park, Unlock(park));
    TakeCount(s, b, w, park);
  }

  /** The waiter whose waker takes the release flag: if it was set, the lock leaves the waiter. */
  lemma FlagTaken(b: Id, fl: Flags, ph: Option<Phase>, fate: Option<Fate>, mine: bool)
    requires Local(Some(Marked(b)), Some(fl), ph, fate, mine)
    ensures fl.release ==> mine && (ph.Some? ==> ph.value.Recheck? || ph.value.TakeRelease?)
    ensures fl.release ==> Local(Some(Finished), Some(fl.(release := false)), ph, Some(Returned), false)
    ensures !fl.release ==> Local(Some(Finished), Some(fl), ph, fate, mine)
  {
  }

  /** The waker of another blocker, which may get the lock back. */
  lemma WakerDone(st: Option<Stage>, fl: Option<Flags>, w: Id, park: bool, fate: Option<Fate>, mine: bool)
    requires Local(st, fl, Some(Take(w, park)), fate, mine)
    ensures mine ==> park
    ensures !mine ==> Local(st, fl, Some(Unlock(park)), fate, true)
    ensures Local(st, fl, if park then Some(Park) else None, fate, mine)
  {
  }

  /** A call that popped its own blocker. */
  lemma SelfDone(b: Id, w: Id, fl: Flags, park: bool, fate: Option<Fate>, mine: bool)
    requires Local(Some(Marked(b)), Some(fl), Some(Take(w, park)), fate, mine)
    ensures !fl.release
    ensures Local(Some(Finished), Some(fl), if park then Some(Park) else None, fate, mine)
  {
  }

  lemma TakeLocal(s: State, b: Id, w: Id, park: bool)
    requires LocalAt(s, b) && LocalAt(s, w) && b in s.calls && s.calls[b] == Take(w, park) && w in s.lock.flags
    requires w in s.hist.stage && s.hist.stage[w] == Marked(b)
    ensures LocalAt(TakeNext(s, b, w, park), b) && LocalAt(TakeNext(s, b, w, park), w)
    ensures s.lock.flags[w].release ==> s.hist.holder == Some(w) && NotPopping(s, w)
  {
    hide Local;
    var fl := s.lock.flags[w];
    assert !fl.release ==> fl.(release := false) == fl;
    FlagTaken(b, fl, Get(s.calls, w), Get(s.hist.fate, w), s.hist.holder == Some(w));
    WakerDone(Get(s.hist.stage, b), Get(s.lock.flags, b), w, park, Get(s.hist.fate, b), s.hist.holder == Some(b));
    if w == b {
      SelfDone(b, w, fl, park, Get(s.hist.fate, b), s.hist.holder == Some(b));
    }
  }

  lemma TakeCount(s: State, b: Id, w: Id, park: bool)
    requires CountInv(s.lock.cnt, s.lock.queue, s.calls, s.hist.holder, s.hist.uncounted)
    requires b in s.calls && s.calls[b] == Take(w, park) && w in s.lock.flags
    requires s.lock.flags[w].release ==> s.hist.holder == Some(w) && NotPopping(s, w)
    ensures var s' := TakeNext(s, b, w, park);
      CountInv(s'.lock.cnt, s'.lock.queue, s'.calls, s'.hist.holder, s'.hist.uncounted)
  {
  }

  // ---------------------------------------------------------------- every step, every run

  lemma CallKeepsInv(s: State, b: Id, cancel: bool)
    requires Inv(s) && Enabled(s, Next(b, cancel))
    ensures Inv(CallNext(s, b, cancel))
  {
    hide Inv, Goto, End, Blocked, TryCasNext, EnqueueNext, IncrementNext, ParkNext, CheckUnparkedNext, TakeReleaseNext;
    hide UnlockNext, PopNext, UnparkNext, MarkNext, TakeNext;
    match s.calls[b]
    case TryLoad(block) => TryLoadKeepsInv(s, b, block); BlockedKeepsInv(s, b, block);
    case TryCas(block) =>
      BlockedKeepsInv(s, b, block);
      if s.lock.cnt == 0 { TryCasKeepsInv(s, b, block); } else { TryCasFails(s, b, block); }
    case Enqueue => EnqueueKeepsInv(s, b);
    case Increment => IncrementKeepsInv(s, b);
    case Park => if cancel { ParkCancelledKeepsInv(s, b); } else { ParkResumedKeepsInv(s, b); }
    case Guard => GuardKeepsInv(s, b);
    case CheckUnparked => CheckUnparkedKeepsInv(s, b);
    case SetRelease => SetReleaseKeepsInv(s, b);
    case Recheck => RecheckKeepsInv(s, b);
    case TakeRelease => TakeReleaseKeepsInv(s, b);
    case Unlock(park) => UnlockKeepsInv(s, b, park);
    case Pop(park) => PopKeepsInv(s, b, park);
    case Unpark(w, park) => UnparkKeepsInv(s, b, w, park);
    case Mark(w, park) => MarkKeepsInv(s, b, w, park);
    case Take(w, park) => TakeKeepsInv(s, b, w, park);
  }

  lemma TryCasFails(s: State, b: Id, block: bool)
    requires s.lock.cnt != 0
    ensures TryCasNext(s, b, block) == Blocked(s, b, block)
  {
  }

  lemma StepKeepsInv(s: State, a: Action)
    requires Inv(s) && Enabled(s, a)
    ensures Inv(Step(s, a))
  {
    hide Inv, CallNext;
    match a
    case Start(b, block) => StartKeepsInv(s, b, block);
    case Next(b, cancel) => CallKeepsInv(s, b, cancel);
  }

  lemma InitInv()
    ensures Inv(Init)
  {
  }

  lemma {:induction false} RunInv(r: seq<State>, acts: seq<Action>, i: nat)
    requires Run(r, acts) && i < |r|
    ensures Inv(r[i])
  {
    hide Inv, Step, Enabled;
    if i == 0 {
      InitInv();
    } else {
      RunInv(r, acts, i - 1);
      StepKeepsInv(r[i - 1], acts[i - 1]);
    }
  }

  // ---------------------------------------------------------------- what the protocol promises

  /** At most one call owns the lock, and nobody else has it in hand or is taking a waiter for it. */
  lemma MutualExclusion(s: State, a: Id, b: Id)
    requires Inv(s) && a in s.calls && b in s.calls && Carries(s.calls[a]) && Carries(s.calls[b])
    ensures a == b
  {
    hide Inv;
    CallFacts(s, a);
    CallFacts(s, b);
  }

  /** The wait list's rule: one consumer at a time, and it never finds the list empty ("got null blocker!"). */
  lemma SingleConsumer(s: State, a: Id, b: Id)
    requires Inv(s) && a in s.calls && s.calls[a].Pop?
    ensures s.lock.queue != []
    ensures b in s.calls && s.calls[b].Pop? ==> a == b
    ensures b in s.calls ==> !s.calls[b].NullBlocker?
  {
    hide Inv;
    PopFindsWaiter(s, a);
    LocalOf(s, b);
    if b in s.calls { CallFacts(s, b); }
  }

  /** `cnt` is positive exactly while the lock is with someone, and an unlock never takes it below zero. */
  lemma CountTellsHeld(s: State)
    requires Inv(s)
    ensures s.lock.cnt >= 0 && (s.lock.cnt > 0 <==> s.hist.holder.Some?)
    ensures forall b :: b in s.calls && Carries(s.calls[b]) ==> s.lock.cnt > 0
  {
    hide LocalAt;
    forall b | b in s.calls && Carries(s.calls[b])
      ensures s.hist.holder == Some(b)
    {
      CallFacts(s, b);
    }
  }

  predicate Rechecks(ph: Phase) { ph.Recheck? || ph.TakeRelease? }

  /** Someone who is still running is answerable for the lock. */
  predicate Answerable(s: State, x: Id) {
    || (x in s.calls && Carries(s.calls[x]))
    || (x in s.calls && x in s.lock.flags && ParksLater(s.calls[x]) && s.lock.flags[x].token)
    || (x in s.calls && (s.calls[x].CheckUnparked? || s.calls[x].SetRelease?))
    || (x in s.calls && Rechecks(s.calls[x]) && x in s.lock.flags && s.lock.flags[x].release)
    || (x in s.lock.flags && s.lock.flags[x].release && WakerAtWork(s, x))
  }

  predicate WakerAtWork(s: State, x: Id) {
    && x in s.hist.stage && (s.hist.stage[x].Handed? || s.hist.stage[x].Marked?)
    && var c := s.hist.stage[x].waker;
       c in s.calls && (s.calls[c].Mark? || s.calls[c].Take?) && s.calls[c].w == x
  }

  /** The lock is never lost: a call that ended without it left the release flag for a waker that is still at work. */
  lemma LockIsNeverLost(s: State)
    requires Inv(s) && s.hist.holder.Some?
    ensures Answerable(s, s.hist.holder.value)
  {
    hide Inv;
    var x := s.hist.holder.value;
    LocalOf(s, x);
    if x in s.hist.stage { WakerOf(s, x); }
  }

  lemma WakerOf(s: State, x: Id)
    requires Inv(s) && x in s.hist.stage
    ensures s.hist.stage[x].Handed? || s.hist.stage[x].Marked? ==> WakerAtWork(s, x)
  {
    hide LocalAt, QueueInv, CountInv;
    assert Waker(s.calls, x, s.hist.stage[x]);
  }

  /**
   A hand-off that reached a waiter ends exactly once: the waiter owned the lock, or it was unlocked on its behalf.
   */
  lemma HandOffSettled(s: State, x: Id)
    requires Inv(s) && x in s.hist.stage && x !in s.calls
    ensures s.hist.stage[x].Finished? ==> x in s.hist.fate
    ensures x in s.hist.fate ==> s.hist.holder != Some(x)
    ensures x !in s.hist.fate ==> x in s.lock.flags && s.lock.flags[x].release
    ensures x !in s.hist.fate && s.hist.holder == Some(x) ==> WakerAtWork(s, x)
  {
    hide Inv;
    LocalOf(s, x);
    WakerOf(s, x);
  }

  lemma SettledOnce(s: State, a: Action, x: Id)
    requires Inv(s) && Enabled(s, a)
    ensures x in s.hist.fate ==> x in Step(s, a).hist.fate && Step(s, a).hist.fate[x] == s.hist.fate[x]
  {
    hide Inv;
    if a.Next? {
      var b := a.b;
      CallFacts(s, b);
      LocalOf(s, x);
    }
  }

  /** When every call has ended the lock is free and the list is empty: cancelled waiters leave nothing behind. */
  lemma QuietLock(s: State)
    requires Inv(s) && s.calls == map[]
    ensures s.hist.holder == None && s.lock.cnt == 0 && s.lock.queue == []
  {
    if s.hist.holder.Some? { LockIsNeverLost(s); }
  }

  /** Every blocker a call reads or writes has been made. */
  lemma BlockersAreThere(s: State, b: Id)
    requires Inv(s) && b in s.calls
    ensures FlagsThere(s, b, s.calls[b]) && !s.calls[b].NullBlocker?
  {
    hide Inv;
    CallFacts(s, b);
    if s.calls[b].Unpark? || s.calls[b].Mark? || s.calls[b].Take? { LocalOf(s, s.calls[b].w); }
  }

  lemma RunExcludes(r: seq<State>, acts: seq<Action>, i: nat, a: Id, b: Id)
    requires Run(r, acts) && i < |r|
    ensures a in r[i].calls && b in r[i].calls && r[i].calls[a].Guard? && r[i].calls[b].Guard? ==> a == b
    ensures a in r[i].calls && r[i].calls[a].Pop? ==> r[i].lock.queue != []
    ensures a in r[i].calls && b in r[i].calls && r[i].calls[a].Pop? && r[i].calls[b].Pop? ==> a == b
    ensures r[i].hist.holder.Some? ==> Answerable(r[i], r[i].hist.holder.value)
    ensures a in r[i].calls ==> !r[i].calls[a].NullBlocker?
    ensures r[i].calls == map[] ==> r[i].lock.cnt == 0
  {
    hide Inv, Answerable;
    RunInv(r, acts, i);
    LocalOf(r[i], a);
    if a in r[i].calls && b in r[i].calls && Carries(r[i].calls[a]) && Carries(r[i].calls[b]) {
      MutualExclusion(r[i], a, b);
    }
    if a in r[i].calls && r[i].calls[a].Pop? { SingleConsumer(r[i], a, b); }
    if r[i].hist.holder.Some? { LockIsNeverLost(r[i]); }
    if r[i].calls == map[] { QuietLock(r[i]); }
  }
}
