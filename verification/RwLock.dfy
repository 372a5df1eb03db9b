/**
 `RwLock` (src/std/sync/rwlock.rs) on top of the mutex protocol: its global lock and its `rlock` are both runs of the
 machine of MutexSteps, and a reader or writer moves on when its call there owns the lock or has ended.

 No poisoning; a cancel may hit any wait except the `rlock` wait of a reader that leaves. A call may go on while the
 wake-ups of its own unlock are still being made.
 */
module RwLock {
  import opened Common
  import M = MutexSteps
  import P = MutexProof

  /** The calls a reader or writer `t` makes on the two locks. */
  function EnterId(t: Tid): nat { 2 * t }

  function LeaveId(t: Tid): nat { 2 * t + 1 }

  datatype Call =
    | WantR(block: bool)
    | Decide(block: bool)
    | WantG(block: bool)
    | Abort
    | Count(first: bool)
    | LeaveR
    | Reading
    | WantLeave
    | Decrement
    | UnlockG
    | LeaveLast
    | WantW
    | Writing

  /**
   `leader` is history: the reader whose call on the global lock owns it for the group. `readers` are the readers
   counted, `inside` is the call that owns `rlock`, `used` names calls that were begun.
   */
  datatype Hist = Hist(leader: Option<Tid>, readers: set<Tid>, inside: Option<Tid>, used: set<Tid>)

  datatype State = State(global: M.State, rlock: M.State, count: int, calls: map<Tid, Call>, hist: Hist)

  predicate Owns(m: M.State, b: nat) { b in m.calls && m.calls[b].Guard? }

  // ---------------------------------------------------------------- steps

  /** Drop the guard of call `b`: `unlock` begins. */
  function Drop(m: M.State, b: nat): M.State { M.Goto(m, b, M.Unlock(false)) }

  function Begin(m: M.State, b: nat, block: bool): M.State { M.Goto(m, b, M.TryLoad(block)) }

  function Goto(s: State, t: Tid, c: Call): State { s.(calls := s.calls[t := c]) }

  function End(s: State, t: Tid): State { s.(calls := s.calls - {t}) }

  function Inside(s: State, x: Option<Tid>): State { s.(hist := s.hist.(inside := x)) }

  predicate CallEnabled(s: State, t: Tid) {
    && t in s.calls
    && match s.calls[t]
       case WantR(_) => EnterId(t) !in s.rlock.calls || Owns(s.rlock, EnterId(t))
       case Decide(_) => t !in s.global.calls && t !in s.global.hist.stage
       case WantG(_) => t !in s.global.calls || Owns(s.global, t)
       case Reading => LeaveId(t) !in s.rlock.calls && LeaveId(t) !in s.rlock.hist.stage
       case WantLeave => Owns(s.rlock, LeaveId(t))
       case WantW => t !in s.global.calls || Owns(s.global, t)
       case _ => true
  }

  function CallNext(s: State, t: Tid): State
    requires CallEnabled(s, t)
  {
    match s.calls[t]
    case WantR(block) =>
      if EnterId(t) in s.rlock.calls then Inside(Goto(s, t, Decide(block)), Some(t)) else End(s, t)
    case Decide(block) =>
      if s.count == 0 then Goto(s.(global := Begin(s.global, t, block)), t, WantG(block)) else Goto(s, t, Count(false))
    case WantG(_) =>
      if t in s.global.calls then Goto(s, t, Count(true)).(hist := s.hist.(leader := Some(t))) else Goto(s, t, Abort)
    case Abort => Inside(End(s.(rlock := Drop(s.rlock, EnterId(t))), t), None)
    case Count(_) => Goto(s, t, LeaveR).(count := s.count + 1, hist := s.hist.(readers := s.hist.readers + {t}))
    case LeaveR => Inside(Goto(s.(rlock := Drop(s.rlock, EnterId(t))), t, Reading), None)
    case Reading => Goto(s.(rlock := Begin(s.rlock, LeaveId(t), true)), t, WantLeave)
    case WantLeave => Inside(Goto(s, t, Decrement), Some(t))
    case Decrement =>
      Goto(s, t, if s.count == 1 then UnlockG else LeaveLast)
        .(count := s.count - 1, hist := s.hist.(readers := s.hist.readers - {t}))
    case UnlockG =>
      var g := if s.hist.leader.Some? then Drop(s.global, s.hist.leader.value) else s.global;
      Goto(s.(global := g), t, LeaveLast).(hist := s.hist.(leader := None))
    case LeaveLast => Inside(End(s.(rlock := Drop(s.rlock, LeaveId(t))), t), None)
    case WantW => if t in s.global.calls then Goto(s, t, Writing) else End(s, t)
    case Writing => End(s.(global := Drop(s.global, t)), t)
  }

  datatype Action =
    | StartRead(t: Tid, block: bool)
    | StartWrite(t: Tid, block: bool)
    | CallStep(t: Tid)
    | GlobalStep(b: nat, cancel: bool)
    | RlockStep(b: nat, cancel: bool)

  /** A step inside one of the locks; owning it is left to the reader or writer to end. */
  predicate LockStep(m: M.State, b: nat, cancel: bool) {
    M.Enabled(m, M.Next(b, cancel)) && !m.calls[b].Guard?
  }

  predicate Enabled(s: State, a: Action) {
    match a
    case StartRead(t, _) => t !in s.hist.used && EnterId(t) !in s.rlock.calls && EnterId(t) !in s.rlock.hist.stage
    case StartWrite(t, _) => t !in s.hist.used && t !in s.global.calls && t !in s.global.hist.stage
    case CallStep(t) => CallEnabled(s, t)
    case GlobalStep(b, cancel) => LockStep(s.global, b, cancel)
    case RlockStep(b, cancel) => LockStep(s.rlock, b, cancel) && (cancel ==> b % 2 == 0)
  }

  function Step(s: State, a: Action): State
    requires Enabled(s, a)
  {
    match a
    case StartRead(t, block) =>
      Goto(s.(rlock := Begin(s.rlock, EnterId(t), block)), t, WantR(block)).(hist := s.hist.(used := s.hist.used + {t}))
    case StartWrite(t, block) =>
      Goto(s.(global := Begin(s.global, t, block)), t, WantW).(hist := s.hist.(used := s.hist.used + {t}))
    case CallStep(t) => CallNext(s, t)
    case GlobalStep(b, cancel) => s.(global := M.CallNext(s.global, b, cancel))
    case RlockStep(b, cancel) => s.(rlock := M.CallNext(s.rlock, b, cancel))
  }

  const Init: State := State(M.Init, M.Init, 0, map[], Hist(None, {}, None, {}))

  ghost predicate Run(r: seq<State>, acts: seq<Action>) {
    && |r| == |acts| + 1 && r[0] == Init
    && forall i {:trigger acts[i]} :: 0 <= i < |acts| ==> Enabled(r[i], acts[i]) && r[i + 1] == Step(r[i], acts[i])
  }

  // ---------------------------------------------------------------- the locks underneath

  lemma DropKeeps(m: M.State, b: nat)
    requires P.Inv(m) && Owns(m, b)
    ensures P.Inv(Drop(m, b))
  {
    hide P.Inv;
    P.GuardKeepsInv(m, b);
  }

  lemma BeginKeeps(m: M.State, b: nat, block: bool)
    requires P.Inv(m) && b !in m.calls && b !in m.hist.stage
    ensures P.Inv(Begin(m, b, block))
  {
    hide P.Inv;
    P.StartKeepsInv(m, b, block);
  }

  /** A step inside a lock leaves every other call there where it is. */
  lemma LockStepFrame(m: M.State, b: nat, cancel: bool, c: nat)
    requires LockStep(m, b, cancel) && c != b
    ensures Owns(M.CallNext(m, b, cancel), c) <==> Owns(m, c)
  {
  }

  lemma OnlyOwner(m: M.State, a: nat, b: nat)
    requires P.Inv(m) && Owns(m, a) && Owns(m, b)
    ensures a == b
  {
    hide P.Inv;
    P.MutualExclusion(m, a, b);
  }

  // ---------------------------------------------------------------- invariant

  predicate InsideEntering(c: Call) { c.Decide? || c.WantG? || c.Abort? || c.Count? || c.LeaveR? }

  predicate InsideLeaving(c: Call) { c.Decrement? || c.UnlockG? || c.LeaveLast? }

  predicate Counted(c: Call) { c.LeaveR? || c.Reading? || c.WantLeave? || c.Decrement? }

  predicate IsWriter(c: Call) { c.WantW? || c.Writing? }

  /** What one call has in hand. */
  predicate CallOk(t: Tid, c: Call, s: State) {
    && t in s.hist.used
    && (InsideEntering(c) ==> Owns(s.rlock, EnterId(t)))
    && (InsideLeaving(c) ==> Owns(s.rlock, LeaveId(t)))
    && (InsideEntering(c) || InsideLeaving(c) <==> s.hist.inside == Some(t))
    && (Counted(c) <==> t in s.hist.readers)
    && (c.Writing? ==> Owns(s.global, t))
    && (c.WantG? ==> s.count == 0 && s.hist.leader == None)
    && (c.Count? ==> s.hist.leader.Some? && (if c.first then s.count == 0 && s.hist.leader == Some(t) else s.count > 0))
    && (c.UnlockG? ==> s.hist.leader.Some? && s.count == 0)
  }

  ghost predicate GroupInv(s: State) {
    && s.count == |s.hist.readers|
    && (s.count > 0 ==> s.hist.leader.Some?)
    && (s.hist.leader.Some? && s.count == 0 ==>
          && s.hist.inside.Some? && s.hist.inside.value in s.calls
          && (s.calls[s.hist.inside.value] == Count(true) || s.calls[s.hist.inside.value] == UnlockG))
    && (s.hist.leader.Some? ==>
          && Owns(s.global, s.hist.leader.value) && s.hist.leader.value in s.hist.used
          && (s.hist.leader.value in s.calls ==> !IsWriter(s.calls[s.hist.leader.value])))
    && (s.hist.inside.Some? ==> s.hist.inside.value in s.calls)
    && (forall t :: t in s.hist.readers ==> t in s.calls)
  }

  ghost predicate CallsInv(s: State) {
    forall t :: t in s.calls ==> CallOk(t, s.calls[t], s)
  }

  ghost predicate Inv(s: State) {
    P.Inv(s.global) && P.Inv(s.rlock) && GroupInv(s) && CallsInv(s)
  }

  // ---------------------------------------------------------------- steps keep it

  lemma GlobalStepKeepsInv(s: State, b: nat, cancel: bool)
    requires Inv(s) && LockStep(s.global, b, cancel)
    ensures Inv(s.(global := M.CallNext(s.global, b, cancel)))
  {
    hide P.Inv;
    P.CallKeepsInv(s.global, b, cancel);
    forall c: nat | Owns(s.global, c)
      ensures Owns(M.CallNext(s.global, b, cancel), c)
    {
      LockStepFrame(s.global, b, cancel, c);
    }
    hide M.CallNext, LockStep;
    var s' := s.(global := M.CallNext(s.global, b, cancel));
    forall t | t in s'.calls
      ensures CallOk(t, s'.calls[t], s')
    {
      assert CallOk(t, s.calls[t], s);
    }
  }

  lemma RlockStepKeepsInv(s: State, b: nat, cancel: bool)
    requires Inv(s) && LockStep(s.rlock, b, cancel)
    ensures Inv(s.(rlock := M.CallNext(s.rlock, b, cancel)))
  {
    hide P.Inv;
    P.CallKeepsInv(s.rlock, b, cancel);
    forall c: nat | Owns(s.rlock, c)
      ensures Owns(M.CallNext(s.rlock, b, cancel), c)
    {
      LockStepFrame(s.rlock, b, cancel, c);
    }
    hide M.CallNext, LockStep;
    var s' := s.(rlock := M.CallNext(s.rlock, b, cancel));
    forall t | t in s'.calls
      ensures CallOk(t, s'.calls[t], s')
    {
      assert CallOk(t, s.calls[t], s);
    }
  }

  lemma StartKeepsInv(s: State, a: Action)
    requires Inv(s) && Enabled(s, a) && (a.StartRead? || a.StartWrite?)
    ensures Inv(Step(s, a))
  {
    hide P.Inv;
    var s' := Step(s, a);
    if a.StartRead? { BeginKeeps(s.rlock, EnterId(a.t), a.block); } else { BeginKeeps(s.global, a.t, a.block); }
    assert a.t !in s.calls && a.t !in s.hist.readers && s.hist.inside != Some(a.t);
    forall t | t in s'.calls && t != a.t
      ensures CallOk(t, s'.calls[t], s')
    {
      assert CallOk(t, s.calls[t], s);
    }
  }

  /** Whoever comes to own `rlock` finds nobody inside. */
  lemma NobodyInside(s: State, t: Tid, b: nat)
    requires Inv(s) && t in s.calls && Owns(s.rlock, b) && (b == EnterId(t) || b == LeaveId(t))
    requires !InsideEntering(s.calls[t]) && !InsideLeaving(s.calls[t])
    ensures s.hist.inside == None
  {
    hide P.Inv;
    if s.hist.inside.Some? {
      var u := s.hist.inside.value;
      assert CallOk(u, s.calls[u], s) && CallOk(t, s.calls[t], s);
      OnlyOwner(s.rlock, b, if InsideEntering(s.calls[u]) then EnterId(u) else LeaveId(u));
    }
  }

  /** A call that is not inside is untouched by what the one inside does to the count and the leader. */
  predicate SameView(u: Tid, s: State, s': State) {
    && u in s'.hist.used && (u in s'.hist.readers <==> u in s.hist.readers)
    && (s'.hist.inside == Some(u) <==> s.hist.inside == Some(u))
    && (Owns(s.rlock, EnterId(u)) ==> Owns(s'.rlock, EnterId(u)))
    && (Owns(s.rlock, LeaveId(u)) ==> Owns(s'.rlock, LeaveId(u)))
    && (Owns(s.global, u) ==> Owns(s'.global, u))
    && (s.hist.inside != Some(u) || (s'.count == s.count && s'.hist.leader == s.hist.leader))
  }

  lemma OthersKeep(s: State, s': State, t: Tid)
    requires CallsInv(s)
    requires s'.calls == s.calls - {t} || (t in s'.calls && s'.calls == s.calls[t := s'.calls[t]])
    requires forall u :: u in s.calls && u != t ==> SameView(u, s, s')
    requires t in s'.calls ==> CallOk(t, s'.calls[t], s')
    ensures CallsInv(s')
  {
    hide Owns, SameView;
    forall u | u in s'.calls && u != t
      ensures CallOk(u, s'.calls[u], s')
    {
      OneKeeps(u, s.calls[u], s, s');
    }
  }

  lemma OneKeeps(u: Tid, c: Call, s: State, s': State)
    requires CallOk(u, c, s) && SameView(u, s, s')
    ensures CallOk(u, c, s')
  {
  }

  lemma EnterKeepsInv(s: State, t: Tid)
    requires Inv(s) && CallEnabled(s, t) && (s.calls[t].WantR? || s.calls[t].WantLeave?)
    ensures Inv(CallNext(s, t))
  {
    hide P.Inv;
    assert CallOk(t, s.calls[t], s);
    var s' := CallNext(s, t);
    if s.calls[t].WantLeave? { NobodyInside(s, t, LeaveId(t)); }
    else if EnterId(t) in s.rlock.calls { NobodyInside(s, t, EnterId(t)); }
    OthersKeep(s, s', t);
  }

  lemma DecideKeepsInv(s: State, t: Tid)
    requires Inv(s) && CallEnabled(s, t) && s.calls[t].Decide?
    ensures Inv(CallNext(s, t))
  {
    hide P.Inv;
    assert CallOk(t, s.calls[t], s);
    if s.count == 0 { BeginKeeps(s.global, t, s.calls[t].block); }
    OthersKeep(s, CallNext(s, t), t);
  }

  lemma AcquireKeepsInv(s: State, t: Tid)
    requires Inv(s) && CallEnabled(s, t) && s.calls[t].WantG?
    ensures Inv(CallNext(s, t))
  {
    hide P.Inv;
    assert CallOk(t, s.calls[t], s);
    OthersKeep(s, CallNext(s, t), t);
  }

  lemma CountKeepsInv(s: State, t: Tid)
    requires Inv(s) && CallEnabled(s, t) && (s.calls[t].Count? || s.calls[t].Decrement?)
    ensures Inv(CallNext(s, t))
  {
    hide P.Inv;
    assert CallOk(t, s.calls[t], s);
    OthersKeep(s, CallNext(s, t), t);
  }

  lemma ExitKeepsInv(s: State, t: Tid)
    requires Inv(s) && CallEnabled(s, t) && (s.calls[t].Abort? || s.calls[t].LeaveR? || s.calls[t].LeaveLast?)
    ensures Inv(CallNext(s, t))
  {
    hide P.Inv;
    assert CallOk(t, s.calls[t], s);
    var b := if s.calls[t].LeaveLast? then LeaveId(t) else EnterId(t);
    DropKeeps(s.rlock, b);
    forall u | u in s.calls && u != t
      ensures SameView(u, s, CallNext(s, t))
    {
      assert CallOk(u, s.calls[u], s);
    }
    OthersKeep(s, CallNext(s, t), t);
  }

  lemma ReadingKeepsInv(s: State, t: Tid)
    requires Inv(s) && CallEnabled(s, t) && s.calls[t].Reading?
    ensures Inv(CallNext(s, t))
  {
    hide P.Inv;
    assert CallOk(t, s.calls[t], s);
    BeginKeeps(s.rlock, LeaveId(t), true);
    OthersKeep(s, CallNext(s, t), t);
  }

  /** The group's hold on the global lock excludes every writer. */
  lemma LeaderExcludesWriter(s: State, u: Tid)
    requires Inv(s) && s.hist.leader.Some? && u in s.calls
    ensures !s.calls[u].Writing?
  {
    hide P.Inv;
    if s.calls[u].Writing? {
      assert CallOk(u, s.calls[u], s);
      OnlyOwner(s.global, s.hist.leader.value, u);
    }
  }

  lemma UnlockGlobalKeepsInv(s: State, t: Tid)
    requires Inv(s) && CallEnabled(s, t) && s.calls[t].UnlockG?
    ensures Inv(CallNext(s, t))
  {
    hide P.Inv;
    assert CallOk(t, s.calls[t], s);
    DropKeeps(s.global, s.hist.leader.value);
    var s' := CallNext(s, t);
    forall u | u in s'.calls && u != t
      ensures CallOk(u, s'.calls[u], s')
    {
      assert CallOk(u, s.calls[u], s);
      LeaderExcludesWriter(s, u);
    }
  }

  lemma WriterKeepsInv(s: State, t: Tid)
    requires Inv(s) && CallEnabled(s, t) && IsWriter(s.calls[t])
    ensures Inv(CallNext(s, t))
  {
    hide P.Inv;
    assert CallOk(t, s.calls[t], s);
    var s' := CallNext(s, t);
    if s.calls[t].Writing? {
      DropKeeps(s.global, t);
      if s.hist.leader.Some? {
        LeaderExcludesWriter(s, t);
        assert false;
      }
    }
    forall u | u in s.calls && u != t
      ensures SameView(u, s, s')
    {
      assert CallOk(u, s.calls[u], s);
    }
    OthersKeep(s, s', t);
  }

  lemma StepKeepsInv(s: State, a: Action)
    requires Inv(s) && Enabled(s, a)
    ensures Inv(Step(s, a))
  {
    hide Inv, CallNext, M.CallNext;
    match a
    case StartRead(_, _) => StartKeepsInv(s, a);
    case StartWrite(_, _) => StartKeepsInv(s, a);
    case GlobalStep(b, cancel) => GlobalStepKeepsInv(s, b, cancel);
    case RlockStep(b, cancel) => RlockStepKeepsInv(s, b, cancel);
    case CallStep(t) =>
      match s.calls[t]
      case WantR(_) => EnterKeepsInv(s, t);
      case WantLeave => EnterKeepsInv(s, t);
      case Decide(_) => DecideKeepsInv(s, t);
      case WantG(_) => AcquireKeepsInv(s, t);
      case Count(_) => CountKeepsInv(s, t);
      case Decrement => CountKeepsInv(s, t);
      case Reading => ReadingKeepsInv(s, t);
      case UnlockG => UnlockGlobalKeepsInv(s, t);
      case WantW => WriterKeepsInv(s, t);
      case Writing => WriterKeepsInv(s, t);
      case _ => ExitKeepsInv(s, t);
  }

  lemma InitInv()
    ensures Inv(Init)
  {
    P.InitInv();
    hide P.Inv;
  }

  lemma {:induction false} RunInv(r: seq<State>, acts: seq<Action>, i: nat)
    requires Run(r, acts) && i < |r|
    ensures Inv(r[i])
  {
    hide Inv, Step, Enabled;
    if i == 0 {
      InitInv();
    } else {
      RunInv(r, acts, i - 1);
      StepKeepsInv(r[i - 1], acts[i - 1]);
    }
  }

  // ---------------------------------------------------------------- what the lock promises

  /** No run has a writer beside a reader or a second writer. */
  lemma WritersExclude(r: seq<State>, acts: seq<Action>, i: nat, w: Tid, t: Tid)
    requires Run(r, acts) && i < |r| && w in r[i].calls && r[i].calls[w].Writing? && t in r[i].calls
    ensures !Counted(r[i].calls[t])
    ensures r[i].calls[t].Writing? ==> t == w
    ensures r[i].count == 0 && r[i].hist.leader == None
  {
    RunInv(r, acts, i);
    var s := r[i];
    hide P.Inv;
    assert CallOk(w, s.calls[w], s) && CallOk(t, s.calls[t], s);
    if s.hist.leader.Some? {
      LeaderExcludesWriter(s, w);
      assert false;
    }
    if s.calls[t].Writing? { OnlyOwner(s.global, t, w); }
  }

  /**
   The readers own the global lock exactly while any are counted, or while the first or the last is at it inside
   `rlock`.
   */
  lemma GroupOwnsLock(r: seq<State>, acts: seq<Action>, i: nat)
    requires Run(r, acts) && i < |r|
    ensures var s := r[i];
      && s.count == |s.hist.readers| && (forall t :: t in s.hist.readers <==> t in s.calls && Counted(s.calls[t]))
      && (s.hist.leader.Some? <==>
            || s.count > 0
            || (s.hist.inside.Some? && s.hist.inside.value in s.calls
                && (s.calls[s.hist.inside.value] == Count(true) || s.calls[s.hist.inside.value] == UnlockG)))
      && (s.hist.leader.Some? ==> Owns(s.global, s.hist.leader.value))
  {
    RunInv(r, acts, i);
    var s := r[i];
    hide P.Inv;
    if s.hist.inside.Some? { assert CallOk(s.hist.inside.value, s.calls[s.hist.inside.value], s); }
    forall t | t in s.calls
      ensures t in s.hist.readers <==> Counted(s.calls[t])
    {
      assert CallOk(t, s.calls[t], s);
    }
  }

  /** With every call ended, both locks are free and nobody waits in either list, whatever was cancelled on the way. */
  lemma QuietLocks(r: seq<State>, acts: seq<Action>, i: nat)
    requires Run(r, acts) && i < |r| && r[i].calls == map[] && r[i].global.calls == map[] && r[i].rlock.calls == map[]
    ensures r[i].count == 0 && r[i].hist.leader == None
    ensures r[i].global.lock.cnt == 0 && r[i].rlock.lock.cnt == 0
    ensures r[i].global.lock.queue == [] && r[i].rlock.lock.queue == []
  {
    RunInv(r, acts, i);
    hide P.Inv;
    assert r[i].hist.readers == {};
    P.QuietLock(r[i].global);
    P.QuietLock(r[i].rlock);
  }

  /** Both lists keep the single-consumer rule, and no wake-up finds one empty. */
  lemma ListsSingleConsumer(r: seq<State>, acts: seq<Action>, i: nat, a: nat, b: nat)
    requires Run(r, acts) && i < |r|
    ensures a in r[i].global.calls && r[i].global.calls[a].Pop? ==>
      r[i].global.lock.queue != [] && (b in r[i].global.calls && r[i].global.calls[b].Pop? ==> a == b)
    ensures a in r[i].rlock.calls && r[i].rlock.calls[a].Pop? ==>
      r[i].rlock.lock.queue != [] && (b in r[i].rlock.calls && r[i].rlock.calls[b].Pop? ==> a == b)
  {
    RunInv(r, acts, i);
    hide P.Inv;
    if a in r[i].global.calls && r[i].global.calls[a].Pop? { P.SingleConsumer(r[i].global, a, b); }
    if a in r[i].rlock.calls && r[i].rlock.calls[a].Pop? { P.SingleConsumer(r[i].rlock, a, b); }
  }
}
