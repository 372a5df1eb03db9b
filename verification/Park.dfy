/**
 `Park` (src/park.rs) as a state machine: one coroutine that parks on it again and again, the `subscribe` that the
 scheduler runs for each suspension, any number of `unpark` calls, timers, cancels and the drop; one step per atomic
 operation.

 A suspended coroutine is in the hands of `subscribe` until it is stored in `wait_co`; whoever takes it from there
 resumes it. A timer or a cancel may try that at any time. A cancel also sets a flag, and the coroutine panics out of
 the wait at the gate and out of the park when it sees it.
 */
module Park {
  import opened Common

  const WORDS: nat := 0x1_0000_0000_0000_0000

  // ---------------------------------------------------------------- the state word

  /** Bit 0: the token. */
  predicate Token(w: int) { w % 2 == 1 }

  /** Bit 1: the parity of finished halves of a suspension. */
  predicate Odd(w: int) { w / 2 % 2 == 1 }

  /** `fetch_add(2)`. */
  function AddTwo(w: int): int { (w + 2) % WORDS }

  /** `fetch_and(!2)`. */
  function ClearTwo(w: int): int { if Odd(w) then w - 2 else w }

  lemma AddTwoBits(w: int)
    requires 0 <= w < WORDS
    ensures 0 <= AddTwo(w) < WORDS && Token(AddTwo(w)) == Token(w) && Odd(AddTwo(w)) == !Odd(w)
  {
    if w + 2 >= WORDS { assert AddTwo(w) == w + 2 - WORDS; }
  }

  lemma ClearTwoBits(w: int)
    requires 0 <= w < WORDS
    ensures 0 <= ClearTwo(w) < WORDS && Token(ClearTwo(w)) == Token(w) && !Odd(ClearTwo(w))
  {
  }

  /** The two CASes on the token leave the other bits alone. */
  lemma TokenBits(w: int)
    requires 0 <= w < WORDS
    ensures !Token(w) ==> 0 <= w + 1 < WORDS && Token(w + 1) && Odd(w + 1) == Odd(w)
    ensures Token(w) ==> 0 <= w - 1 < WORDS && !Token(w - 1) && Odd(w - 1) == Odd(w)
  {
  }

  // ---------------------------------------------------------------- steps

  /** The coroutine: `first` is the check before the yield, the other one clears the token after it. */
  datatype Co =
    | Running
    | Check(first: bool)
    | CheckCas(first: bool, seen: int)
    | Gate
    | GateWait
    | GateSpin
    | GateClear
    | Yield
    | Suspended
    | Back(early: bool)
    | Verify

  /** `subscribe` of one suspension. */
  datatype Kernel = NotIn | AddTimer | SetWait | Register | Recheck | WakeSelf | SetCancel | Finish

  datatype Unparker = Load | Cas(seen: int) | Wake

  datatype Resumer = ByUnpark(t: Tid) | ByTimer | ByCancel | ByRecheck

  datatype Exit = FlagClear | BitClear | Canceled

  /** `Park::drop`; `own` tells whether the coroutine that parked drops the park itself. */
  datatype Drop = Out | LoadFlag(own: bool) | LoadBit(own: bool) | Spin(own: bool) | Done(exit: Exit)

  datatype Shared = Shared(state: int, waitKernel: bool, waitCo: Option<nat>, checkCancel: bool)

  /** The cancel data of the coroutine: its flag, and how often cancellation was disabled. */
  datatype Cancel = Cancel(flag: bool, disabled: nat)

  predicate IsCanceled(c: Cancel) { c.flag && c.disabled == 0 }

  /**
   History: suspensions so far and who resumed each; unparks that have set the token and not yet looked for the
   coroutine; `stray`, whether bit 1 counts one half more than the suspensions account for; `left`, whether a cancel
   left the gate since a subscribe last set the flag; `torn`, whether the coroutine was suspended with an earlier
   subscribe or its half unsettled.
   */
  datatype Hist = Hist(round: nat, resumed: map<nat, Resumer>, waking: set<Tid>, stray: bool, left: bool, torn: bool)

  /** `kernel` is the subscribe of the latest suspension, `older` are the unfinished ones of earlier suspensions. */
  datatype State = State(shared: Shared, cancel: Cancel, co: Co, kernel: Kernel, older: seq<Kernel>,
                         unparkers: map<Tid, Unparker>, drop: Drop, hist: Hist)

  function SetWord(s: State, w: int): State { s.(shared := s.shared.(state := w)) }

  /** Take the coroutine out of `wait_co`, if it is there, and resume it. */
  function TakeCo(s: State, by_: Resumer): State {
    match s.shared.waitCo
    case None => s
    case Some(k) =>
      s.(shared := s.shared.(waitCo := None), co := Back(false), hist := s.hist.(resumed := s.hist.resumed[k := by_]))
  }

  /** Where `check_park` leads: block or go on. */
  function Checked(s: State, first: bool, block: bool): State {
    s.(co := if first && block then Gate else Running)
  }

  predicate OddlyMany(xs: seq<Kernel>) { |xs| % 2 == 1 }

  /** An odd number of subscribes is in flight. */
  predicate OddFlight(kernel: Kernel, older: seq<Kernel>) {
    (kernel != NotIn) != OddlyMany(older)
  }

  function Suspend(s: State): State {
    var older := if s.kernel == NotIn then s.older else s.older + [s.kernel];
    var torn := s.hist.torn || s.hist.stray || s.kernel != NotIn;
    s.(co := Suspended, kernel := AddTimer, older := older, hist := s.hist.(round := s.hist.round + 1, torn := torn))
  }

  /** `check_park`; `win`: a weak CAS succeeds. */
  function CheckNext(s: State, win: bool): State {
    var w := s.shared.state;
    match s.co
    case Check(first) => if !Token(w) then Checked(s, first, true) else s.(co := CheckCas(first, w))
    case CheckCas(first, seen) =>
      if win && w == seen then Checked(SetWord(s, seen - 1), first, false)
      else if !Token(w) then Checked(s, first, true)
      else s.(co := CheckCas(first, w))
    case _ => s
  }

  /** Waiting for the subscribe of the last suspension; a cancelled coroutine panics out of `yield_now`. */
  function GateNext(s: State): State {
    var w := s.shared.state;
    match s.co
    case Gate => s.(shared := s.shared.(waitKernel := false), co := if s.shared.waitKernel then GateWait else GateClear)
    case GateWait => s.(co := if Odd(w) then GateSpin else Yield)
    case GateSpin =>
      if IsCanceled(s.cancel) then s.(co := Running, hist := s.hist.(left := true)) else s.(co := GateWait)
    case GateClear =>
      SetWord(s, ClearTwo(w)).(co := Yield, hist := s.hist.(stray := OddFlight(s.kernel, s.older)))
    case _ => s
  }

  function CoNext(s: State, win: bool): State {
    match s.co
    case Running => s.(co := Check(true))
    case Check(_) => CheckNext(s, win)
    case CheckCas(_, _) => CheckNext(s, win)
    case Yield => if IsCanceled(s.cancel) then s.(co := Back(true)) else Suspend(s)
    case Suspended => s
    case Back(early) =>
      SetWord(s, AddTwo(s.shared.state)).(co := Verify, hist := s.hist.(stray := s.hist.stray != early))
    case Verify => s.(co := if s.shared.checkCancel && IsCanceled(s.cancel) then Running else Check(false))
    case _ => GateNext(s)
  }

  /** The phase of a subscribe after the one it is in. */
  function Later(k: Kernel, w: int): Kernel {
    match k
    case NotIn => NotIn
    case AddTimer => SetWait
    case SetWait => Register
    case Register => Recheck
    case Recheck => if Token(w) then WakeSelf else SetCancel
    case WakeSelf => Finish
    case SetCancel => Finish
    case Finish => NotIn
  }

  /** What a subscribe does to the park in each phase. */
  function Effect(s: State, k: Kernel): State {
    match k
    case SetWait => s.(shared := s.shared.(waitKernel := true), hist := s.hist.(left := false))
    case Register => s.(shared := s.shared.(waitCo := Some(s.hist.round)))
    case WakeSelf => TakeCo(s, ByRecheck)
    case Finish => SetWord(s, AddTwo(s.shared.state))
    case _ => s
  }

  function KernelNext(s: State): State {
    Effect(s, s.kernel).(kernel := Later(s.kernel, s.shared.state))
  }

  function OlderNext(s: State, x: nat): State
    requires x < |s.older|
  {
    var k := Later(s.older[x], s.shared.state);
    Effect(s, s.older[x]).(older := if k == NotIn then s.older[..x] + s.older[x + 1..] else s.older[x := k])
  }

  function EndUnpark(s: State, t: Tid): State {
    s.(unparkers := s.unparkers - {t}, hist := s.hist.(waking := s.hist.waking - {t}))
  }

  function UnparkNext(s: State, t: Tid, win: bool): State
    requires t in s.unparkers
  {
    var w := s.shared.state;
    match s.unparkers[t]
    case Load => if Token(w) then EndUnpark(s, t) else s.(unparkers := s.unparkers[t := Cas(w)])
    case Cas(seen) =>
      if win && w == seen then
        SetWord(s, seen + 1).(unparkers := s.unparkers[t := Wake], hist := s.hist.(waking := s.hist.waking + {t}))
      else if Token(w) then EndUnpark(s, t)
      else s.(unparkers := s.unparkers[t := Cas(w)])
    case Wake => EndUnpark(TakeCo(s, ByUnpark(t)), t)
  }

  /** `canceled` is what the cancel data of the dropping coroutine says; a thread is never cancelled. */
  function DropNext(s: State, canceled: bool): State {
    match s.drop
    case LoadFlag(own) => s.(drop := if s.shared.waitKernel then LoadBit(own) else Done(FlagClear))
    case LoadBit(own) => s.(drop := if Odd(s.shared.state) then Spin(own) else Done(BitClear))
    case Spin(own) => s.(drop := if canceled then Done(Canceled) else LoadBit(own))
    case _ => s
  }

  datatype Action =
    | CoStep(win: bool)
    | KernelStep
    | OlderStep(x: nat)
    | StartUnpark(t: Tid)
    | UnparkStep(t: Tid, win: bool)
    | TimerFires
    | CancelSets
    | CancelTakes
    | Disable
    | Enable
    | ClearFlag
    | Ignore(ignore: bool)
    | StartDrop(own: bool)
    | DropStep(canceled: bool)

  /** Dropping needs the park for itself: the coroutine is outside it and no unpark is at work. */
  predicate Enabled(s: State, a: Action) {
    match a
    case CoStep(_) => !s.co.Suspended? && (s.co.Running? ==> s.drop.Out?)
    case KernelStep => s.kernel != NotIn && !s.drop.Done?
    case OlderStep(x) => x < |s.older| && !s.drop.Done?
    case StartUnpark(t) => t !in s.unparkers && s.drop.Out?
    case UnparkStep(t, win) => t in s.unparkers
    case Disable => s.co.Running?
    case Enable => s.co.Running? && s.cancel.disabled > 0
    case ClearFlag => s.co.Running?
    case Ignore(_) => s.drop.Out?
    case StartDrop(_) => s.drop.Out? && s.co.Running? && s.unparkers == map[]
    case DropStep(canceled) =>
      && !s.drop.Out? && !s.drop.Done?
      && (s.drop.own ==> canceled == IsCanceled(s.cancel))
    case _ => true
  }

  function Step(s: State, a: Action): State
    requires Enabled(s, a)
  {
    match a
    case CoStep(win) => CoNext(s, win)
    case KernelStep => KernelNext(s)
    case OlderStep(x) => OlderNext(s, x)
    case StartUnpark(t) => s.(unparkers := s.unparkers[t := Load])
    case UnparkStep(t, win) => UnparkNext(s, t, win)
    case TimerFires => TakeCo(s, ByTimer)
    case CancelSets => s.(cancel := s.cancel.(flag := true))
    case CancelTakes => TakeCo(s, ByCancel)
    case Disable => s.(cancel := s.cancel.(disabled := s.cancel.disabled + 1))
    case Enable => s.(cancel := s.cancel.(disabled := s.cancel.disabled - 1))
    case ClearFlag => s.(cancel := s.cancel.(flag := false))
    case Ignore(ignore) => s.(shared := s.shared.(checkCancel := !ignore))
    case StartDrop(own) => s.(drop := LoadFlag(own))
    case DropStep(canceled) => DropNext(s, canceled)
  }

  const Init: State :=
    State(Shared(0, false, None, true), Cancel(false, 0), Running, NotIn, [], map[], Out,
          Hist(0, map[], {}, false, false, false))

  ghost predicate Run(r: seq<State>, acts: seq<Action>) {
    && |r| == |acts| + 1 && r[0] == Init
    && forall i {:trigger acts[i]} :: 0 <= i < |acts| ==> Enabled(r[i], acts[i]) && r[i + 1] == Step(r[i], acts[i])
  }

  // ---------------------------------------------------------------- invariant

  /** The coroutine has still to take its parity step for the latest suspension. */
  predicate OwesBack(co: Co) { co == Suspended || co == Back(false) }

  /** Before the gate of the next park, or outside it. */
  predicate BeforeGate(co: Co) { co.Running? || co.Check? || co.CheckCas? || co.Gate? || co.Verify? }

  predicate HoldsCo(k: Kernel) { k == AddTimer || k == SetWait || k == Register }

  /** Bit 1 counts the halves of suspensions: one by each subscribe, one by the coroutine. */
  predicate ParityInv(w: int, co: Co, kernel: Kernel, older: seq<Kernel>, stray: bool) {
    && 0 <= w < WORDS
    && (Odd(w) <==> ((OddFlight(kernel, older) != OwesBack(co)) != stray))
  }

  /** Earlier subscribes are past the store of the coroutine. */
  ghost predicate OlderInv(older: seq<Kernel>) {
    forall x :: 0 <= x < |older| ==> older[x] != NotIn && !HoldsCo(older[x])
  }

  predicate FlagInv(waitKernel: bool, co: Co, kernel: Kernel) {
    && (co.GateWait? || co.GateSpin? || co.GateClear? || co.Yield? || co == Back(true) ==> !waitKernel)
    && (co == Back(false) ==> waitKernel)
    && (co.Suspended? ==> (waitKernel <==> kernel != AddTimer && kernel != SetWait))
    && (HoldsCo(kernel) ==> co.Suspended?)
  }

  /** What holds until the coroutine is suspended with something unsettled. */
  predicate SettledInv(waitKernel: bool, co: Co, kernel: Kernel, older: seq<Kernel>, stray: bool, left: bool) {
    && older == []
    && (left ==> !waitKernel)
    && (BeforeGate(co) && !waitKernel ==> kernel == NotIn || left)
    && (co.GateClear? ==> kernel == NotIn || left)
    && (co.Yield? || co == Back(true) ==> (kernel != NotIn ==> stray) && (stray ==> left))
    && (stray ==>
          && !waitKernel
          && (((BeforeGate(co) || co.GateClear?) && kernel == NotIn) || co.Yield? || co == Back(true)))
  }

  /** A suspended coroutine is in exactly one place: with `subscribe`, or in `wait_co`. */
  predicate PlaceInv(waitCo: Option<nat>, co: Co, kernel: Kernel, round: nat) {
    && (co.Suspended? <==> HoldsCo(kernel) || waitCo.Some?)
    && !(HoldsCo(kernel) && waitCo.Some?)
    && (waitCo.Some? ==> waitCo.value == round)
    && (co.Suspended? ==> round >= 1)
  }

  ghost predicate ResumedInv(resumed: map<nat, Resumer>, co: Co, round: nat) {
    forall k :: k in resumed <==> 1 <= k <= round && !(k == round && co.Suspended?)
  }

  /** The token never waits beside a stored coroutine without someone on the way to it. */
  predicate WakeInv(w: int, waitCo: Option<nat>, kernel: Kernel, waking: set<Tid>) {
    waitCo.Some? && Token(w) ==> kernel == Recheck || kernel == WakeSelf || waking != {}
  }

  ghost predicate UnparkersInv(unparkers: map<Tid, Unparker>, waking: set<Tid>) {
    && (forall t :: t in waking <==> t in unparkers && unparkers[t].Wake?)
    && (forall t :: t in unparkers && unparkers[t].Cas? ==> !Token(unparkers[t].seen))
  }

  predicate DropInv(drop: Drop, waitKernel: bool, co: Co) {
    && (!drop.Out? ==> co.Running?)
    && (drop.LoadBit? || drop.Spin? ==> waitKernel)
  }

  /** Once dropped, what the drop saw still tells whether a subscribe is left. */
  predicate DroppedInv(drop: Drop, kernel: Kernel, left: bool) {
    && (drop == Done(BitClear) ==> kernel == NotIn)
    && (drop == Done(FlagClear) ==> kernel == NotIn || left)
  }

  ghost predicate Inv(s: State) {
    && ParityInv(s.shared.state, s.co, s.kernel, s.older, s.hist.stray)
    && OlderInv(s.older)
    && FlagInv(s.shared.waitKernel, s.co, s.kernel)
    && PlaceInv(s.shared.waitCo, s.co, s.kernel, s.hist.round)
    && ResumedInv(s.hist.resumed, s.co, s.hist.round)
    && WakeInv(s.shared.state, s.shared.waitCo, s.kernel, s.hist.waking)
    && UnparkersInv(s.unparkers, s.hist.waking)
    && DropInv(s.drop, s.shared.waitKernel, s.co)
    && (s.co.CheckCas? ==> Token(s.co.seen))
    && (!s.hist.torn ==>
          && SettledInv(s.shared.waitKernel, s.co, s.kernel, s.older, s.hist.stray, s.hist.left)
          && DroppedInv(s.drop, s.kernel, s.hist.left))
  }

  lemma TakeKeepsInv(s: State, by_: Resumer)
    requires Inv(s)
    ensures Inv(TakeCo(s, by_)) && TakeCo(s, by_).shared.waitCo == None && TakeCo(s, by_).kernel == s.kernel
  {
    hide Token, Odd, UnparkersInv, OddFlight, OlderInv;
  }

  /** The bits of the word after any of the coroutine's operations on it. */
  lemma WordBits(w: int)
    requires 0 <= w < WORDS
    ensures 0 <= AddTwo(w) < WORDS && Token(AddTwo(w)) == Token(w) && Odd(AddTwo(w)) == !Odd(w)
    ensures 0 <= ClearTwo(w) < WORDS && Token(ClearTwo(w)) == Token(w) && !Odd(ClearTwo(w))
    ensures Token(w) ==> 0 <= w - 1 < WORDS && !Token(w - 1) && Odd(w - 1) == Odd(w)
  {
    AddTwoBits(w);
    ClearTwoBits(w);
    TokenBits(w);
  }

  lemma EmptyIsEven(older: seq<Kernel>)
    ensures older == [] ==> !OddlyMany(older)
  {
  }

  /** The coroutine moves on before the gate, and at most takes the token. */
  lemma BeforeGateMoves(s: State, w: int, co: Co)
    requires Inv(s) && BeforeGate(s.co) && BeforeGate(co) && (co.CheckCas? ==> Token(co.seen))
    requires w == s.shared.state || (Token(s.shared.state) && w == s.shared.state - 1)
    requires s.drop.Out? || co.Running?
    ensures Inv(SetWord(s, w).(co := co))
  {
    TokenTaken(s, w, co);
    hide Token, ParityInv, WakeInv, UnparkersInv, OlderInv;
  }

  lemma TokenTaken(s: State, w: int, co: Co)
    requires Inv(s) && BeforeGate(s.co) && BeforeGate(co)
    requires w == s.shared.state || (Token(s.shared.state) && w == s.shared.state - 1)
    ensures ParityInv(w, co, s.kernel, s.older, s.hist.stray)
    ensures WakeInv(w, s.shared.waitCo, s.kernel, s.hist.waking)
  {
    TokenBits(s.shared.state);
    hide Token, Odd, OddFlight, UnparkersInv, OlderInv, FlagInv, SettledInv, PlaceInv, ResumedInv, DropInv, DroppedInv;
  }

  lemma CheckKeepsInv(s: State, win: bool)
    requires Inv(s) && (s.co.Check? || s.co.CheckCas?)
    ensures Inv(CheckNext(s, win))
  {
    assert s.drop.Out? && (s.co.CheckCas? ==> Token(s.co.seen));
    hide Inv, Token;
    var w := s.shared.state;
    var next := if s.co.first then Gate else Running;
    BeforeGateMoves(s, w, next);
    BeforeGateMoves(s, w, Running);
    if Token(w) {
      BeforeGateMoves(s, w, CheckCas(s.co.first, w));
      BeforeGateMoves(s, w - 1, Running);
    }
  }

  predicate AtGate(co: Co) { co.Gate? || co.GateWait? || co.GateSpin? || co.GateClear? }

  lemma GateParity(s: State)
    requires Inv(s) && AtGate(s.co)
    ensures var s' := GateNext(s);
      && ParityInv(s'.shared.state, s'.co, s'.kernel, s'.older, s'.hist.stray)
      && WakeInv(s'.shared.state, s'.shared.waitCo, s'.kernel, s'.hist.waking)
  {
    WordBits(s.shared.state);
    hide Token, Odd, ClearTwo, OddFlight, IsCanceled;
    hide OlderInv, FlagInv, SettledInv, PlaceInv, ResumedInv, UnparkersInv, DropInv, DroppedInv;
  }

  lemma GateSettled(s: State)
    requires Inv(s) && AtGate(s.co) && !s.hist.torn
    ensures var s' := GateNext(s);
      SettledInv(s'.shared.waitKernel, s'.co, s'.kernel, s'.older, s'.hist.stray, s'.hist.left)
  {
    EmptyIsEven(s.older);
    hide Token, Odd, ClearTwo, IsCanceled, OddlyMany, OlderInv, PlaceInv, ResumedInv, UnparkersInv, DropInv, DroppedInv;
    hide WakeInv;
  }

  lemma GateRest(s: State)
    requires Inv(s) && AtGate(s.co)
    ensures var s' := GateNext(s);
      && s'.older == s.older && s'.unparkers == s.unparkers && s'.drop.Out? && s'.hist.torn == s.hist.torn
      && s'.hist.waking == s.hist.waking && !s'.co.CheckCas?
      && FlagInv(s'.shared.waitKernel, s'.co, s'.kernel)
      && PlaceInv(s'.shared.waitCo, s'.co, s'.kernel, s'.hist.round)
      && ResumedInv(s'.hist.resumed, s'.co, s'.hist.round)
  {
    hide Token, Odd, ClearTwo, OddFlight, IsCanceled, OlderInv, SettledInv, UnparkersInv, ParityInv, WakeInv;
    hide DroppedInv;
  }

  lemma GateKeepsInv(s: State)
    requires Inv(s) && AtGate(s.co)
    ensures Inv(GateNext(s))
  {
    GateParity(s);
    if !s.hist.torn { GateSettled(s); }
    GateRest(s);
    hide GateNext, ParityInv, OlderInv, FlagInv, SettledInv, PlaceInv, ResumedInv, WakeInv, UnparkersInv, Token;
  }

  lemma SuspendParity(s: State)
    requires Inv(s) && s.co.Yield?
    ensures var s' := Suspend(s);
      ParityInv(s'.shared.state, s'.co, s'.kernel, s'.older, s'.hist.stray) && OlderInv(s'.older)
  {
    hide Token, Odd, WakeInv, SettledInv, ResumedInv, UnparkersInv, DropInv, DroppedInv;
  }

  lemma SuspendKeepsInv(s: State)
    requires Inv(s) && s.co.Yield?
    ensures Inv(Suspend(s))
  {
    SuspendParity(s);
    hide Token, ParityInv, OlderInv, UnparkersInv;
  }

  lemma BackKeepsInv(s: State, win: bool)
    requires Inv(s) && s.co.Back?
    ensures Inv(CoNext(s, win))
  {
    AddTwoBits(s.shared.state);
    EmptyIsEven(s.older);
    hide Token, Odd, AddTwo, OddlyMany, OlderInv, UnparkersInv, ResumedInv;
  }

  lemma EarlyKeepsInv(s: State)
    requires Inv(s) && s.co.Yield?
    ensures Inv(s.(co := Back(true)))
  {
    hide Token, Odd, OddFlight, OlderInv, UnparkersInv;
  }

  lemma CoKeepsInv(s: State, win: bool)
    requires Inv(s) && Enabled(s, CoStep(win))
    ensures Inv(CoNext(s, win))
  {
    assert s.drop.Out?;
    hide Inv, CheckNext, GateNext, Suspend, IsCanceled;
    match s.co
    case Running => BeforeGateMoves(s, s.shared.state, Check(true));
    case Check(_) => CheckKeepsInv(s, win);
    case CheckCas(_, _) => CheckKeepsInv(s, win);
    case Yield =>
      EarlyKeepsInv(s);
      SuspendKeepsInv(s);
    case Back(_) => BackKeepsInv(s, win);
    case Verify =>
      BeforeGateMoves(s, s.shared.state, Running);
      BeforeGateMoves(s, s.shared.state, Check(false));
    case _ => GateKeepsInv(s);
  }

  /** A subscribe in `Finish` adds its half and is gone. */
  lemma FinishParity(w: int, co: Co, kernel: Kernel, older: seq<Kernel>, stray: bool)
    requires ParityInv(w, co, kernel, older, stray)
    ensures kernel != NotIn ==> ParityInv(AddTwo(w), co, NotIn, older, stray)
    ensures forall x :: 0 <= x < |older| ==> ParityInv(AddTwo(w), co, kernel, older[..x] + older[x + 1..], stray)
    ensures Token(AddTwo(w)) == Token(w)
  {
    AddTwoBits(w);
    hide Token, Odd, AddTwo;
  }

  lemma FinishKeepsInv(s: State)
    requires Inv(s) && s.kernel == Finish && !s.drop.Done?
    ensures Inv(KernelNext(s))
  {
    FinishParity(s.shared.state, s.co, s.kernel, s.older, s.hist.stray);
    hide Token, AddTwo, ParityInv, UnparkersInv, OlderInv, ResumedInv;
  }

  /** The other phases leave the word alone. */
  lemma PhaseKeepsInv(s: State)
    requires Inv(s) && s.kernel != NotIn && s.kernel != Finish && s.kernel != WakeSelf && !s.drop.Done?
    ensures Inv(KernelNext(s))
  {
    hide Token, Odd, OddlyMany, UnparkersInv, OlderInv, ResumedInv;
  }

  lemma WakeSelfKeepsInv(s: State)
    requires Inv(s) && s.kernel == WakeSelf && !s.drop.Done?
    ensures Inv(KernelNext(s))
  {
    TakeKeepsInv(s, ByRecheck);
    var s1 := TakeCo(s, ByRecheck);
    assert KernelNext(s) == s1.(kernel := Finish);
    hide TakeCo, KernelNext;
    hide Token, Odd, OddlyMany, UnparkersInv, OlderInv, ResumedInv;
  }

  lemma KernelKeepsInv(s: State)
    requires Inv(s) && Enabled(s, KernelStep)
    ensures Inv(KernelNext(s))
  {
    hide Inv, KernelNext;
    if s.kernel == Finish {
      FinishKeepsInv(s);
    } else if s.kernel == WakeSelf {
      WakeSelfKeepsInv(s);
    } else {
      PhaseKeepsInv(s);
    }
  }

  /** Only the list of earlier subscribes changes, and the coroutine was torn before. */
  lemma OlderMoves(s: State, older: seq<Kernel>)
    requires Inv(s) && s.hist.torn && OlderInv(older) && |older| == |s.older|
    ensures Inv(s.(older := older))
  {
    hide Token, Odd, UnparkersInv, OlderInv, ResumedInv, FlagInv, PlaceInv, WakeInv, SettledInv, DropInv, DroppedInv;
  }

  lemma OlderFinishes(s: State, x: nat)
    requires Inv(s) && s.hist.torn && x < |s.older|
    ensures Inv(SetWord(s, AddTwo(s.shared.state)).(older := s.older[..x] + s.older[x + 1..]))
  {
    FinishParity(s.shared.state, s.co, s.kernel, s.older, s.hist.stray);
    hide Token, AddTwo, ParityInv, UnparkersInv, ResumedInv, FlagInv, PlaceInv, SettledInv, DropInv, DroppedInv;
  }

  lemma OlderFacts(s: State, x: nat)
    requires Inv(s) && x < |s.older|
    ensures s.hist.torn && OlderInv(s.older) && s.older[x] != NotIn && !HoldsCo(s.older[x])
  {
    hide ParityInv, UnparkersInv, ResumedInv, FlagInv, PlaceInv, WakeInv, DropInv, DroppedInv;
  }

  lemma OlderKeepsInv(s: State, x: nat)
    requires Inv(s) && Enabled(s, OlderStep(x))
    ensures Inv(OlderNext(s, x))
  {
    hide Inv, TakeCo, Token, AddTwo;
    OlderFacts(s, x);
    var k := s.older[x];
    if k == Finish {
      OlderFinishes(s, x);
    } else {
      TakeKeepsInv(s, ByRecheck);
      TakeOlder(s, ByRecheck);
      var older := s.older[x := Later(k, s.shared.state)];
      OlderMoves(s, older);
      OlderMoves(TakeCo(s, ByRecheck), older);
    }
  }

  lemma TakeOlder(s: State, by_: Resumer)
    ensures TakeCo(s, by_).older == s.older && TakeCo(s, by_).hist.torn == s.hist.torn
  {
  }

  lemma EndUnparkKeepsInv(s: State, t: Tid)
    requires Inv(s) && (t !in s.hist.waking || s.shared.waitCo == None)
    ensures Inv(EndUnpark(s, t))
  {
    hide Token, Odd, ParityInv, OlderInv, FlagInv, SettledInv, PlaceInv, ResumedInv, DropInv, DroppedInv;
    assert t !in s.hist.waking ==> s.hist.waking - {t} == s.hist.waking;
  }

  lemma CasKeepsInv(s: State, t: Tid)
    requires Inv(s) && t in s.unparkers
    ensures !Token(s.shared.state) ==>
      var hist := s.hist.(waking := s.hist.waking - {t});
      Inv(s.(unparkers := s.unparkers[t := Cas(s.shared.state)], hist := hist))
    ensures !Token(s.shared.state) ==>
      var hist := s.hist.(waking := s.hist.waking + {t});
      Inv(SetWord(s, s.shared.state + 1).(unparkers := s.unparkers[t := Wake], hist := hist))
  {
    TokenBits(s.shared.state);
    hide Token, Odd, OddFlight, OlderInv, FlagInv, SettledInv, PlaceInv, ResumedInv, DropInv, DroppedInv;
  }

  lemma UnparkKeepsInv(s: State, t: Tid, win: bool)
    requires Inv(s) && t in s.unparkers
    ensures Inv(UnparkNext(s, t, win))
  {
    assert s.unparkers[t].Wake? <==> t in s.hist.waking;
    assert s.unparkers[t].Cas? ==> !Token(s.unparkers[t].seen);
    hide Inv, Token, EndUnpark, TakeCo;
    if s.unparkers[t].Wake? {
      TakeKeepsInv(s, ByUnpark(t));
      EndUnparkKeepsInv(TakeCo(s, ByUnpark(t)), t);
    } else {
      assert s.hist.waking - {t} == s.hist.waking;
      EndUnparkKeepsInv(s, t);
      CasKeepsInv(s, t);
    }
  }

  lemma DropKeepsInv(s: State, canceled: bool)
    requires Inv(s) && Enabled(s, DropStep(canceled))
    ensures Inv(DropNext(s, canceled))
  {
    EmptyIsEven(s.older);
    hide Token, Odd, OddlyMany, OlderInv, PlaceInv, ResumedInv, WakeInv, UnparkersInv, FlagInv;
  }

  lemma OtherKeepsInv(s: State, a: Action)
    requires Inv(s) && Enabled(s, a)
    requires a.CancelSets? || a.Disable? || a.Enable? || a.ClearFlag? || a.Ignore? || a.StartDrop? || a.StartUnpark?
    ensures Inv(Step(s, a))
  {
    hide Token, Odd, ParityInv, OlderInv, PlaceInv, ResumedInv, WakeInv, FlagInv, SettledInv;
  }

  lemma StepKeepsInv(s: State, a: Action)
    requires Inv(s) && Enabled(s, a)
    ensures Inv(Step(s, a))
  {
    hide Inv, CoNext, KernelNext, OlderNext, UnparkNext, TakeCo, DropNext;
    match a
    case CoStep(win) => CoKeepsInv(s, win);
    case KernelStep => KernelKeepsInv(s);
    case OlderStep(x) => OlderKeepsInv(s, x);
    case UnparkStep(t, win) => UnparkKeepsInv(s, t, win);
    case TimerFires => TakeKeepsInv(s, ByTimer);
    case CancelTakes => TakeKeepsInv(s, ByCancel);
    case DropStep(canceled) => DropKeepsInv(s, canceled);
    case _ => OtherKeepsInv(s, a);
  }

  lemma InitInv()
    ensures Inv(Init)
  {
  }

  lemma {:induction false} RunInv(r: seq<State>, acts: seq<Action>, i: nat)
    requires Run(r, acts) && i < |r|
    ensures Inv(r[i])
  {
    hide Inv, Step, Enabled;
    if i == 0 {
      InitInv();
    } else {
      RunInv(r, acts, i - 1);
      StepKeepsInv(r[i - 1], acts[i - 1]);
    }
  }

  // ---------------------------------------------------------------- what a park promises

  /** Every suspension that is over was ended by exactly one resumer, and that stays so. */
  lemma ResumedOnce(r: seq<State>, acts: seq<Action>, i: nat, k: nat)
    requires Run(r, acts) && i < |acts|
    ensures k in r[i].hist.resumed <==> 1 <= k <= r[i].hist.round && !(k == r[i].hist.round && r[i].co.Suspended?)
    ensures k in r[i].hist.resumed ==>
      k in r[i + 1].hist.resumed && r[i + 1].hist.resumed[k] == r[i].hist.resumed[k]
  {
    RunInv(r, acts, i);
    assert r[i + 1] == Step(r[i], acts[i]);
    if k in r[i].hist.resumed { StepKeepsResumed(r[i], acts[i], k); }
  }

  /** What the history of resumers was is still so. */
  predicate KeepsResumed(s: State, s': State, k: nat) {
    k in s.hist.resumed && k in s'.hist.resumed && s'.hist.resumed[k] == s.hist.resumed[k]
  }

  lemma StepKeepsResumed(s: State, a: Action, k: nat)
    requires Inv(s) && Enabled(s, a) && k in s.hist.resumed
    ensures KeepsResumed(s, Step(s, a), k)
  {
    assert s.shared.waitCo.Some? ==> k != s.shared.waitCo.value;
    hide Inv, CoNext, KernelNext, OlderNext, UnparkNext, TakeCo;
    match a
    case CoStep(win) => CoKeepsResumed(s, win);
    case KernelStep => EffectKeepsResumed(s, s.kernel, k);
    case OlderStep(x) => EffectKeepsResumed(s, s.older[x], k);
    case UnparkStep(t, win) => UnparkKeepsResumed(s, t, win, k);
    case TimerFires => TakeKeepsResumed(s, ByTimer, k);
    case CancelTakes => TakeKeepsResumed(s, ByCancel, k);
    case _ =>
  }

  lemma EffectKeepsResumed(s: State, kernel: Kernel, k: nat)
    requires k in s.hist.resumed && (s.shared.waitCo.Some? ==> k != s.shared.waitCo.value)
    ensures KeepsResumed(s, Effect(s, kernel), k)
    ensures KeepsResumed(s, KernelNext(s), k) || kernel != s.kernel
    ensures forall x: nat :: x < |s.older| && s.older[x] == kernel ==> KeepsResumed(s, OlderNext(s, x), k)
  {
    hide Token, AddTwo;
  }

  lemma UnparkKeepsResumed(s: State, t: Tid, win: bool, k: nat)
    requires k in s.hist.resumed && (s.shared.waitCo.Some? ==> k != s.shared.waitCo.value) && t in s.unparkers
    ensures KeepsResumed(s, UnparkNext(s, t, win), k)
  {
    hide Token;
  }

  lemma CoKeepsResumed(s: State, win: bool)
    ensures CoNext(s, win).hist.resumed == s.hist.resumed
  {
    hide Token, Odd, AddTwo, ClearTwo, OddFlight, IsCanceled;
  }

  lemma TakeKeepsResumed(s: State, by_: Resumer, k: nat)
    requires k in s.hist.resumed && (s.shared.waitCo.Some? ==> k != s.shared.waitCo.value)
    ensures KeepsResumed(s, TakeCo(s, by_), k)
  {
  }

  /** Storing a coroutine never overwrites another one, and a suspended one is always held somewhere. */
  lemma CoroutineIsKept(r: seq<State>, acts: seq<Action>, i: nat)
    requires Run(r, acts) && i < |r|
    ensures r[i].kernel == Register ==> r[i].shared.waitCo == None
    ensures r[i].co.Suspended? <==> HoldsCo(r[i].kernel) || r[i].shared.waitCo == Some(r[i].hist.round)
    ensures forall x :: 0 <= x < |r[i].older| ==> !HoldsCo(r[i].older[x])
  {
    RunInv(r, acts, i);
  }

  /** An unpark is never lost: with the token set, a stored coroutine is about to be taken by subscribe or an unpark. */
  lemma UnparkNotLost(r: seq<State>, acts: seq<Action>, i: nat)
    requires Run(r, acts) && i < |r| && r[i].shared.waitCo.Some? && Token(r[i].shared.state)
    ensures
      || r[i].kernel == Recheck
      || r[i].kernel == WakeSelf
      || exists t :: t in r[i].unparkers && r[i].unparkers[t].Wake?
    ensures r[i].kernel == Recheck ==> KernelNext(r[i]).kernel == WakeSelf
    ensures r[i].kernel == WakeSelf ==> KernelNext(r[i]).co == Back(false)
  {
    RunInv(r, acts, i);
    if r[i].kernel != Recheck && r[i].kernel != WakeSelf {
      var t :| t in r[i].hist.waking;
      assert t in r[i].unparkers && r[i].unparkers[t].Wake?;
    }
  }

  // ---------------------------------------------------------------- waiting for subscribe

  predicate InFlight(s: State) { s.kernel != NotIn || s.older != [] }

  /** `Park::drop` gets past its wait: the flag says no subscribe was entered, or bit 1 is clear. */
  predicate DropPasses(s: State) {
    !s.shared.waitKernel || !Odd(s.shared.state)
  }

  /** The step at `j` is a cancel that panics out of the wait at the gate. */
  predicate LeavesGate(r: seq<State>, acts: seq<Action>, j: nat)
    requires |r| == |acts| + 1
  {
    j < |acts| && acts[j].CoStep? && r[j].co.GateSpin? && IsCanceled(r[j].cancel)
  }

  /** Step `j` clears the bit at the gate of a park while a subscribe is in flight. */
  predicate ClearsBeside(r: seq<State>, acts: seq<Action>, j: nat)
    requires |r| == |acts| + 1
  {
    j < |acts| && acts[j].CoStep? && r[j].co.GateClear? && InFlight(r[j])
  }

  /** A cancel left the gate at `j`, and no subscribe has set the flag from then to `i`. */
  ghost predicate LeftSince(r: seq<State>, acts: seq<Action>, j: nat, i: nat)
    requires |r| == |acts| + 1 && i < |r|
  {
    j < i && LeavesGate(r, acts, j) && forall k :: j < k < i ==> !SetsFlag(r, acts, k)
  }

  predicate SetsFlag(r: seq<State>, acts: seq<Action>, k: nat)
    requires |r| == |acts| + 1
  {
    k < |acts| && acts[k].KernelStep? && r[k].kernel == SetWait
  }

  /** `left` is what its name says. */
  lemma {:induction false} LeftExactly(r: seq<State>, acts: seq<Action>, i: nat)
    requires Run(r, acts) && i < |r|
    ensures r[i].hist.left <==> exists j: nat :: LeftSince(r, acts, j, i)
  {
    if i > 0 {
      LeftExactly(r, acts, i - 1);
      RunInv(r, acts, i - 1);
      LeftStep(r[i - 1], acts[i - 1]);
      assert Enabled(r[i - 1], acts[i - 1]) && r[i] == Step(r[i - 1], acts[i - 1]);
      hide Run, Inv, Step, Enabled;
      if r[i].hist.left {
        if LeavesGate(r, acts, i - 1) {
          assert LeftSince(r, acts, i - 1, i);
        } else {
          var j: nat :| LeftSince(r, acts, j, i - 1);
          assert LeftSince(r, acts, j, i);
        }
      }
      if j: nat :| LeftSince(r, acts, j, i) {
        assert !SetsFlag(r, acts, i - 1) || j == i - 1;
        if j < i - 1 { assert LeftSince(r, acts, j, i - 1); }
      }
    }
  }

  lemma LeftStep(s: State, a: Action)
    requires Inv(s) && Enabled(s, a)
    ensures Step(s, a).hist.left <==>
      (a.CoStep? && s.co.GateSpin? && IsCanceled(s.cancel)) || (s.hist.left && !(a.KernelStep? && s.kernel == SetWait))
  {
    assert forall x :: 0 <= x < |s.older| ==> s.older[x] != SetWait;
    hide Inv, Token, Odd, AddTwo, ClearTwo, OddFlight;
  }

  // ---------------------------------------------------------------- how a suspension can be torn

  /** The gate of the park that is at its yield cleared the bit beside a subscribe in flight. */
  ghost predicate ClearedBeside(r: seq<State>, acts: seq<Action>, i: nat)
    requires |r| == |acts| + 1 && i < |r|
  {
    exists j: nat :: j < i && ClearsBeside(r, acts, j) && YieldsFrom(r, j + 1, i)
  }

  ghost predicate YieldsFrom(r: seq<State>, j: nat, i: nat)
    requires i < |r|
  {
    forall k :: j <= k <= i ==> r[k].co.Yield?
  }

  /** Only its own step takes the coroutine to the yield. */
  lemma YieldEntered(s: State, a: Action)
    requires Inv(s) && Enabled(s, a) && !s.hist.torn && Step(s, a).co.Yield?
    ensures !a.CoStep? ==> s.co.Yield? && Step(s, a).hist.stray == s.hist.stray
    ensures a.CoStep? ==>
      (s.co.GateWait? && !Step(s, a).hist.stray) || (s.co.GateClear? && Step(s, a).hist.stray == InFlight(s))
  {
    if a.CoStep? { GateEntersYield(s, a.win); }
    hide Inv, CoNext, Token, Odd, AddTwo;
  }

  lemma GateEntersYield(s: State, win: bool)
    requires Inv(s) && !s.hist.torn && CoNext(s, win).co.Yield?
    ensures
      || (s.co.GateWait? && !CoNext(s, win).hist.stray)
      || (s.co.GateClear? && CoNext(s, win).hist.stray == InFlight(s))
  {
    EmptyIsEven(s.older);
    hide Token, Odd, AddTwo, ClearTwo, UnparkersInv, ParityInv, WakeInv, ResumedInv, OddlyMany, OlderInv, IsCanceled;
  }

  lemma CoKeepsTorn(s: State, win: bool)
    ensures CoNext(s, win).hist.torn <==>
      s.hist.torn || (s.co.Yield? && !IsCanceled(s.cancel) && (s.hist.stray || s.kernel != NotIn))
  {
    hide Token, Odd, AddTwo, ClearTwo, OddFlight;
  }

  lemma StepKeepsTorn(s: State, a: Action)
    requires Enabled(s, a)
    ensures Step(s, a).hist.torn <==>
      s.hist.torn || (a.CoStep? && s.co.Yield? && !IsCanceled(s.cancel) && (s.hist.stray || s.kernel != NotIn))
  {
    hide CoNext, Token, Odd, AddTwo;
    if a.CoStep? { CoKeepsTorn(s, a.win); }
  }

  lemma {:induction false} StrayAtYield(r: seq<State>, acts: seq<Action>, i: nat)
    requires Run(r, acts) && i < |r| && !r[i].hist.torn && r[i].co.Yield?
    ensures r[i].hist.stray <==> ClearedBeside(r, acts, i)
  {
    hide Inv, Step, Enabled, InFlight;
    if i > 0 {
      RunInv(r, acts, i - 1);
      assert Enabled(r[i - 1], acts[i - 1]) && r[i] == Step(r[i - 1], acts[i - 1]);
      StepKeepsTorn(r[i - 1], acts[i - 1]);
      YieldEntered(r[i - 1], acts[i - 1]);
      hide Run;
      if acts[i - 1].CoStep? {
        EnteredBeside(r, acts, i);
      } else {
        StrayAtYield(r, acts, i - 1);
        StillBeside(r, acts, i);
      }
    }
  }

  lemma EnteredBeside(r: seq<State>, acts: seq<Action>, i: nat)
    requires |r| == |acts| + 1 && 0 < i < |r| && !r[i - 1].co.Yield? && r[i].co.Yield? && acts[i - 1].CoStep?
    ensures ClearedBeside(r, acts, i) <==> ClearsBeside(r, acts, i - 1)
  {
    if ClearsBeside(r, acts, i - 1) { assert YieldsFrom(r, i, i); }
  }

  lemma StillBeside(r: seq<State>, acts: seq<Action>, i: nat)
    requires |r| == |acts| + 1 && 0 < i < |r| && r[i].co.Yield? && r[i - 1].co.Yield?
    ensures ClearedBeside(r, acts, i) <==> ClearedBeside(r, acts, i - 1)
  {
    if ClearedBeside(r, acts, i) {
      var j: nat :| j < i && ClearsBeside(r, acts, j) && YieldsFrom(r, j + 1, i);
      assert j < i - 1 && YieldsFrom(r, j + 1, i - 1);
    }
    if ClearedBeside(r, acts, i - 1) {
      var j: nat :| j < i - 1 && ClearsBeside(r, acts, j) && YieldsFrom(r, j + 1, i - 1);
      assert YieldsFrom(r, j + 1, i);
    }
  }

  /**
   A suspension is torn first by a coroutine that is not cancelled any more, and whose park cleared the bit at the gate
   beside a subscribe in flight. The gate lets it pass only because a cancel left the gate before.
   */
  lemma TornExactly(r: seq<State>, acts: seq<Action>, i: nat)
    requires Run(r, acts) && i < |acts| && !r[i].hist.torn
    ensures r[i + 1].hist.torn <==>
      acts[i].CoStep? && r[i].co.Yield? && !IsCanceled(r[i].cancel) && ClearedBeside(r, acts, i)
    ensures r[i + 1].hist.torn || ClearsBeside(r, acts, i) ==> r[i].hist.left
  {
    RunInv(r, acts, i);
    StepKeepsTorn(r[i], acts[i]);
    if r[i].co.Yield? { StrayAtYield(r, acts, i); }
    assert Enabled(r[i], acts[i]) && r[i + 1] == Step(r[i], acts[i]);
    hide Run, Step, ClearedBeside, ParityInv, OlderInv, PlaceInv, ResumedInv, WakeInv, UnparkersInv, FlagInv, DropInv;
  }

  ghost predicate GateNeverLeft(r: seq<State>, acts: seq<Action>, i: nat)
    requires |r| == |acts| + 1
  {
    forall j :: 0 <= j < i ==> !LeavesGate(r, acts, j)
  }

  /** Without a cancel at the gate nothing is left or torn. */
  lemma {:induction false} NeverLeftIsSettled(r: seq<State>, acts: seq<Action>, i: nat)
    requires Run(r, acts) && i < |r| && GateNeverLeft(r, acts, i)
    ensures !r[i].hist.left && !r[i].hist.torn
  {
    hide Step, Enabled, Inv;
    LeftExactly(r, acts, i);
    if i > 0 {
      assert GateNeverLeft(r, acts, i - 1);
      NeverLeftIsSettled(r, acts, i - 1);
      TornExactly(r, acts, i - 1);
    }
  }

  /** A coroutine yields beside an unfinished subscribe only if its gate cleared the bit beside it. */
  lemma YieldAfterSubscribe(r: seq<State>, acts: seq<Action>, i: nat)
    requires Run(r, acts) && i < |r| && r[i].co.Yield?
    ensures !r[i].hist.torn && InFlight(r[i]) ==> r[i].hist.left && ClearedBeside(r, acts, i)
    ensures GateNeverLeft(r, acts, i) ==> !InFlight(r[i])
  {
    RunInv(r, acts, i);
    if !r[i].hist.torn { StrayAtYield(r, acts, i); }
    if GateNeverLeft(r, acts, i) { NeverLeftIsSettled(r, acts, i); }
    hide Run, ClearedBeside, GateNeverLeft;
  }

  /**
   Dropping the park outside a call waits for the subscribe of the last suspension, unless a cancel left the gate since
   that subscribe set the flag. Once a suspension was torn the bit tells the parity of the subscribes in flight, off by
   one if `stray`.
   */
  lemma DropAfterSubscribe(r: seq<State>, acts: seq<Action>, i: nat)
    requires Run(r, acts) && i < |r| && r[i].co.Running?
    ensures !r[i].hist.torn ==> (DropPasses(r[i]) <==> !InFlight(r[i]) || r[i].hist.left)
    ensures GateNeverLeft(r, acts, i) ==> (DropPasses(r[i]) <==> !InFlight(r[i]))
    ensures DropPasses(r[i]) <==>
      !r[i].shared.waitKernel || OddFlight(r[i].kernel, r[i].older) == r[i].hist.stray
  {
    RunInv(r, acts, i);
    if GateNeverLeft(r, acts, i) { NeverLeftIsSettled(r, acts, i); }
    EmptyIsEven(r[i].older);
    hide Run, GateNeverLeft, OddlyMany, OlderInv;
  }

  /** The whole drop: it ends beside a subscribe only by a cancel, at the gate before or in its own wait. */
  lemma DroppedAfterSubscribe(r: seq<State>, acts: seq<Action>, i: nat)
    requires Run(r, acts) && i < |r| && r[i].drop.Done? && !r[i].hist.torn && InFlight(r[i])
    ensures r[i].drop.exit == Canceled || (r[i].drop.exit == FlagClear && r[i].hist.left && !GateNeverLeft(r, acts, i))
  {
    RunInv(r, acts, i);
    if GateNeverLeft(r, acts, i) { NeverLeftIsSettled(r, acts, i); }
    hide Run, GateNeverLeft;
  }

  /** The wait at the gate ends exactly when the subscribe has finished, until a suspension was torn. */
  lemma GateWaitsForSubscribe(r: seq<State>, acts: seq<Action>, i: nat)
    requires Run(r, acts) && i < |r| && r[i].co.GateWait?
    ensures !r[i].hist.torn ==> (Odd(r[i].shared.state) <==> InFlight(r[i]))
    ensures Odd(r[i].shared.state) <==> OddFlight(r[i].kernel, r[i].older) != r[i].hist.stray
  {
    RunInv(r, acts, i);
    EmptyIsEven(r[i].older);
    hide Run, OddlyMany, OlderInv;
  }
}
