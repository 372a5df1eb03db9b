/**
 The channel buffer of src/std/sync/channel.rs: any number of send, try_send, recv and try_recv calls, clones and drops
 of both ends. `wake_recv` is a run of the machine of SemphoreSteps; the buffer is a sequence; a sender that waits for
 space may be woken at any time.
 */
module Channel {
  import opened Common
  import S = SemphoreSteps
  import P = SemphoreProof

  type Value(!new)

  datatype Sender =
    | CheckOpen(v: Value, block: bool)
    | CheckSpace(v: Value, block: bool)
    | WaitSpace(v: Value)
    | Ready(v: Value)
    | Post

  /** A receive call, named by its call on `wake_recv`; `again` says that it will wait if the first try fails. */
  datatype Receiver =
    | Trying(again: bool)
    | TryFailed(again: bool)
    | Waiting
    | Granted
    | NoData
    | Unreachable

  datatype Ends = Ends(senderNum: int, receiverNum: int, closing: bool, draining: bool)

  /**
   History: values in the order of their pushes, pops by receivers, pops by the last receiver's drop, receivers that
   found nothing, posts made to close the channel, senders and receivers at the points that matter, and the most
   senders at work at once.
   */
  datatype Log = Log(sent: seq<Value>, received: nat, discarded: nat, emptied: nat, extra: nat)

  datatype Sets = Sets(posting: set<Tid>, ready: set<Tid>, granted: set<Tid>, peak: nat)

  datatype State = State(buffer: seq<Value>, limit: nat, ends: Ends, wake: S.State, senders: map<Tid, Sender>,
                         receivers: map<Tid, Receiver>, log: Log, sets: Sets)

  // ---------------------------------------------------------------- steps

  function SetSender(s: State, t: Tid, c: Sender): State {
    var sets := s.sets.(posting := Put(s.sets.posting, t, c.Post?), ready := Put(s.sets.ready, t, c.Ready?));
    s.(senders := s.senders[t := c], sets := sets)
  }

  function EndSender(s: State, t: Tid): State {
    s.(senders := s.senders - {t}, sets := s.sets.(posting := s.sets.posting - {t}, ready := s.sets.ready - {t}))
  }

  function SetReceiver(s: State, b: Tid, c: Receiver): State {
    s.(receivers := s.receivers[b := c], sets := s.sets.(granted := Put(s.sets.granted, b, c.Granted?)))
  }

  function EndReceiver(s: State, b: Tid): State {
    s.(receivers := s.receivers - {b}, sets := s.sets.(granted := s.sets.granted - {b}))
  }

  predicate Fresh(w: S.State, b: nat) { b !in w.calls && b !in w.hist.stage }

  function StartPost(s: State, p: nat): State
    requires Fresh(s.wake, p)
  {
    s.(wake := S.Step(s.wake, S.StartPost(p)))
  }

  /** `stop`: the wait for space is cancelled. */
  function SenderNext(s: State, t: Tid, p: nat, stop: bool): State
    requires t in s.senders && Fresh(s.wake, p)
  {
    match s.senders[t]
    case CheckOpen(v, block) =>
      if s.ends.receiverNum == 0 then EndSender(s, t) else SetSender(s, t, CheckSpace(v, block))
    case CheckSpace(v, block) =>
      if |s.buffer| >= s.limit then (if block then SetSender(s, t, WaitSpace(v)) else EndSender(s, t))
      else SetSender(s, t, Ready(v))
    case WaitSpace(v) => if stop then EndSender(s, t) else SetSender(s, t, CheckSpace(v, true))
    case Ready(v) => SetSender(s, t, Post).(buffer := s.buffer + [v], log := s.log.(sent := s.log.sent + [v]))
    case Post => EndSender(StartPost(s, p), t)
  }

  /** A step inside `wake_recv`: a receive call learns of its permit, or that it got none. */
  function WakeNext(s: State, b: nat, fail: bool): State
    requires S.Enabled(s.wake, S.Next(b, fail))
  {
    var w := S.CallNext(s.wake, b, fail);
    var s1 := s.(wake := w);
    if b in s.receivers && (s.receivers[b].Trying? || s.receivers[b].Waiting?) then
      if w.tally.taken > s.wake.tally.taken then SetReceiver(s1, b, Granted)
      else if b in w.calls then s1
      else if s.receivers[b].Trying? then SetReceiver(s1, b, TryFailed(s.receivers[b].again))
      else EndReceiver(s1, b)
    else s1
  }

  /** `next` names the second call on `wake_recv`. */
  function ReceiverNext(s: State, b: nat, next: nat): State
    requires b in s.receivers && Fresh(s.wake, next)
  {
    match s.receivers[b]
    case TryFailed(again) =>
      if s.ends.senderNum == 0 || !again then EndReceiver(s, b)
      else SetReceiver(EndReceiver(s.(wake := S.Step(s.wake, S.StartWait(next, true))), b), next, Waiting)
    case Granted =>
      if s.buffer != [] then EndReceiver(s, b).(buffer := s.buffer[1..], log := s.log.(received := s.log.received + 1))
      else SetReceiver(s, b, NoData).(log := s.log.(emptied := s.log.emptied + 1))
    case NoData => if s.ends.senderNum == 0 then EndReceiver(s, b) else SetReceiver(s, b, Unreachable)
    case _ => s
  }

  datatype Action =
    | StartSend(t: Tid, v: Value, block: bool)
    | Send(t: Tid, p: nat, stop: bool)
    | StartRecv(b: nat, again: bool)
    | Recv(b: nat, next: nat)
    | Wake(b: nat, fail: bool)
    | CloneSend
    | CloneRecv
    | DropSend
    | DropRecv
    | Close(p: nat)
    | Drain

  /** The last handle of an end is dropped only when no call uses it. */
  predicate Enabled(s: State, a: Action) {
    match a
    case StartSend(t, _, _) => t !in s.senders && s.ends.senderNum > 0
    case Send(t, p, _) => t in s.senders && Fresh(s.wake, p) && p !in s.receivers
    case StartRecv(b, _) => b !in s.receivers && Fresh(s.wake, b) && s.ends.receiverNum > 0
    case Recv(b, next) => b in s.receivers && Fresh(s.wake, next) && next !in s.receivers
    case Wake(b, fail) => S.Enabled(s.wake, S.Next(b, fail))
    case CloneSend => s.ends.senderNum > 0
    case CloneRecv => s.ends.receiverNum > 0
    case DropSend => s.ends.senderNum > 1 || (s.ends.senderNum == 1 && s.senders == map[])
    case DropRecv => s.ends.receiverNum > 1 || (s.ends.receiverNum == 1 && s.receivers == map[])
    case Close(p) => s.ends.closing && Fresh(s.wake, p) && p !in s.receivers
    case Drain => s.ends.draining
  }

  function Step(s: State, a: Action): State
    requires Enabled(s, a)
  {
    match a
    case StartSend(t, v, block) =>
      var n := |s.senders| + 1;
      var peak := if n > s.sets.peak then n else s.sets.peak;
      var sets := s.sets.(posting := s.sets.posting - {t}, ready := s.sets.ready - {t}, peak := peak);
      SetSender(s, t, CheckOpen(v, block)).(sets := sets)
    case Send(t, p, stop) => SenderNext(s, t, p, stop)
    case StartRecv(b, again) => SetReceiver(s.(wake := S.Step(s.wake, S.StartWait(b, false))), b, Trying(again))
    case Recv(b, next) => ReceiverNext(s, b, next)
    case Wake(b, fail) => WakeNext(s, b, fail)
    case CloneSend => s.(ends := s.ends.(senderNum := s.ends.senderNum + 1))
    case CloneRecv => s.(ends := s.ends.(receiverNum := s.ends.receiverNum + 1))
    case DropSend => s.(ends := s.ends.(senderNum := s.ends.senderNum - 1, closing := s.ends.senderNum == 1))
    case DropRecv => s.(ends := s.ends.(receiverNum := s.ends.receiverNum - 1, draining := s.ends.receiverNum == 1))
    case Close(p) =>
      if s.wake.sem.cnt <= 0 then StartPost(s, p).(log := s.log.(extra := s.log.extra + 1))
      else s.(ends := s.ends.(closing := false))
    case Drain =>
      if s.buffer != [] then s.(buffer := s.buffer[1..], log := s.log.(discarded := s.log.discarded + 1))
      else s.(ends := s.ends.(draining := false))
  }

  function New(limit: nat): State {
    State([], limit, Ends(1, 1, false, false), S.New(0), map[], map[], Log([], 0, 0, 0, 0), Sets({}, {}, {}, 0))
  }

  ghost predicate Run(r: seq<State>, acts: seq<Action>) {
    && |r| == |acts| + 1 && r[0] == New(r[0].limit)
    && forall i {:trigger acts[i]} :: 0 <= i < |acts| ==> Enabled(r[i], acts[i]) && r[i + 1] == Step(r[i], acts[i])
  }

  // ---------------------------------------------------------------- invariant

  ghost predicate SendersInv(senders: map<Tid, Sender>, x: Sets) {
    && (forall t :: t in x.posting <==> t in senders && senders[t].Post?)
    && (forall t :: t in x.ready <==> t in senders && senders[t].Ready?)
    && |senders| <= x.peak
  }

  ghost predicate ReceiversInv(receivers: map<Tid, Receiver>, x: Sets, senderNum: int) {
    && (forall b :: b in x.granted <==> b in receivers && receivers[b].Granted?)
    && (forall b :: b in receivers ==> !receivers[b].Unreachable? && (receivers[b].NoData? ==> senderNum == 0))
  }

  /** What was pushed is received, discarded or still there, in order. */
  ghost predicate BufferInv(buffer: seq<Value>, log: Log) {
    && log.received + log.discarded <= |log.sent|
    && buffer == log.sent[log.received + log.discarded..]
  }

  predicate EndsInv(ends: Ends, senders: map<Tid, Sender>, receivers: map<Tid, Receiver>, log: Log) {
    && ends.senderNum >= 0 && ends.receiverNum >= 0
    && (senders != map[] ==> ends.senderNum > 0)
    && (receivers != map[] ==> ends.receiverNum > 0)
    && (ends.closing ==> ends.senderNum == 0) && (ends.draining ==> ends.receiverNum == 0)
    && (ends.senderNum > 0 ==> log.extra == 0 && log.emptied == 0)
    && (ends.receiverNum > 0 ==> log.discarded == 0)
  }

  /** Posts are pushes that were posted, plus those made to close; permits taken are pops, made or about to be made. */
  predicate CountsInv(t: S.Tally, log: Log, posting: nat, granted: nat) {
    && t.initial == 0 && t.posts + posting == |log.sent| + log.extra
    && t.taken == log.received + log.emptied + granted
  }

  predicate SpaceInv(buffer: nat, ready: nat, limit: nat, peak: nat) {
    buffer + ready > 0 ==> limit > 0 && buffer + ready + 1 <= limit + peak
  }

  /** Receive calls are the only waits. */
  ghost predicate WaitsInv(w: S.State, receivers: map<Tid, Receiver>) {
    && (forall b :: b in w.calls && MayWait(w.calls[b]) ==>
       b in receivers && (receivers[b].Trying? || receivers[b].Waiting?))
    && (forall b :: b in receivers && (receivers[b].Trying? || receivers[b].Waiting?) ==> b in w.calls)
  }

  /** Phases of a call that may still take a permit for itself. */
  predicate MayWait(ph: S.Phase) {
    ph.TryLoad? || ph.TryCas? || ph.Enqueue? || P.ParksLater(ph)
  }

  ghost predicate Inv(s: State) {
    && P.Inv(s.wake) && WaitsInv(s.wake, s.receivers)
    && SendersInv(s.senders, s.sets)
    && ReceiversInv(s.receivers, s.sets, s.ends.senderNum)
    && BufferInv(s.buffer, s.log)
    && EndsInv(s.ends, s.senders, s.receivers, s.log)
    && CountsInv(s.wake.tally, s.log, |s.sets.posting|, |s.sets.granted|)
    && SpaceInv(|s.buffer|, |s.sets.ready|, s.limit, s.sets.peak)
  }

  // ---------------------------------------------------------------- parts

  lemma MapSize(m: map<Tid, Sender>, t: Tid, c: Sender)
    ensures |m[t := c]| == |m| + Bit(t !in m)
    ensures t in m ==> |m - {t}| == |m| - 1
  {
    assert m[t := c].Keys == m.Keys + {t};
    assert (m - {t}).Keys == m.Keys - {t};
    assert |m.Keys| == |m| && |m[t := c].Keys| == |m[t := c]| && |(m - {t}).Keys| == |m - {t}|;
  }

  lemma ReadyAtMostSenders(senders: map<Tid, Sender>, x: Sets)
    requires SendersInv(senders, x)
    ensures |x.ready| <= |senders|
  {
    P.SubsetSize(x.ready, senders.Keys);
  }

  /** No more permits are taken than posted. */
  lemma TakenAtMostPosted(w: S.State)
    requires P.Inv(w)
    ensures w.tally.taken <= w.tally.initial + w.tally.posts
  {
    hide P.Inv;
    P.RestOf(w);
  }

  lemma WakeTally(w: S.State, b: nat, fail: bool)
    requires S.Enabled(w, S.Next(b, fail))
    ensures var w' := S.CallNext(w, b, fail);
      && w'.tally.initial == w.tally.initial && w'.tally.posts == w.tally.posts
      && w.tally.taken <= w'.tally.taken <= w.tally.taken + 1
  {
    hide S.Track;
  }

  lemma Join(s: State)
    requires P.Inv(s.wake) && WaitsInv(s.wake, s.receivers) && SendersInv(s.senders, s.sets)
    requires ReceiversInv(s.receivers, s.sets, s.ends.senderNum) && BufferInv(s.buffer, s.log)
    requires EndsInv(s.ends, s.senders, s.receivers, s.log)
    requires CountsInv(s.wake.tally, s.log, |s.sets.posting|, |s.sets.granted|)
    requires SpaceInv(|s.buffer|, |s.sets.ready|, s.limit, s.sets.peak)
    ensures Inv(s)
  {
    hide P.Inv, WaitsInv, SendersInv, ReceiversInv, BufferInv, EndsInv, CountsInv, SpaceInv;
  }

  // ---------------------------------------------------------------- senders

  lemma SendersPut(senders: map<Tid, Sender>, x: Sets, t: Tid, c: Sender)
    requires SendersInv(senders, x) && t in senders
    ensures var x' := x.(posting := Put(x.posting, t, c.Post?), ready := Put(x.ready, t, c.Ready?));
      && SendersInv(senders[t := c], x')
      && |x'.posting| == |x.posting| - Bit(senders[t].Post?) + Bit(c.Post?)
      && |x'.ready| == |x.ready| - Bit(senders[t].Ready?) + Bit(c.Ready?)
      && |x'.ready| <= x.peak
  {
    hide Put;
    MapSize(senders, t, c);
    PutSize(x.posting, t, c.Post?);
    PutSize(x.ready, t, c.Ready?);
    var x' := x.(posting := Put(x.posting, t, c.Post?), ready := Put(x.ready, t, c.Ready?));
    assert SendersInv(senders[t := c], x');
    ReadyAtMostSenders(senders[t := c], x');
  }

  lemma SendersEnd(senders: map<Tid, Sender>, x: Sets, t: Tid)
    requires SendersInv(senders, x) && t in senders
    ensures var x' := x.(posting := x.posting - {t}, ready := x.ready - {t});
      && SendersInv(senders - {t}, x')
      && |x'.posting| == |x.posting| - Bit(senders[t].Post?)
      && |x'.ready| == |x.ready| - Bit(senders[t].Ready?)
  {
    MapSize(senders, t, Post);
  }

  lemma EndsSenders(ends: Ends, senders: map<Tid, Sender>, receivers: map<Tid, Receiver>, log: Log, t: Tid, c: Sender)
    requires EndsInv(ends, senders, receivers, log) && t in senders
    ensures EndsInv(ends, senders[t := c], receivers, log) && EndsInv(ends, senders - {t}, receivers, log)
    ensures ends.senderNum > 0
  {
  }

  lemma GrantedFrame(receivers: map<Tid, Receiver>, x: Sets, y: Sets, senderNum: int)
    requires ReceiversInv(receivers, x, senderNum) && y.granted == x.granted
    ensures ReceiversInv(receivers, y, senderNum)
  {
  }

  lemma MoveSender(s: State, t: Tid, c: Sender)
    requires Inv(s) && t in s.senders && !s.senders[t].Post? && !s.senders[t].Ready? && !c.Post?
    requires c.Ready? ==> |s.buffer| < s.limit
    ensures Inv(SetSender(s, t, c))
  {
    hide P.Inv, WaitsInv, SendersInv, ReceiversInv, BufferInv, EndsInv, Put;
    var s' := SetSender(s, t, c);
    SendersPut(s.senders, s.sets, t, c);
    EndsSenders(s.ends, s.senders, s.receivers, s.log, t, c);
    GrantedFrame(s.receivers, s.sets, s'.sets, s.ends.senderNum);
    Join(s');
  }

  lemma LeaveSender(s: State, t: Tid)
    requires Inv(s) && t in s.senders && !s.senders[t].Post? && !s.senders[t].Ready?
    ensures Inv(EndSender(s, t))
  {
    hide P.Inv, WaitsInv, SendersInv, ReceiversInv, BufferInv, EndsInv;
    var s' := EndSender(s, t);
    SendersEnd(s.senders, s.sets, t);
    EndsSenders(s.ends, s.senders, s.receivers, s.log, t, Post);
    GrantedFrame(s.receivers, s.sets, s'.sets, s.ends.senderNum);
    Join(s');
  }

  lemma PushKeepsBuffer(buffer: seq<Value>, log: Log, v: Value)
    requires BufferInv(buffer, log)
    ensures BufferInv(buffer + [v], log.(sent := log.sent + [v]))
  {
  }

  lemma EndsLog(ends: Ends, senders: map<Tid, Sender>, receivers: map<Tid, Receiver>, log: Log, log': Log)
    requires EndsInv(ends, senders, receivers, log)
    requires log'.extra == log.extra && log'.emptied == log.emptied && log'.discarded == log.discarded
    ensures EndsInv(ends, senders, receivers, log')
  {
  }

  lemma ReadyKeepsInv(s: State, t: Tid, v: Value)
    requires Inv(s) && t in s.senders && s.senders[t] == Ready(v)
    ensures Inv(SetSender(s, t, Post).(buffer := s.buffer + [v], log := s.log.(sent := s.log.sent + [v])))
  {
    hide P.Inv, WaitsInv, SendersInv, ReceiversInv, BufferInv, EndsInv, Put;
    var log := s.log.(sent := s.log.sent + [v]);
    var s' := SetSender(s, t, Post).(buffer := s.buffer + [v], log := log);
    SendersPut(s.senders, s.sets, t, Post);
    EndsSenders(s.ends, s.senders, s.receivers, s.log, t, Post);
    EndsLog(s.ends, s.senders[t := Post], s.receivers, s.log, log);
    GrantedFrame(s.receivers, s.sets, s'.sets, s.ends.senderNum);
    PushKeepsBuffer(s.buffer, s.log, v);
    Join(s');
  }

  lemma StartPostKeeps(w: S.State, p: nat)
    requires P.Inv(w) && Fresh(w, p)
    ensures P.Inv(S.Step(w, S.StartPost(p))) && S.Step(w, S.StartPost(p)).tally == w.tally.(posts := w.tally.posts + 1)
    ensures S.Step(w, S.StartPost(p)).calls == w.calls[p := S.Post(false)]
  {
    hide P.Inv;
    P.StepKeepsInv(w, S.StartPost(p));
  }

  lemma StartWaitKeeps(w: S.State, b: nat, block: bool)
    requires P.Inv(w) && Fresh(w, b)
    ensures P.Inv(S.Step(w, S.StartWait(b, block))) && S.Step(w, S.StartWait(b, block)).tally == w.tally
    ensures S.Step(w, S.StartWait(b, block)).calls == w.calls[b := S.TryLoad(block)]
  {
    hide P.Inv;
    P.StepKeepsInv(w, S.StartWait(b, block));
  }

  lemma PostIsNoWait(w: S.State, w': S.State, receivers: map<Tid, Receiver>, p: nat)
    requires WaitsInv(w, receivers) && w'.calls == w.calls[p := S.Post(false)] && p !in receivers
    ensures WaitsInv(w', receivers)
  {
  }

  lemma PostKeepsInv(s: State, t: Tid, p: nat)
    requires Inv(s) && t in s.senders && s.senders[t].Post? && Fresh(s.wake, p) && p !in s.receivers
    ensures Inv(EndSender(StartPost(s, p), t))
  {
    hide P.Inv, WaitsInv, SendersInv, ReceiversInv, BufferInv, EndsInv, S.Step;
    StartPostKeeps(s.wake, p);
    PostIsNoWait(s.wake, S.Step(s.wake, S.StartPost(p)), s.receivers, p);
    var s' := EndSender(StartPost(s, p), t);
    SendersEnd(s.senders, s.sets, t);
    EndsSenders(s.ends, s.senders, s.receivers, s.log, t, Post);
    GrantedFrame(s.receivers, s.sets, s'.sets, s.ends.senderNum);
    Join(s');
  }

  lemma SenderKeepsInv(s: State, t: Tid, p: nat, stop: bool)
    requires Inv(s) && t in s.senders && Fresh(s.wake, p) && p !in s.receivers
    ensures Inv(SenderNext(s, t, p, stop))
  {
    hide Inv, SetSender, EndSender, StartPost;
    match s.senders[t]
    case CheckOpen(v, block) => MoveSender(s, t, CheckSpace(v, block)); LeaveSender(s, t);
    case CheckSpace(v, block) =>
      MoveSender(s, t, WaitSpace(v));
      LeaveSender(s, t);
      if |s.buffer| < s.limit { MoveSender(s, t, Ready(v)); }
    case WaitSpace(v) => MoveSender(s, t, CheckSpace(v, true)); LeaveSender(s, t);
    case Ready(v) => ReadyKeepsInv(s, t, v);
    case Post => PostKeepsInv(s, t, p);
  }

  lemma SendersStart(senders: map<Tid, Sender>, x: Sets, t: Tid, c: Sender, peak: nat)
    requires SendersInv(senders, x) && t !in senders && !c.Post? && !c.Ready? && peak >= x.peak && peak >= |senders| + 1
    ensures x.posting - {t} == x.posting && x.ready - {t} == x.ready
    ensures SendersInv(senders[t := c], x.(peak := peak))
  {
    MapSize(senders, t, c);
  }

  lemma StartSendKeepsInv(s: State, t: Tid, v: Value, block: bool)
    requires Inv(s) && Enabled(s, StartSend(t, v, block))
    ensures Inv(Step(s, StartSend(t, v, block)))
  {
    hide P.Inv, WaitsInv, SendersInv, ReceiversInv, BufferInv, CountsInv, Put;
    var n := |s.senders| + 1;
    var peak := if n > s.sets.peak then n else s.sets.peak;
    var s' := Step(s, StartSend(t, v, block));
    SendersStart(s.senders, s.sets, t, CheckOpen(v, block), peak);
    GrantedFrame(s.receivers, s.sets, s'.sets, s.ends.senderNum);
    assert t in s'.senders;
    Join(s');
  }

  // ---------------------------------------------------------------- receivers

  lemma ReceiversPut(receivers: map<Tid, Receiver>, x: Sets, senderNum: int, b: Tid, c: Receiver)
    requires ReceiversInv(receivers, x, senderNum) && !c.Unreachable? && (c.NoData? ==> senderNum == 0)
    ensures var x' := x.(granted := Put(x.granted, b, c.Granted?));
      && ReceiversInv(receivers[b := c], x', senderNum)
      && |x'.granted| == |x.granted| - Bit(b in receivers && receivers[b].Granted?) + Bit(c.Granted?)
  {
    hide Put;
    PutSize(x.granted, b, c.Granted?);
  }

  lemma ReceiversEnd(receivers: map<Tid, Receiver>, x: Sets, senderNum: int, b: Tid)
    requires ReceiversInv(receivers, x, senderNum)
    ensures var x' := x.(granted := x.granted - {b});
      && ReceiversInv(receivers - {b}, x', senderNum)
      && |x'.granted| == |x.granted| - Bit(b in receivers && receivers[b].Granted?)
  {
  }

  lemma SendersFrame(senders: map<Tid, Sender>, x: Sets, y: Sets)
    requires SendersInv(senders, x) && y.posting == x.posting && y.ready == x.ready && y.peak == x.peak
    ensures SendersInv(senders, y)
  {
  }

  lemma EndsReceivers(ends: Ends, senders: map<Tid, Sender>, receivers: map<Tid, Receiver>, log: Log, b: Tid,
      c: Receiver)
    requires EndsInv(ends, senders, receivers, log) && (b in receivers || ends.receiverNum > 0)
    ensures EndsInv(ends, senders, receivers[b := c], log) && EndsInv(ends, senders, receivers - {b}, log)
    ensures b in receivers ==> ends.receiverNum > 0 && log.discarded == 0
  {
  }

  predicate InWait(c: Receiver) { c.Trying? || c.Waiting? }

  /** A receiver changes its place; permits taken and the pops it stands for change together. */
  lemma MoveReceiver(s: State, w: S.State, b: Tid, c: Receiver, buffer: seq<Value>, log: Log)
    requires Inv(s) && P.Inv(w) && WaitsInv(w, s.receivers[b := c]) && BufferInv(buffer, log) && |buffer| <= |s.buffer|
    requires b in s.receivers || s.ends.receiverNum > 0
    requires !c.Unreachable? && (c.NoData? ==> s.ends.senderNum == 0)
    requires EndsInv(s.ends, s.senders, s.receivers, log)
    requires
      var was := Bit(b in s.receivers && s.receivers[b].Granted?);
      CountsInv(w.tally, log, |s.sets.posting|, |s.sets.granted| - was + Bit(c.Granted?))
    ensures Inv(SetReceiver(s, b, c).(wake := w, buffer := buffer, log := log))
  {
    hide P.Inv, WaitsInv, SendersInv, ReceiversInv, BufferInv, EndsInv, CountsInv, Put;
    var s' := SetReceiver(s, b, c).(wake := w, buffer := buffer, log := log);
    ReceiversPut(s.receivers, s.sets, s.ends.senderNum, b, c);
    SendersFrame(s.senders, s.sets, s'.sets);
    EndsReceivers(s.ends, s.senders, s.receivers, log, b, c);
    Join(s');
  }

  lemma LeaveReceiver(s: State, w: S.State, b: Tid, buffer: seq<Value>, log: Log)
    requires Inv(s) && P.Inv(w) && WaitsInv(w, s.receivers - {b}) && BufferInv(buffer, log) && |buffer| <= |s.buffer|
    requires b in s.receivers && EndsInv(s.ends, s.senders, s.receivers, log)
    requires CountsInv(w.tally, log, |s.sets.posting|, |s.sets.granted| - Bit(s.receivers[b].Granted?))
    ensures Inv(EndReceiver(s, b).(wake := w, buffer := buffer, log := log))
  {
    hide P.Inv, WaitsInv, SendersInv, ReceiversInv, BufferInv, EndsInv, CountsInv;
    var s' := EndReceiver(s, b).(wake := w, buffer := buffer, log := log);
    ReceiversEnd(s.receivers, s.sets, s.ends.senderNum, b);
    SendersFrame(s.senders, s.sets, s'.sets);
    EndsReceivers(s.ends, s.senders, s.receivers, log, b, NoData);
    Join(s');
  }

  /** Outside its waits a receiver has no call on the semaphore. */
  lemma WaitsElsewhere(w: S.State, receivers: map<Tid, Receiver>, b: Tid, c: Receiver)
    requires WaitsInv(w, receivers) && (b in receivers ==> !InWait(receivers[b])) && !InWait(c)
    ensures WaitsInv(w, receivers[b := c]) && WaitsInv(w, receivers - {b})
  {
  }

  lemma WaitBegins(w: S.State, w': S.State, receivers: map<Tid, Receiver>, b: nat, c: Receiver, block: bool)
    requires WaitsInv(w, receivers) && w'.calls == w.calls[b := S.TryLoad(block)] && InWait(c)
    ensures WaitsInv(w', receivers[b := c])
  {
  }

  lemma StartRecvKeepsInv(s: State, b: nat, again: bool)
    requires Inv(s) && Enabled(s, StartRecv(b, again))
    ensures Inv(Step(s, StartRecv(b, again)))
  {
    hide P.Inv, WaitsInv, S.Step, SendersInv, ReceiversInv, BufferInv, EndsInv, CountsInv;
    StartWaitKeeps(s.wake, b, false);
    var w := S.Step(s.wake, S.StartWait(b, false));
    WaitBegins(s.wake, w, s.receivers, b, Trying(again), false);
    MoveReceiver(s, w, b, Trying(again), s.buffer, s.log);
  }

  /** While a sender lives, a receiver with a permit finds a value. */
  lemma GrantedFindsValue(s: State, b: Tid)
    requires Inv(s) && b in s.receivers && s.receivers[b].Granted? && s.ends.senderNum > 0
    ensures s.buffer != []
  {
    hide P.Inv, WaitsInv, SendersInv;
    assert b in s.sets.granted;
    TakenAtMostPosted(s.wake);
    assert s.receivers != map[];
  }

  lemma GrantedKeepsInv(s: State, b: nat, next: nat)
    requires Inv(s) && b in s.receivers && s.receivers[b].Granted? && Fresh(s.wake, next)
    ensures Inv(ReceiverNext(s, b, next))
  {
    hide P.Inv, WaitsInv, SendersInv, ReceiversInv;
    EndsReceivers(s.ends, s.senders, s.receivers, s.log, b, NoData);
    WaitsElsewhere(s.wake, s.receivers, b, NoData);
    if s.ends.senderNum > 0 { GrantedFindsValue(s, b); }
    if s.buffer != [] {
      LeaveReceiver(s, s.wake, b, s.buffer[1..], s.log.(received := s.log.received + 1));
    } else {
      MoveReceiver(s, s.wake, b, NoData, s.buffer, s.log.(emptied := s.log.emptied + 1));
    }
  }

  lemma ReceiverKeepsInv(s: State, b: nat, next: nat)
    requires Inv(s) && Enabled(s, Recv(b, next))
    ensures Inv(ReceiverNext(s, b, next))
  {
    hide P.Inv, WaitsInv, S.Step, SendersInv, BufferInv, EndsInv, CountsInv, SpaceInv;
    match s.receivers[b]
    case TryFailed(again) =>
      WaitsElsewhere(s.wake, s.receivers, b, NoData);
      LeaveReceiver(s, s.wake, b, s.buffer, s.log);
      if s.ends.senderNum != 0 && again { WaitAgain(s, b, next); }
    case Granted => GrantedKeepsInv(s, b, next);
    case NoData =>
      WaitsElsewhere(s.wake, s.receivers, b, NoData);
      LeaveReceiver(s, s.wake, b, s.buffer, s.log);
    case _ =>
  }

  lemma WaitAgain(s: State, b: nat, next: nat)
    requires Inv(s) && Inv(EndReceiver(s, b)) && b in s.receivers && Fresh(s.wake, next) && next !in s.receivers
    ensures Inv(SetReceiver(EndReceiver(s.(wake := S.Step(s.wake, S.StartWait(next, true))), b), next, Waiting))
  {
    hide P.Inv, WaitsInv, S.Step, SendersInv, ReceiversInv, BufferInv, CountsInv, SpaceInv;
    EndsReceivers(s.ends, s.senders, s.receivers, s.log, b, NoData);
    hide EndsInv;
    StartWaitKeeps(s.wake, next, true);
    var w := S.Step(s.wake, S.StartWait(next, true));
    var s1 := EndReceiver(s, b);
    WaitBegins(s1.wake, w, s1.receivers, next, Waiting, true);
    MoveReceiver(s1, w, next, Waiting, s1.buffer, s1.log);
  }

  // ---------------------------------------------------------------- the semaphore at work

  /** A step of call `b` inside the semaphore: nobody else's call changes, and a call that is past waiting stays so. */
  lemma WakeCalls(w: S.State, b: nat, fail: bool)
    requires S.Enabled(w, S.Next(b, fail))
    ensures var w' := S.CallNext(w, b, fail);
      WakeEffect(w, w', b) && (w'.tally.taken > w.tally.taken ==> MayWait(w.calls[b]) && b !in w'.calls)
  {
    WakeOthers(w, b, fail);
    WakeOwn(w, b, fail);
    hide S.CallNext, S.Enabled, MayWait;
  }

  lemma WakeOthers(w: S.State, b: nat, fail: bool)
    requires S.Enabled(w, S.Next(b, fail))
    ensures var w' := S.CallNext(w, b, fail);
      forall k :: k != b ==> (k in w'.calls <==> k in w.calls) && (k in w.calls ==> w'.calls[k] == w.calls[k])
  {
    hide S.Track;
  }

  lemma WakeOwn(w: S.State, b: nat, fail: bool)
    requires S.Enabled(w, S.Next(b, fail))
    ensures var w' := S.CallNext(w, b, fail);
      && (b in w'.calls && MayWait(w'.calls[b]) ==> MayWait(w.calls[b]))
      && (w'.tally.taken > w.tally.taken ==> MayWait(w.calls[b]) && b !in w'.calls)
  {
    hide S.Track;
  }

  lemma WakeWaits(w: S.State, w': S.State, receivers: map<Tid, Receiver>, b: nat, c: Receiver)
    requires WaitsInv(w, receivers) && b in w.calls && !InWait(c)
    requires forall k :: k != b ==> (k in w'.calls <==> k in w.calls) && (k in w.calls ==> w'.calls[k] == w.calls[k])
    requires b in w'.calls && MayWait(w'.calls[b]) ==> MayWait(w.calls[b])
    ensures b in w'.calls ==> WaitsInv(w', receivers)
    ensures b !in w'.calls && (b in receivers ==> !InWait(receivers[b])) ==> WaitsInv(w', receivers)
    ensures b !in w'.calls ==> WaitsInv(w', receivers - {b}) && WaitsInv(w', receivers[b := c])
    ensures MayWait(w.calls[b]) ==> b in receivers && InWait(receivers[b])
  {
    hide MayWait;
  }

  lemma NewWake(s: State, w: S.State)
    requires Inv(s) && P.Inv(w) && w.tally == s.wake.tally && WaitsInv(w, s.receivers)
    ensures Inv(s.(wake := w))
  {
    hide P.Inv, WaitsInv, SendersInv, ReceiversInv, BufferInv, EndsInv, CountsInv, SpaceInv;
  }

  lemma WakeKeepsInv(s: State, b: nat, fail: bool)
    requires Inv(s) && S.Enabled(s.wake, S.Next(b, fail))
    ensures Inv(WakeNext(s, b, fail))
  {
    hide P.Inv, WaitsInv, SendersInv, ReceiversInv, BufferInv, EndsInv, SpaceInv, CountsInv, S.CallNext, WakeNext;
    P.CallKeepsInv(s.wake, b, fail);
    WakeTally(s.wake, b, fail);
    WakeCalls(s.wake, b, fail);
    if S.CallNext(s.wake, b, fail).tally.taken > s.wake.tally.taken {
      WakeGrants(s, S.CallNext(s.wake, b, fail), b, fail);
    } else {
      WakeFails(s, S.CallNext(s.wake, b, fail), b, fail);
    }
  }

  ghost predicate WakeEffect(w: S.State, w': S.State, b: nat) {
    && b in w.calls
    && (forall k :: k != b ==> (k in w'.calls <==> k in w.calls) && (k in w.calls ==> w'.calls[k] == w.calls[k]))
    && (b in w'.calls && MayWait(w'.calls[b]) ==> MayWait(w.calls[b]))
  }

  lemma WakeGrants(s: State, w: S.State, b: nat, fail: bool)
    requires Inv(s) && S.Enabled(s.wake, S.Next(b, fail)) && w == S.CallNext(s.wake, b, fail) && P.Inv(w)
    requires WakeEffect(s.wake, w, b) && MayWait(s.wake.calls[b]) && b !in w.calls
    requires w.tally == s.wake.tally.(taken := s.wake.tally.taken + 1)
    ensures Inv(WakeNext(s, b, fail))
  {
    hide P.Inv, WaitsInv, SendersInv, ReceiversInv, BufferInv, EndsInv, SpaceInv, S.CallNext, S.Enabled, MayWait;
    WakeWaits(s.wake, w, s.receivers, b, Granted);
    MoveReceiver(s, w, b, Granted, s.buffer, s.log);
  }

  lemma WakeFails(s: State, w: S.State, b: nat, fail: bool)
    requires Inv(s) && S.Enabled(s.wake, S.Next(b, fail)) && w == S.CallNext(s.wake, b, fail) && P.Inv(w)
    requires w.tally == s.wake.tally && WakeEffect(s.wake, w, b)
    ensures Inv(WakeNext(s, b, fail))
  {
    hide P.Inv, WaitsInv, SendersInv, ReceiversInv, BufferInv, EndsInv, SpaceInv, S.CallNext, S.Enabled, MayWait;
    var failed := TryFailed(if b in s.receivers && s.receivers[b].Trying? then s.receivers[b].again else false);
    WakeWaits(s.wake, w, s.receivers, b, failed);
    if b in w.calls || b !in s.receivers || !InWait(s.receivers[b]) {
      NewWake(s, w);
    } else if s.receivers[b].Trying? {
      MoveReceiver(s, w, b, failed, s.buffer, s.log);
    } else {
      LeaveReceiver(s, w, b, s.buffer, s.log);
    }
  }

  // ---------------------------------------------------------------- the two ends

  lemma HandlesKeepInv(s: State, a: Action)
    requires Inv(s) && Enabled(s, a) && (a.CloneSend? || a.CloneRecv? || a.DropSend? || a.DropRecv?)
    ensures Inv(Step(s, a))
  {
    hide P.Inv, WaitsInv, SendersInv, BufferInv, CountsInv, SpaceInv;
  }

  lemma CloseKeepsInv(s: State, p: nat)
    requires Inv(s) && Enabled(s, Close(p))
    ensures Inv(Step(s, Close(p)))
  {
    hide P.Inv, WaitsInv, SendersInv, ReceiversInv, BufferInv, SpaceInv, S.Step;
    StartPostKeeps(s.wake, p);
    PostIsNoWait(s.wake, S.Step(s.wake, S.StartPost(p)), s.receivers, p);
    BufferFrame(s.buffer, s.log, s.log.(extra := s.log.extra + 1));
  }

  lemma BufferFrame(buffer: seq<Value>, log: Log, log': Log)
    requires BufferInv(buffer, log)
    requires log'.sent == log.sent && log'.received == log.received && log'.discarded == log.discarded
    ensures BufferInv(buffer, log')
  {
  }

  lemma DrainKeepsInv(s: State)
    requires Inv(s) && Enabled(s, Drain)
    ensures Inv(Step(s, Drain))
  {
    hide P.Inv, WaitsInv, SendersInv, ReceiversInv;
  }

  lemma StepKeepsInv(s: State, a: Action)
    requires Inv(s) && Enabled(s, a)
    ensures Inv(Step(s, a))
  {
    hide Inv, SenderNext, ReceiverNext, WakeNext;
    match a
    case StartSend(t, v, block) => StartSendKeepsInv(s, t, v, block);
    case Send(t, p, stop) => SenderKeepsInv(s, t, p, stop);
    case StartRecv(b, again) => StartRecvKeepsInv(s, b, again);
    case Recv(b, next) => ReceiverKeepsInv(s, b, next);
    case Wake(b, fail) => WakeKeepsInv(s, b, fail);
    case Close(p) => CloseKeepsInv(s, p);
    case Drain => DrainKeepsInv(s);
    case _ => HandlesKeepInv(s, a);
  }

  lemma NewInv(limit: nat)
    ensures Inv(New(limit))
  {
    P.NewInv(0);
    hide P.Inv;
    NewParts(limit);
    hide WaitsInv, SendersInv, ReceiversInv, BufferInv, EndsInv, SpaceInv, CountsInv, S.New;
    Join(New(limit));
  }

  lemma NewParts(limit: nat)
    ensures var s := New(limit);
      && WaitsInv(s.wake, s.receivers) && SendersInv(s.senders, s.sets)
      && ReceiversInv(s.receivers, s.sets, s.ends.senderNum) && BufferInv(s.buffer, s.log)
      && EndsInv(s.ends, s.senders, s.receivers, s.log)
      && CountsInv(s.wake.tally, s.log, |s.sets.posting|, |s.sets.granted|)
      && SpaceInv(|s.buffer|, |s.sets.ready|, s.limit, s.sets.peak)
  {
  }

  lemma {:induction false} RunInv(r: seq<State>, acts: seq<Action>, i: nat)
    requires Run(r, acts) && i < |r|
    ensures Inv(r[i])
  {
    hide Inv, Step, Enabled;
    if i == 0 {
      NewInv(r[0].limit);
    } else {
      RunInv(r, acts, i - 1);
      StepKeepsInv(r[i - 1], acts[i - 1]);
    }
  }

  // ---------------------------------------------------------------- what the channel promises

  /** Both "found no data" arms are dead, and a receiver with a permit finds a value while a sender lives. */
  lemma PermitMeansValue(r: seq<State>, acts: seq<Action>, i: nat, b: Tid)
    requires Run(r, acts) && i < |r| && b in r[i].receivers
    ensures !r[i].receivers[b].Unreachable?
    ensures r[i].receivers[b].NoData? ==> r[i].ends.senderNum == 0
    ensures r[i].receivers[b].Granted? && r[i].ends.senderNum > 0 ==> r[i].buffer != []
  {
    RunInv(r, acts, i);
    if r[i].receivers[b].Granted? && r[i].ends.senderNum > 0 { GrantedFindsValue(r[i], b); }
    hide P.Inv, WaitsInv;
  }

  /**
   Values are neither lost nor made up nor reordered: received and discarded ones, then the buffer, are those sent.
   */
  lemma ValuesConserved(r: seq<State>, acts: seq<Action>, i: nat)
    requires Run(r, acts) && i < |r|
    ensures r[i].log.received + r[i].log.discarded + |r[i].buffer| == |r[i].log.sent|
    ensures r[i].buffer == r[i].log.sent[r[i].log.received + r[i].log.discarded..]
    ensures r[i].ends.receiverNum > 0 ==> r[i].log.discarded == 0
  {
    RunInv(r, acts, i);
    hide P.Inv, WaitsInv;
  }

  /** A receive takes the oldest value. */
  lemma RecvIsFifo(s: State, b: nat, next: nat)
    requires Inv(s) && Enabled(s, Recv(b, next)) && s.receivers[b].Granted? && s.buffer != []
    ensures var s' := Step(s, Recv(b, next));
      && s.log.received < |s.log.sent| && s.buffer[0] == s.log.sent[s.log.received]
      && s'.buffer == s.buffer[1..] && s'.log.received == s.log.received + 1 && b !in s'.receivers
  {
    hide P.Inv, WaitsInv;
    EndsReceivers(s.ends, s.senders, s.receivers, s.log, b, NoData);
  }

  /**
   With at most `n` senders at work at any time, the buffer never exceeds its limit by as many as that. A buffer of
   limit zero stays empty.
   */
  lemma BufferIsBounded(r: seq<State>, acts: seq<Action>, i: nat, n: nat)
    requires Run(r, acts) && i < |r| && r[i].sets.peak <= n
    ensures |r[i].buffer| > 0 ==> r[i].limit > 0 && |r[i].buffer| <= r[i].limit + n - 1
  {
    RunInv(r, acts, i);
    hide P.Inv, WaitsInv;
  }

  /** `peak` is what it says. */
  lemma {:induction false} PeakBounds(r: seq<State>, acts: seq<Action>, i: nat, n: nat)
    requires Run(r, acts) && i < |r| && forall j :: 0 <= j <= i ==> |r[j].senders| <= n
    ensures r[i].sets.peak <= n
  {
    if i > 0 {
      PeakBounds(r, acts, i - 1, n);
      assert Enabled(r[i - 1], acts[i - 1]) && r[i] == Step(r[i - 1], acts[i - 1]);
      PeakStep(r[i - 1], acts[i - 1], n);
    }
  }

  lemma PeakStep(s: State, a: Action, n: nat)
    requires Enabled(s, a) && s.sets.peak <= n && |Step(s, a).senders| <= n
    ensures Step(s, a).sets.peak <= n
  {
    hide S.CallNext, S.Step, S.Enabled;
    if a.StartSend? { MapSize(s.senders, a.t, CheckOpen(a.v, a.block)); }
  }
}
