/**
 What becomes of the requests and writes of a terminal socket, followed over whole
 runs: a request succeeds exactly with its acknowledgement, and a write resolves
 exactly when all its chunks were acknowledged.
 */
module SocketFate {
  import opened Prelude
  import opened Utf16
  import opened SocketState
  import opened SocketWrites
  import opened SocketTrace
  import S = SocketSafety

  // ---- What becomes of a request ----

  /** A stopped socket waits for nothing. */
  ghost predicate Idle(s: Socket) {
    s.stopped ==> s.pending == {} && S.StopInv(s)
  }

  lemma StopsIdle(s: Socket)
    ensures Idle(Stop(s)) && Idle(StopOnce(s))
  {
  }

  lemma MessageIdle(s: Socket, log: nat -> WireEvent, epoch: nat, frame: Frame, sendable: bool)
    requires Idle(s)
    ensures Idle(OnMessage(s, log, epoch, frame, sendable))
  {
    hide Stop;
    S.StopIsQuiet(Deliver(s, Failure));
    S.StopIsQuiet(Accept(s));
    StopsIdle(Deliver(s, Failure));
    StopsIdle(Accept(s));
  }

  lemma IdleStays(s: Socket, log: nat -> WireEvent, a: Action)
    requires Idle(s)
    ensures Idle(Next(s, log, a))
  {
    hide AdvanceWrite, OnMessage, Stop, StopOnce;
    StopsIdle(s);
    StopsIdle(Deliver(s, Failure));
    S.StopIsQuiet(s);
    S.StopIsQuiet(Deliver(s, Failure));
    match a
    case DoMessage(epoch, frame, sendable) => MessageIdle(s, log, epoch, frame, sendable);
    case DoAdvance(sendable) => AdvanceIdle(s, sendable);
    case _ =>
  }

  lemma AdvanceIdle(s: Socket, sendable: bool)
    requires Idle(s)
    ensures Idle(AdvanceWrite(s, sendable))
  {
    hide Head;
  }

  lemma {:induction false} IdleRun(log: nat -> WireEvent, actions: seq<Action>)
    ensures Idle(Run(CREATED, log, actions))
  {
    if actions != [] {
      IdleRun(log, actions[..|actions| - 1]);
      hide Idle, Next;
      IdleStays(Run(CREATED, log, actions[..|actions| - 1]), log, actions[|actions| - 1]);
    }
  }

  /** What gives up a waiting request: its timeout, the server's error, and everything
      that loses or ends the connection. */
  predicate GivesUp(s: Socket, log: nat -> WireEvent, a: Action, r: Request) {
    match a
    case DoTimeout(request) => request == r
    case DoMessage(epoch, frame, sendable) =>
      Current(s, epoch) && (frame == ErrorFrame(Some(r)) || FrameEnds(s, log, frame, sendable))
    case DoConnectFailed(epoch, _) => Current(s, epoch)
    case DoSocketClosed(epoch) => epoch == s.epoch
    case DoReconnect => !s.stopped
    case DoAbort => !s.stopped
    case DoStop => true
    case _ => false
  }

  predicate Acks(s: Socket, a: Action, r: Request) {
    Acknowledges(a, r) && Current(s, a.epoch)
  }

  /** A waiting request: acknowledged, given up, or waiting on. */
  ghost predicate FateIs(s: Socket, t: Socket, r: Request, yes: bool, no: bool) {
    && !(yes && no)
    && (yes ==> r !in t.pending && r in t.settled && t.settled[r])
    && (no ==> r !in t.pending && r in t.settled && !t.settled[r])
    && (!yes && !no ==> r in t.pending && (r in t.settled <==> r in s.settled))
  }

  lemma StopGivesUp(s: Socket, r: Request)
    requires r in s.pending
    ensures FateIs(s, Stop(s), r, false, true) && FateIs(s, StopOnce(s), r, false, true)
  {
  }

  lemma OutputFate(s: Socket, log: nat -> WireEvent, number: int, r: Request)
    requires r in s.pending
    ensures FateIs(s, OnOutput(s, log, number), r, false, S.EndsSession(s, log, OutputFrame(number)))
  {
    hide Stop;
    StopGivesUp(Deliver(s, Failure), r);
    StopGivesUp(Accept(s), r);
  }

  lemma MessageFate(s: Socket, log: nat -> WireEvent, frame: Frame, sendable: bool, r: Request)
    requires r in s.pending && !s.stopped
    ensures var a := DoMessage(s.epoch, frame, sendable);
      FateIs(s, OnMessage(s, log, s.epoch, frame, sendable), r, Acks(s, a, r), GivesUp(s, log, a, r))
  {
    hide Stop, OnOutput;
    StopGivesUp(Deliver(s, Failure), r);
    if frame.OutputFrame? {
      OutputFate(s, log, frame.number, r);
    }
  }

  lemma CommandFate(s: Socket, needsLease: bool, sendable: bool, r: Request)
    requires r in s.pending && Books(s)
    ensures FateIs(s, OtherCommand(s, needsLease, sendable), r, false, false)
  {
  }

  /** A continuation of the running write answers no request but one it could not send. */
  ghost predicate AddsOnly(s: Socket, t: Socket) {
    && s.pending <= t.pending
    && (forall r <- s.settled :: r in t.settled && t.settled[r] == s.settled[r])
    && (forall r <- t.settled :: r in s.settled || r == s.nextRequest)
  }

  lemma SendAddsOnly(s: Socket, h: nat, sendable: bool)
    requires h < |s.writes| && s.writes[h].confirmed < |s.writes[h].chunks| && Books(s)
    ensures AddsOnly(s, SendChunk(s, h, sendable))
  {
    var w := s.writes[h];
    if s.epoch != w.epoch || s.lease.None? || |s.pending| >= 128 {
    } else if !s.connected || !sendable {
      assert s.nextRequest !in s.settled;
    } else {
    }
  }

  lemma AdvanceAddsOnly(s: Socket, sendable: bool)
    requires Books(s)
    ensures AddsOnly(s, AdvanceWrite(s, sendable))
  {
    hide SendChunk, Head, Books;
    var h := Head(s.writes);
    if h < |s.writes| {
      var w := s.writes[h];
      if w.waiting.Some? {
        if w.waiting.value in s.settled {
          if s.settled[w.waiting.value] {
          } else {
          }
        }
      } else if w.confirmed >= |w.chunks| {
      } else {
        SendAddsOnly(s, h, sendable);
      }
    }
  }

  lemma AdvanceFate(s: Socket, sendable: bool, r: Request)
    requires r in s.pending && Books(s)
    ensures FateIs(s, AdvanceWrite(s, sendable), r, false, false)
  {
    AdvanceAddsOnly(s, sendable);
    hide AdvanceWrite;
  }

  lemma LossGivesUp(s: Socket, r: Request)
    requires r in s.pending
    ensures FateIs(s, Disconnected(s), r, false, true)
  {
  }

  /** In every step a waiting request succeeds exactly with its acknowledgement, fails
      exactly when it is given up, and otherwise waits on. */
  lemma RequestFate(s: Socket, log: nat -> WireEvent, a: Action, r: Request)
    requires Books(s) && r in s.pending
    ensures FateIs(s, Next(s, log, a), r, Acks(s, a, r), GivesUp(s, log, a, r))
  {
    hide AdvanceWrite, OnMessage, Stop, StopOnce, Disconnected, OtherCommand, Books, S.EndsSession;
    match a
    case DoMessage(epoch, frame, sendable) =>
      if Current(s, epoch) {
        MessageFate(s, log, frame, sendable, r);
      } else {
        StaleTellsNothing(s, log, epoch, frame, sendable);
      }
    case DoAdvance(sendable) => AdvanceFate(s, sendable, r);
    case DoCommand(needsLease, sendable) => CommandFate(s, needsLease, sendable, r);
    case DoReconnect => LossGivesUp(s.(epoch := s.epoch + 1), r);
    case DoConnectFailed(_, _) => LossGivesUp(s, r); StopGivesUp(Deliver(s, Failure), r);
    case DoSocketClosed(_) => LossGivesUp(s, r);
    case DoStop => StopGivesUp(s, r);
    case DoAbort => StopGivesUp(s, r);
    case _ =>
  }

  /** An answer is final. */
  lemma AnswerStands(s: Socket, log: nat -> WireEvent, a: Action, r: Request)
    requires Books(s) && r in s.settled
    ensures var t := Next(s, log, a); r in t.settled && t.settled[r] == s.settled[r]
  {
    if a.DoAdvance? {
      hide AdvanceWrite;
      AdvanceAddsOnly(s, a.sendable);
    } else if !a.DoWrite? {
      hide Next, Books;
      OtherGrows(s, log, a);
    }
  }

  /** The acknowledgement of a waiting request is never taken back. */
  lemma {:induction false} AcknowledgedSucceeds(log: nat -> WireEvent, actions: seq<Action>, r: Request)
    requires WasAcknowledged(log, actions, r)
    ensures var s := Run(CREATED, log, actions); r in s.settled && s.settled[r]
  {
    var n := |actions| - 1;
    var front := actions[..n];
    var s := Run(CREATED, log, front);
    var j: nat :| j <= n && AcknowledgedAt(log, actions, j, r);
    RunLast(log, actions);
    InRun(log, front);
    if j < n {
      assert front[..j] == actions[..j];
      assert AcknowledgedAt(log, front, j, r);
      AcknowledgedSucceeds(log, front, r);
      hide Run, Next;
      AnswerStands(s, log, actions[n], r);
    } else {
      IdleRun(log, front);
      hide Run, Next;
      RequestFate(s, log, actions[n], r);
    }
  }

  /** A request that was answered succeeded exactly when its acknowledgement arrived over
      the live connection while it was waiting: no acknowledged request is rejected, and
      no other one succeeds. */
  lemma AnsweredIff(log: nat -> WireEvent, actions: seq<Action>, r: Request)
    ensures var s := Run(CREATED, log, actions);
      && (WasAcknowledged(log, actions, r) <==> r in s.settled && s.settled[r])
      && (r in s.settled && !s.settled[r] ==> !WasAcknowledged(log, actions, r))
  {
    var s := Run(CREATED, log, actions);
    hide WasAcknowledged, Run;
    if WasAcknowledged(log, actions, r) {
      AcknowledgedSucceeds(log, actions, r);
    }
    if r in s.settled && s.settled[r] {
      SuccessWasAcknowledged(log, actions, r);
    }
  }

  // ---- What becomes of a write ----

  /** A rejected write stopped at a chunk that was never sent, or whose request was rejected. */
  ghost predicate Rejects(w: Write, settled: map<Request, bool>) {
    w.result == Some(false) ==>
      || |w.requests| < |w.chunks|
      || exists r <- w.requests :: r in settled && !settled[r]
  }

  ghost predicate AllReject(writes: seq<Write>, settled: map<Request, bool>) {
    forall i :: 0 <= i < |writes| ==> Rejects(writes[i], settled)
  }

  lemma RejectsGrow(writes: seq<Write>, settled: map<Request, bool>, settled': map<Request, bool>)
    requires AllReject(writes, settled)
    requires forall r <- settled :: r in settled' && settled'[r] == settled[r]
    ensures AllReject(writes, settled')
  {
    forall i | 0 <= i < |writes| ensures Rejects(writes[i], settled') {
      assert Rejects(writes[i], settled);
    }
  }

  lemma SendRejects(s: Socket, sendable: bool)
    requires InInv(s) && AllReject(s.writes, s.settled) && Head(s.writes) < |s.writes|
    requires var w := s.writes[Head(s.writes)]; w.waiting.None? && w.confirmed < |w.chunks|
    ensures var t := SendChunk(s, Head(s.writes), sendable); AllReject(t.writes, t.settled)
  {
    var h := Head(s.writes);
    var w := s.writes[h];
    var r := s.nextRequest;
    Running(s);
    SendAddsOnly(s, h, sendable);
    hide InInv, Head, Books, AllReject;
    UnsentRejects(w, s.settled, r);
    RejectsGrow(s.writes, s.settled, SendChunk(s, h, sendable).settled);
    ReplacedRejects(s.writes, h, SendChunk(s, h, sendable).writes[h], SendChunk(s, h, sendable).settled);
  }

  /** A write that stops before its next chunk has not sent all of them. */
  lemma UnsentRejects(w: Write, settled: map<Request, bool>, next: Request)
    requires WriteOk(w, settled, next) && w.waiting.None? && w.result.None? && w.confirmed < |w.chunks|
    ensures |w.requests| < |w.chunks|
  {
  }

  lemma ReplacedRejects(writes: seq<Write>, h: nat, w: Write, settled: map<Request, bool>)
    requires h < |writes| && AllReject(writes, settled) && Rejects(w, settled)
    ensures AllReject(writes[h := w], settled)
  {
  }

  lemma AdvanceRejects(s: Socket, sendable: bool)
    requires InInv(s) && AllReject(s.writes, s.settled)
    ensures var t := AdvanceWrite(s, sendable); AllReject(t.writes, t.settled)
  {
    hide InInv, SendChunk, Head, Rejects;
    var h := Head(s.writes);
    if h < |s.writes| {
      var w := s.writes[h];
      Running(s);
      if w.waiting.Some? {
        if w.waiting.value in s.settled {
          if s.settled[w.waiting.value] {
            NoResultRejects(w.(confirmed := w.confirmed + 1, waiting := None), s.settled);
          } else {
            RefusedRejects(w, s.settled, s.nextRequest);
          }
        }
      } else if w.confirmed >= |w.chunks| {
        NoResultRejects(w.(result := Some(true)), s.settled);
      } else {
        SendRejects(s, sendable);
      }
    }
  }

  lemma NoResultRejects(w: Write, settled: map<Request, bool>)
    requires w.result != Some(false)
    ensures Rejects(w, settled)
  {
  }

  lemma RefusedRejects(w: Write, settled: map<Request, bool>, next: Request)
    requires WriteOk(w, settled, next) && w.waiting.Some? && w.waiting.value in settled && !settled[w.waiting.value]
    ensures Rejects(w.(waiting := None, result := Some(false)), settled)
  {
    assert w.requests[w.confirmed] in w.requests;
  }

  lemma StepRejects(s: Socket, log: nat -> WireEvent, a: Action)
    requires InInv(s) && AllReject(s.writes, s.settled)
    ensures var t := Next(s, log, a); AllReject(t.writes, t.settled)
  {
    if a.DoAdvance? {
      hide InInv, AdvanceWrite, AllReject;
      AdvanceRejects(s, a.sendable);
    } else if !a.DoWrite? {
      OtherGrows(s, log, a);
      hide Next, InInv, Books, AllReject;
      RejectsGrow(s.writes, s.settled, Next(s, log, a).settled);
    }
  }

  lemma {:induction false} RejectsRun(log: nat -> WireEvent, actions: seq<Action>)
    ensures var s := Run(CREATED, log, actions); AllReject(s.writes, s.settled)
  {
    if actions != [] {
      RejectsRun(log, actions[..|actions| - 1]);
      InRun(log, actions[..|actions| - 1]);
      hide InInv, AllReject, Next;
      StepRejects(Run(CREATED, log, actions[..|actions| - 1]), log, actions[|actions| - 1]);
    }
  }

  /** Every chunk of the write was sent, and each of its requests acknowledged while it
      was waiting, over the connection of that moment. */
  ghost predicate FullyAcknowledged(log: nat -> WireEvent, actions: seq<Action>, w: Write) {
    |w.requests| == |w.chunks| && forall r <- w.requests :: WasAcknowledged(log, actions, r)
  }

  /** A finished write resolved exactly when all its chunks were acknowledged: such a
      write is never rejected, and no other one resolves. */
  lemma WriteResolvesIff(log: nat -> WireEvent, actions: seq<Action>, i: nat)
    requires i < |Run(CREATED, log, actions).writes|
    ensures var w := Run(CREATED, log, actions).writes[i];
      && (w.result == Some(true) ==> FullyAcknowledged(log, actions, w))
      && (FullyAcknowledged(log, actions, w) ==> w.result != Some(false))
  {
    var s := Run(CREATED, log, actions);
    var w := s.writes[i];
    hide Run, WasAcknowledged;
    if w.result == Some(true) {
      ResolvedWasAcknowledged(log, actions, i);
    } else if FullyAcknowledged(log, actions, w) && w.result == Some(false) {
      RejectsRun(log, actions);
      assert Rejects(w, s.settled);
      var r :| r in w.requests && r in s.settled && !s.settled[r];
      AnsweredIff(log, actions, r);
    }
  }

  /** Any other command gets a request that waits exactly when it has the lease it needs,
      fewer than 128 are waiting and it can leave; one that cannot leave is rejected. */
  lemma CommandWaitsIff(s: Socket, needsLease: bool, sendable: bool)
    requires Books(s)
    ensures var t := OtherCommand(s, needsLease, sendable);
      var allowed := (needsLease ==> s.lease.Some?) && |s.pending| < 128;
      && (s.nextRequest in t.pending <==> allowed && s.connected && sendable)
      && (s.nextRequest in t.settled <==> allowed && !(s.connected && sendable))
      && (s.nextRequest in t.settled ==> !t.settled[s.nextRequest])
      && (t.nextRequest == if allowed then s.nextRequest + 1 else s.nextRequest)
  {
    assert s.nextRequest !in s.pending && s.nextRequest !in s.settled;
  }

  // ---- An acknowledged write resolves ----

  /** How many continuations of the running write are among the actions. */
  function Advances(actions: seq<Action>): (n: nat)
  {
    if actions == [] then 0
    else Advances(actions[..|actions| - 1]) + (if actions[|actions| - 1].DoAdvance? then 1 else 0)
  }

  ghost predicate Complete(w: Write, settled: map<Request, bool>) {
    |w.requests| == |w.chunks| && forall r <- w.requests :: r in settled && settled[r]
  }

  /** Write `h` has resolved, or runs with everything acknowledged and needs at most
      `left` more continuations. */
  ghost predicate Near(s: Socket, h: nat, left: int) {
    && h < |s.writes|
    && (s.writes[h].result == Some(true)
        || (h == Head(s.writes) && Complete(s.writes[h], s.settled)
            && (if s.writes[h].waiting.None? then 1 else 2) <= left))
  }

  lemma {:induction false} HeadAt(writes: seq<Write>, h: nat)
    requires h < |writes| && writes[h].result.None? && forall i :: 0 <= i < h ==> writes[i].result.Some?
    ensures Head(writes) == h
  {
  }

  lemma AdvanceNears(s: Socket, sendable: bool, h: nat, left: int)
    requires InInv(s) && Near(s, h, left)
    ensures Near(AdvanceWrite(s, sendable), h, left - 1)
  {
    var t := AdvanceWrite(s, sendable);
    if s.writes[h].result == Some(true) {
      AdvanceTouchesHead(s, sendable, h);
    } else {
      Running(s);
      hide InInv, SendChunk, Books;
      var w := s.writes[h];
      if w.waiting.Some? {
        assert w.waiting.value in w.requests;
        HeadAt(t.writes, h);
      }
    }
  }

  /** A finished write stays as it is. */
  lemma AdvanceTouchesHead(s: Socket, sendable: bool, h: nat)
    requires h < |s.writes| && s.writes[h].result.Some?
    ensures var t := AdvanceWrite(s, sendable); h < |t.writes| && t.writes[h] == s.writes[h]
  {
    hide SendChunk;
    if Head(s.writes) < |s.writes| && s.writes[Head(s.writes)].confirmed < |s.writes[Head(s.writes)].chunks| {
      SendTouches(s, Head(s.writes), sendable, h);
    }
  }

  lemma SendTouches(s: Socket, at: nat, sendable: bool, h: nat)
    requires at < |s.writes| && h < |s.writes| && at != h && s.writes[at].confirmed < |s.writes[at].chunks|
    ensures var t := SendChunk(s, at, sendable); h < |t.writes| && t.writes[h] == s.writes[h]
  {
  }

  lemma OtherNears(s: Socket, log: nat -> WireEvent, a: Action, h: nat, left: int)
    requires InInv(s) && Near(s, h, left) && !a.DoAdvance?
    ensures Near(Next(s, log, a), h, left)
  {
    if a.DoWrite? {
      HeadSnoc(s.writes, Write(s.epoch, a.chunks, 0, None, [], None));
      hide InInv, Head;
    } else {
      OtherGrows(s, log, a);
      hide Next, InInv, Books, Head;
    }
  }

  lemma NearsStep(s: Socket, log: nat -> WireEvent, a: Action, h: nat, left: int)
    requires InInv(s) && Near(s, h, left)
    ensures Near(Next(s, log, a), h, left - (if a.DoAdvance? then 1 else 0))
  {
    hide InInv, Near, AdvanceWrite;
    if a.DoAdvance? {
      AdvanceNears(s, a.sendable, h, left);
    } else {
      OtherNears(s, log, a, h, left);
    }
  }

  lemma {:induction false} Nears(s: Socket, log: nat -> WireEvent, after: seq<Action>, h: nat, left: int)
    requires InInv(s) && Near(s, h, left)
    ensures InInv(Run(s, log, after)) && Near(Run(s, log, after), h, left - Advances(after))
  {
    hide InInv, Near, Next;
    if after != [] {
      var front := after[..|after| - 1];
      var a := after[|after| - 1];
      var m := Run(s, log, front);
      assert Run(s, log, after) == Next(m, log, a);
      assert Advances(after) == Advances(front) + (if a.DoAdvance? then 1 else 0);
      hide Run, Advances;
      Nears(s, log, front, h, left);
      InNext(m, log, a);
      NearsStep(m, log, a, h, left - Advances(front));
    }
  }

  /** A running write all of whose chunks were acknowledged resolves: after two more of
      its continuations, whatever else happens before, between and after them, it has. */
  lemma AcknowledgedResolves(log: nat -> WireEvent, before: seq<Action>, after: seq<Action>)
    requires var s := Run(CREATED, log, before);
      Head(s.writes) < |s.writes| && FullyAcknowledged(log, before, s.writes[Head(s.writes)])
    requires Advances(after) >= 2
    ensures var h := Head(Run(CREATED, log, before).writes);
      var t := Run(CREATED, log, before + after);
      h < |t.writes| && t.writes[h].result == Some(true)
  {
    var s := Run(CREATED, log, before);
    var h := Head(s.writes);
    hide Run, Head, WasAcknowledged, Advances;
    forall r <- s.writes[h].requests ensures r in s.settled && s.settled[r] {
      AnsweredIff(log, before, r);
    }
    InRun(log, before);
    S.RunAppend(CREATED, log, before, after);
    hide InInv;
    Nears(s, log, after, h, 2);
  }

  // ---- What leaves, and that it does ----

  /** The running write can send its next chunk. */
  predicate CanSend(s: Socket, w: Write, sendable: bool) {
    && w.waiting.None? && w.confirmed < |w.chunks|
    && w.epoch == s.epoch && s.lease.Some? && |s.pending| < 128 && s.connected && sendable
  }

  /** One continuation of the running write: it sends exactly when it can, rejects exactly
      when its request was rejected or it cannot send what is left, and resolves exactly
      when nothing is left. */
  ghost predicate Continues(s: Socket, t: Socket, h: nat, sendable: bool)
    requires h < |s.writes|
  {
    var w := s.writes[h];
    && |t.writes| == |s.writes|
    && (t.sent != s.sent <==> CanSend(s, w, sendable))
    && (t.writes[h].result == Some(true) <==> w.waiting.None? && w.confirmed >= |w.chunks|)
    && (t.writes[h].result == Some(false) <==>
         (if w.waiting.Some? then w.waiting.value in s.settled && !s.settled[w.waiting.value]
          else w.confirmed < |w.chunks| && !CanSend(s, w, sendable)))
    && (t.writes[h].waiting.Some? <==>
         CanSend(s, w, sendable) || (w.waiting.Some? && w.waiting.value !in s.settled))
  }

  lemma SendContinues(s: Socket, h: nat, sendable: bool)
    requires h < |s.writes| && s.writes[h].waiting.None? && s.writes[h].result.None?
    requires s.writes[h].confirmed < |s.writes[h].chunks|
    ensures Continues(s, SendChunk(s, h, sendable), h, sendable)
  {
    var w := s.writes[h];
    if CanSend(s, w, sendable) {
      assert |SendChunk(s, h, sendable).sent| == |s.sent| + 1;
    } else {
    }
  }

  lemma WriteContinues(s: Socket, sendable: bool)
    requires Head(s.writes) < |s.writes|
    ensures Continues(s, AdvanceWrite(s, sendable), Head(s.writes), sendable)
  {
    hide SendChunk;
    var h := Head(s.writes);
    var w := s.writes[h];
    if w.waiting.Some? {
      if w.waiting.value in s.settled {
        if s.settled[w.waiting.value] {
        } else {
        }
      }
    } else if w.confirmed >= |w.chunks| {
    } else {
      SendContinues(s, h, sendable);
    }
  }

  /** Writes to a connected session whose caller is the only one: every chunk leaves and
      is acknowledged. */
  function Served(epoch: nat, first: Request, n: nat): (r: seq<Action>)
  {
    if n == 0 then []
    else
      Served(epoch, first, n - 1)
        + [DoAdvance(true), DoMessage(epoch, Ack(Some(first + n - 1)), true), DoAdvance(true)]
  }

  /** The frames of a call: its chunks, in order, under consecutive requests. */
  function FramesFor(write: nat, epoch: nat, first: Request, chunks: seq<Text>, n: nat): (f: seq<Sent>)
    requires n <= |chunks|
  {
    if n == 0 then []
    else FramesFor(write, epoch, first, chunks, n - 1) + [Sent(write, n - 1, epoch, first + n - 1, chunks[n - 1])]
  }

  predicate Ready(s: Socket) {
    && !s.stopped && s.connected && s.lease.Some? && |s.pending| < 128
    && Head(s.writes) == |s.writes|
    && forall r <- s.pending :: r < s.nextRequest
  }

  /** The call was made and its first `n` chunks are acknowledged. */
  ghost predicate Delivered(s: Socket, t: Socket, chunks: seq<Text>, n: nat) {
    && n <= |chunks|
    && !t.stopped && t.connected && t.lease.Some? && t.epoch == s.epoch
    && t.pending == s.pending && t.nextRequest == s.nextRequest + n
    && |t.writes| == |s.writes| + 1 && t.writes[..|s.writes|] == s.writes
    && (var w := t.writes[|s.writes|];
        w.epoch == s.epoch && w.chunks == chunks && w.confirmed == n && w.waiting.None? && w.result.None?)
    && t.sent == s.sent + FramesFor(|s.writes|, s.epoch, s.nextRequest, chunks, n)
  }

  lemma HeadIsNew(s: Socket, t: Socket, chunks: seq<Text>, n: nat)
    requires Ready(s) && Delivered(s, t, chunks, n)
    ensures Head(t.writes) == |s.writes|
  {
    forall i | 0 <= i < |s.writes| ensures t.writes[i].result.Some? {
      assert t.writes[i] == t.writes[..|s.writes|][i];
    }
    HeadAt(t.writes, |s.writes|);
  }

  lemma HeadUnmoved(writes: seq<Write>, h: nat, w: Write)
    requires h < |writes| && Head(writes) == h && w.result.None?
    ensures Head(writes[h := w]) == h
  {
    HeadAt(writes[h := w], h);
  }

  lemma ChunkLeaves(t: Socket, log: nat -> WireEvent, h: nat)
    requires h < |t.writes| && Head(t.writes) == h && CanSend(t, t.writes[h], true)
    ensures var w := t.writes[h];
      Next(t, log, DoAdvance(true))
      == t.(writes := t.writes[h := w.(waiting := Some(t.nextRequest), requests := w.requests + [t.nextRequest])],
            pending := t.pending + {t.nextRequest}, nextRequest := t.nextRequest + 1,
            sent := t.sent + [Sent(h, w.confirmed, t.epoch, t.nextRequest, w.chunks[w.confirmed])])
  {
  }

  lemma AckArrives(t: Socket, log: nat -> WireEvent, r: Request)
    requires !t.stopped && r in t.pending
    ensures Next(t, log, DoMessage(t.epoch, Ack(Some(r)), true))
      == t.(pending := t.pending - {r}, settled := t.settled[r := true])
  {
  }

  lemma WriteNotes(t: Socket, log: nat -> WireEvent, h: nat, r: Request)
    requires h < |t.writes| && Head(t.writes) == h && t.writes[h].waiting == Some(r)
    requires r in t.settled && t.settled[r]
    ensures Next(t, log, DoAdvance(true))
      == t.(writes := t.writes[h := t.writes[h].(confirmed := t.writes[h].confirmed + 1, waiting := None)])
  {
  }

  /** A chunk leaves, is acknowledged, and the write takes note. */
  lemma ChunkDelivered(s: Socket, log: nat -> WireEvent, chunks: seq<Text>, n: nat, t: Socket, t1: Socket, t2: Socket,
    t3: Socket)
    requires Ready(s) && Delivered(s, t, chunks, n) && n < |chunks|
    requires t1 == Next(t, log, DoAdvance(true))
    requires t2 == Next(t1, log, DoMessage(s.epoch, Ack(Some(s.nextRequest + n)), true))
    requires t3 == Next(t2, log, DoAdvance(true))
    ensures Delivered(s, t3, chunks, n + 1)
  {
    hide Next, Head;
    var h := |s.writes|;
    var r := s.nextRequest + n;
    HeadIsNew(s, t, chunks, n);
    var w := t.writes[h];
    var w1 := w.(waiting := Some(r), requests := w.requests + [r]);
    ChunkLeaves(t, log, h);
    HeadUnmoved(t.writes, h, w1);
    AckArrives(t1, log, r);
    WriteNotes(t2, log, h, r);
    assert r !in s.pending;
    assert t3.pending == s.pending;
    assert t3.writes == t.writes[h := w1.(confirmed := n + 1, waiting := None)];
  }

  lemma RunSnoc(s: Socket, log: nat -> WireEvent, front: seq<Action>, a: Action)
    ensures Run(s, log, front + [a]) == Next(Run(s, log, front), log, a)
  {
    hide Next;
    assert (front + [a])[..|front|] == front;
  }

  lemma RunThree(s: Socket, log: nat -> WireEvent, front: seq<Action>, a: Action, b: Action, c: Action)
    ensures Run(s, log, front + [a, b, c]) == Next(Next(Next(Run(s, log, front), log, a), log, b), log, c)
  {
    hide Next, Run;
    RunSnoc(s, log, front, a);
    RunSnoc(s, log, front + [a], b);
    RunSnoc(s, log, front + [a] + [b], c);
    assert front + [a] + [b] + [c] == front + [a, b, c];
  }

  lemma {:induction false} ChunksDelivered(s: Socket, log: nat -> WireEvent, chunks: seq<Text>, n: nat)
    requires Ready(s) && n <= |chunks|
    ensures Delivered(s, Run(CallWrite(s, chunks), log, Served(s.epoch, s.nextRequest, n)), chunks, n)
  {
    if n == 0 {
      NothingDelivered(s, log, chunks);
    } else {
      ChunksDelivered(s, log, chunks, n - 1);
      OneMoreServed(s, log, chunks, n, Run(CallWrite(s, chunks), log, Served(s.epoch, s.nextRequest, n - 1)));
    }
    hide *;
  }

  lemma NothingDelivered(s: Socket, log: nat -> WireEvent, chunks: seq<Text>)
    requires Ready(s)
    ensures Delivered(s, Run(CallWrite(s, chunks), log, Served(s.epoch, s.nextRequest, 0)), chunks, 0)
  {
    hide Next, Head;
  }

  lemma OneMoreServed(s: Socket, log: nat -> WireEvent, chunks: seq<Text>, n: nat, t: Socket)
    requires Ready(s) && 1 <= n <= |chunks| && Delivered(s, t, chunks, n - 1)
    requires t == Run(CallWrite(s, chunks), log, Served(s.epoch, s.nextRequest, n - 1))
    ensures Delivered(s, Run(CallWrite(s, chunks), log, Served(s.epoch, s.nextRequest, n)), chunks, n)
  {
    hide Next, Run, Ready, Delivered, CallWrite;
    var acks := DoMessage(s.epoch, Ack(Some(s.nextRequest + n - 1)), true);
    RunThree(CallWrite(s, chunks), log, Served(s.epoch, s.nextRequest, n - 1), DoAdvance(true), acks, DoAdvance(true));
    var t1 := Next(t, log, DoAdvance(true));
    var t2 := Next(t1, log, acks);
    ChunkDelivered(s, log, chunks, n - 1, t, t1, t2, Next(t2, log, DoAdvance(true)));
  }

  /** Input goes through: on a connected session that holds the lease and has no write
      waiting, a call whose chunks the server acknowledges puts exactly those chunks on
      the wire, in order, each once, and resolves. */
  lemma InputGoesThrough(s: Socket, log: nat -> WireEvent, chunks: seq<Text>)
    requires Ready(s)
    ensures var t := Run(CallWrite(s, chunks), log,
        Served(s.epoch, s.nextRequest, |chunks|) + [DoAdvance(true)]);
      && t.sent == s.sent + FramesFor(|s.writes|, s.epoch, s.nextRequest, chunks, |chunks|)
      && |t.writes| == |s.writes| + 1 && t.writes[|s.writes|].result == Some(true)
  {
    var served := Served(s.epoch, s.nextRequest, |chunks|);
    ChunksDelivered(s, log, chunks, |chunks|);
    var t := Run(CallWrite(s, chunks), log, served);
    HeadIsNew(s, t, chunks, |chunks|);
    assert (served + [DoAdvance(true)])[..|served|] == served;
    WriteContinues(t, true);
    hide Head, Served, FramesFor;
  }
}
