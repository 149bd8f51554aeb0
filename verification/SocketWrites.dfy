/** Input of a terminal socket: what leaves, in which order, and what a resolved write means. */
module SocketWrites {
  import opened Prelude
  import opened Utf16
  import opened SocketState

  // ---- The frames a list of writes put on the wire ----

  predicate Prefixed(w: Write) {
    |w.requests| <= |w.chunks|
  }

  predicate AllPrefixed(writes: seq<Write>) {
    forall i :: 0 <= i < |writes| ==> Prefixed(writes[i])
  }

  /** The frames of one write: its first chunks, each once, all in the epoch of the call. */
  function FramesOf(i: nat, w: Write): (f: seq<Sent>)
    requires Prefixed(w)
  {
    seq(|w.requests|, k requires 0 <= k < |w.requests| => Sent(i, k, w.epoch, w.requests[k], w.chunks[k]))
  }

  /** The frames of all writes, write after write in call order. */
  function Frames(writes: seq<Write>): (f: seq<Sent>)
    requires AllPrefixed(writes)
  {
    if writes == [] then []
    else Frames(writes[..|writes| - 1]) + FramesOf(|writes| - 1, writes[|writes| - 1])
  }

  lemma {:induction false} FramesSame(writes: seq<Write>, h: nat, w: Write)
    requires h < |writes| && AllPrefixed(writes)
    requires Prefixed(w) && w.requests == writes[h].requests && w.chunks == writes[h].chunks
      && w.epoch == writes[h].epoch
    ensures Frames(writes[h := w]) == Frames(writes)
  {
    var n := |writes| - 1;
    if h < n {
      assert writes[h := w][..n] == writes[..n][h := w];
      FramesSame(writes[..n], h, w);
    } else {
      assert writes[h := w][..n] == writes[..n];
    }
  }

  lemma {:induction false} FramesGrow(writes: seq<Write>, h: nat, r: Request)
    requires h < |writes| && AllPrefixed(writes)
    requires |writes[h].requests| < |writes[h].chunks|
    requires forall i :: h < i < |writes| ==> writes[i].requests == []
    ensures var w := writes[h];
      Frames(writes[h := w.(waiting := Some(r), requests := w.requests + [r])])
      == Frames(writes) + [Sent(h, |w.requests|, w.epoch, r, w.chunks[|w.requests|])]
  {
    var n := |writes| - 1;
    var w := writes[h];
    var w' := w.(waiting := Some(r), requests := w.requests + [r]);
    if h < n {
      assert writes[h := w'][..n] == writes[..n][h := w'];
      FramesGrow(writes[..n], h, r);
      assert FramesOf(n, writes[n]) == [];
    } else {
      assert writes[h := w'][..n] == writes[..n];
      assert FramesOf(n, w') == FramesOf(n, w) + [Sent(h, |w.requests|, w.epoch, r, w.chunks[|w.requests|])];
    }
  }

  lemma {:induction false} FramesFrom(writes: seq<Write>)
    requires AllPrefixed(writes)
    ensures forall f :: f in Frames(writes) ==>
      f.write < |writes| && f.chunk < |writes[f.write].requests|
      && f == Sent(f.write, f.chunk, writes[f.write].epoch, writes[f.write].requests[f.chunk],
        writes[f.write].chunks[f.chunk])
  {
    if writes != [] {
      FramesFrom(writes[..|writes| - 1]);
    }
  }

  predicate Before(a: Sent, b: Sent) {
    a.write < b.write || (a.write == b.write && a.chunk < b.chunk)
  }

  predicate Ordered(f: seq<Sent>) {
    forall i, j :: 0 <= i < j < |f| ==> Before(f[i], f[j])
  }

  lemma {:induction false} FramesOrdered(writes: seq<Write>)
    requires AllPrefixed(writes)
    ensures Ordered(Frames(writes))
  {
    if writes != [] {
      var front := writes[..|writes| - 1];
      FramesOrdered(front);
      FramesFrom(front);
    }
  }

  // ---- The invariant ----

  /** A write's own bookkeeping. */
  ghost predicate WriteOk(w: Write, settled: map<Request, bool>, nextRequest: Request) {
    && Prefixed(w)
    && w.confirmed <= |w.requests| <= w.confirmed + 1
    && (w.waiting.Some? ==>
      |w.requests| == w.confirmed + 1 && w.requests[w.confirmed] == w.waiting.value && w.result.None?)
    && (w.waiting.None? && w.result.None? ==> |w.requests| == w.confirmed)
    && (w.result == Some(true) ==> w.confirmed == |w.chunks|)
    && (forall k :: 0 <= k < w.confirmed ==> w.requests[k] in settled && settled[w.requests[k]])
    && (forall r <- w.requests :: r < nextRequest)
  }

  ghost predicate Untouched(w: Write) {
    w.requests == [] && w.confirmed == 0 && w.waiting.None? && w.result.None?
  }

  ghost predicate AllOk(writes: seq<Write>, settled: map<Request, bool>, nextRequest: Request) {
    forall i :: 0 <= i < |writes| ==> WriteOk(writes[i], settled, nextRequest)
  }

  ghost predicate Queued(writes: seq<Write>) {
    forall i :: Head(writes) < i < |writes| ==> Untouched(writes[i])
  }

  /** Requests are numbered once, and one that was answered is no longer pending. */
  ghost predicate Books(s: Socket) {
    && s.pending !! s.settled.Keys
    && (forall r :: r in s.pending || r in s.settled ==> r < s.nextRequest)
  }

  ghost predicate InInv(s: Socket) {
    && AllOk(s.writes, s.settled, s.nextRequest)
    && Queued(s.writes)
    && AllPrefixed(s.writes)
    && s.sent == Frames(s.writes)
    && Books(s)
  }

  /** No write advanced; answers only accumulate, and only those in `yes` are new successes. */
  ghost predicate Growth(s: Socket, t: Socket, yes: set<Request>) {
    && t.writes == s.writes && t.sent == s.sent
    && t.nextRequest >= s.nextRequest
    && (forall r <- s.settled :: r in t.settled && t.settled[r] == s.settled[r])
    && (forall r <- t.settled :: t.settled[r] ==> (r in s.settled && s.settled[r]) || r in yes)
    && Books(t)
  }

  /** The requests this step's frame acknowledges. */
  function Answered(s: Socket, a: Action): (yes: set<Request>)
  {
    if a.DoMessage? && !s.stopped && a.epoch == s.epoch then
      match a.frame
      case Ack(Some(r)) => {r} * s.pending
      case Lease(_, Some(r)) => {r} * s.pending
      case _ => {}
    else {}
  }

  lemma GrowthKeeps(s: Socket, t: Socket, yes: set<Request>)
    requires InInv(s) && Growth(s, t, yes)
    ensures InInv(t)
  {
    hide Frames, Queued;
  }

  lemma GrowthChains(s: Socket, t: Socket, u: Socket, yes: set<Request>)
    requires Growth(s, t, yes) && Growth(t, u, yes)
    ensures Growth(s, u, yes)
  {
    hide Books;
  }

  lemma RejectGrows(s: Socket, yes: set<Request>)
    requires Books(s)
    ensures Growth(s, RejectAll(s), yes)
  {
  }

  lemma SettleGrows(s: Socket, r: Request, ok: bool, yes: set<Request>)
    requires Books(s)
    requires ok && r in s.pending ==> r in yes
    ensures Growth(s, Settle(s, r, ok), yes)
  {
  }

  lemma StopOnceGrows(s: Socket, yes: set<Request>)
    requires Books(s)
    ensures Growth(s, StopOnce(s), yes)
  {
    hide RejectAll, Growth;
    var t := s.(epoch := s.epoch + 1, connected := false, timer := false, lease := None, stopped := true);
    assert Growth(s, t, yes) by { SameRequests(s, t, yes); }
    GrowthBooks(s, t, yes);
    RejectGrows(t, yes);
    GrowthChains(s, t, RejectAll(t), yes);
  }

  lemma GrowthBooks(s: Socket, t: Socket, yes: set<Request>)
    requires Growth(s, t, yes)
    ensures Books(t)
  {
  }

  lemma SameRequests(s: Socket, t: Socket, yes: set<Request>)
    requires Books(s)
    requires t.writes == s.writes && t.sent == s.sent && t.nextRequest == s.nextRequest
    requires t.settled == s.settled && t.pending == s.pending
    ensures Growth(s, t, yes)
  {
  }

  lemma StopGrows(s: Socket, yes: set<Request>)
    requires Books(s)
    ensures Growth(s, Stop(s), yes)
  {
    hide StopOnce, Growth, Books;
    StopOnceGrows(s, yes);
    GrowthBooks(s, StopOnce(s), yes);
    StopOnceGrows(StopOnce(s), yes);
    GrowthChains(s, StopOnce(s), StopOnce(StopOnce(s)), yes);
  }

  lemma FailGrows(s: Socket, yes: set<Request>)
    requires Books(s)
    ensures Growth(s, Fail(s), yes)
  {
    hide Stop, Growth;
    SameRequests(s, Deliver(s, Failure), yes);
    StopGrows(Deliver(s, Failure), yes);
    GrowthChains(s, Deliver(s, Failure), Fail(s), yes);
  }

  lemma DisconnectedGrows(s: Socket, yes: set<Request>)
    requires Books(s)
    ensures Growth(s, Disconnected(s), yes)
  {
    hide RejectAll, Growth;
    var s0 := s.(epoch := s.epoch + 1, connected := false);
    SameRequests(s, s0, yes);
    RejectGrows(s0, yes);
    GrowthBooks(s0, RejectAll(s0), yes);
    GrowthChains(s, s0, RejectAll(s0), yes);
    SameRequests(RejectAll(s0), SetControl(RejectAll(s0), None).(timer := true), yes);
    GrowthChains(s, RejectAll(s0), SetControl(RejectAll(s0), None).(timer := true), yes);
  }

  lemma OutputGrows(s: Socket, log: nat -> WireEvent, number: int, yes: set<Request>)
    requires Books(s)
    ensures Growth(s, OnOutput(s, log, number), yes)
  {
    hide Stop, Growth, Fail;
    SameRequests(s, s, yes);
    FailGrows(s, yes);
    SameRequests(s, Accept(s), yes);
    StopGrows(Accept(s), yes);
    GrowthChains(s, Accept(s), Stop(Accept(s)), yes);
  }

  lemma MessageGrows(s: Socket, log: nat -> WireEvent, epoch: nat, frame: Frame, sendable: bool, yes: set<Request>)
    requires Books(s) && Answered(s, DoMessage(epoch, frame, sendable)) <= yes
    ensures Growth(s, OnMessage(s, log, epoch, frame, sendable), yes)
  {
    hide Fail, Growth, OnOutput, Books, Settle;
    SameRequests(s, s, yes);
    FailGrows(s, yes);
    if !s.stopped && epoch == s.epoch {
      match frame
      case OutputFrame(number) => OutputGrows(s, log, number, yes);
      case Authenticated(from, lease) => SameRequests(s, SetControl(FirstAuthentication(s, from), lease), yes);
      case Lease(lease, request) =>
        SameRequests(s, SetControl(s, lease), yes);
        if request.Some? {
          GrowthBooks(s, SetControl(s, lease), yes);
          SettleGrows(SetControl(s, lease), request.value, true, yes);
          GrowthChains(s, SetControl(s, lease), Settle(SetControl(s, lease), request.value, true), yes);
        }
      case Ack(request) => if request.Some? { SettleGrows(s, request.value, true, yes); }
      case ErrorFrame(request) => if request.Some? { SettleGrows(s, request.value, false, yes); }
      case Hello(_) =>
      case Ping =>
      case Garbage =>
    }
  }

  lemma ReconnectGrows(s: Socket, yes: set<Request>)
    requires Books(s)
    ensures Growth(s, Reconnect(s), yes)
  {
    hide Disconnected, Growth, Books;
    var s1 := s.(epoch := s.epoch + 1);
    SameRequests(s, s, yes);
    SameRequests(s, s1, yes);
    GrowthBooks(s, s1, yes);
    DisconnectedGrows(s1, yes);
    GrowthBooks(s1, Disconnected(s1), yes);
    GrowthChains(s, s1, Disconnected(s1), yes);
    SameRequests(Disconnected(s1), Connect(Disconnected(s1).(timer := false)), yes);
    GrowthChains(s, Disconnected(s1), Connect(Disconnected(s1).(timer := false)), yes);
  }

  lemma CommandGrows(s: Socket, needsLease: bool, sendable: bool, yes: set<Request>)
    requires Books(s)
    ensures Growth(s, OtherCommand(s, needsLease, sendable), yes)
  {
  }

  lemma OtherGrows(s: Socket, log: nat -> WireEvent, a: Action)
    requires Books(s) && !a.DoWrite? && !a.DoAdvance?
    ensures Growth(s, Next(s, log, a), Answered(s, a))
  {
    var yes := Answered(s, a);
    hide Answered, Fail, Growth, Books, Settle, OnMessage, Disconnected, Reconnect, StopOnce, Stop, OtherCommand;
    SameRequests(s, s, yes);
    match a
    case DoTimer => SameRequests(s, TimerFires(s), yes);
    case DoReconnect => ReconnectGrows(s, yes);
    case DoOpened(_) => SameRequests(s, s.(connected := true), yes);
    case DoConnectFailed(_, _) => FailGrows(s, yes); DisconnectedGrows(s, yes);
    case DoSocketClosed(_) => DisconnectedGrows(s, yes);
    case DoMessage(epoch, frame, sendable) => MessageGrows(s, log, epoch, frame, sendable, yes);
    case DoStop => StopGrows(s, yes);
    case DoAbort => StopOnceGrows(s, yes);
    case DoCommand(needsLease, sendable) => CommandGrows(s, needsLease, sendable, yes);
    case DoTimeout(r) => SettleGrows(s, r, false, yes);
  }

  // ---- One write advances ----

  /** Replacing the running write keeps the later ones untouched. */
  lemma StillQueued(writes: seq<Write>, w: Write)
    requires Queued(writes) && Head(writes) < |writes|
    ensures Queued(writes[Head(writes) := w])
  {
    var h := Head(writes);
    var after := writes[h := w];
    assert forall i :: 0 <= i < h ==> after[i] == writes[i];
  }

  lemma StillOk(writes: seq<Write>, h: nat, w: Write, settled: map<Request, bool>, next: Request,
    settled': map<Request, bool>, next': Request)
    requires h < |writes| && AllOk(writes, settled, next) && WriteOk(w, settled', next')
    requires next <= next' && forall r <- settled :: r in settled' && settled'[r] == settled[r]
    ensures AllOk(writes[h := w], settled', next')
    ensures AllPrefixed(writes[h := w])
  {
  }

  /** The running write changed without sending: the wire still shows the same frames. */
  lemma NoFrameKeeps(s: Socket, w: Write, settled': map<Request, bool>, next': Request)
    requires InInv(s) && Head(s.writes) < |s.writes|
    requires var old' := s.writes[Head(s.writes)];
      w.requests == old'.requests && w.chunks == old'.chunks && w.epoch == old'.epoch
    requires WriteOk(w, settled', next')
    requires s.nextRequest <= next' && forall r <- s.settled :: r in settled' && settled'[r] == s.settled[r]
    requires Books(s.(settled := settled', nextRequest := next'))
    ensures InInv(SetWrite(s, Head(s.writes), w).(settled := settled', nextRequest := next'))
  {
    hide WriteOk, Queued, Frames, Head;
    StillQueued(s.writes, w);
    StillOk(s.writes, Head(s.writes), w, s.settled, s.nextRequest, settled', next');
    FramesSame(s.writes, Head(s.writes), w);
  }

  /** The running write's own bookkeeping. */
  lemma Running(s: Socket)
    requires InInv(s) && Head(s.writes) < |s.writes|
    ensures WriteOk(s.writes[Head(s.writes)], s.settled, s.nextRequest)
    ensures Books(s.(settled := s.settled, nextRequest := s.nextRequest))
  {
    hide Frames, Queued, WriteOk, Head, AllPrefixed;
  }

  lemma SentOk(w: Write, settled: map<Request, bool>, r: Request)
    requires WriteOk(w, settled, r) && w.waiting.None? && w.result.None? && w.confirmed < |w.chunks|
    ensures WriteOk(w.(waiting := Some(r), requests := w.requests + [r]), settled, r + 1)
    ensures |w.requests| == w.confirmed
  {
  }

  lemma RefusedOk(w: Write, settled: map<Request, bool>, r: Request)
    requires WriteOk(w, settled, r) && w.waiting.None?
    requires forall q <- settled :: q < r
    ensures WriteOk(w.(result := Some(false)), settled, r)
    ensures WriteOk(w.(result := Some(false)), settled[r := false], r + 1)
  {
  }

  lemma RefusedBooks(s: Socket)
    requires Books(s)
    ensures Books(s.(settled := s.settled[s.nextRequest := false], nextRequest := s.nextRequest + 1))
    ensures forall q <- s.settled :: q < s.nextRequest
  {
  }

  lemma SentBooks(s: Socket, t: Socket)
    requires Books(s) && t.pending == s.pending + {s.nextRequest} && t.settled == s.settled
      && t.nextRequest == s.nextRequest + 1
    ensures Books(t)
  {
  }

  lemma SendKeeps(s: Socket)
    requires InInv(s) && Head(s.writes) < |s.writes|
    requires var w := s.writes[Head(s.writes)]; w.waiting.None? && w.confirmed < |w.chunks| && w.epoch == s.epoch
    ensures var h := Head(s.writes);
      var w := s.writes[h];
      var r := s.nextRequest;
      InInv(SetWrite(s, h, w.(waiting := Some(r), requests := w.requests + [r])).(
        pending := s.pending + {r},
        nextRequest := r + 1,
        sent := s.sent + [Sent(h, w.confirmed, s.epoch, r, w.chunks[w.confirmed])]))
  {
    hide WriteOk, AllOk, AllPrefixed, Queued, Frames, Head, Books;
    var h := Head(s.writes);
    var w := s.writes[h];
    var r := s.nextRequest;
    var w' := w.(waiting := Some(r), requests := w.requests + [r]);
    Running(s);
    SentOk(w, s.settled, r);
    StillQueued(s.writes, w');
    StillOk(s.writes, h, w', s.settled, r, s.settled, r + 1);
    LaterSentNothing(s.writes);
    FramesGrow(s.writes, h, r);
    SentBooks(s, SetWrite(s, h, w').(pending := s.pending + {r}, nextRequest := r + 1,
      sent := s.sent + [Sent(h, w.confirmed, s.epoch, r, w.chunks[w.confirmed])]));
  }

  lemma LaterSentNothing(writes: seq<Write>)
    requires Queued(writes)
    ensures forall i :: Head(writes) < i < |writes| ==> writes[i].requests == []
  {
  }

  lemma SendChunkKeeps(s: Socket, sendable: bool)
    requires InInv(s) && Head(s.writes) < |s.writes|
    requires var w := s.writes[Head(s.writes)]; w.waiting.None? && w.confirmed < |w.chunks|
    ensures InInv(SendChunk(s, Head(s.writes), sendable))
  {
    hide InInv, WriteOk, Head, Books;
    var h := Head(s.writes);
    var w := s.writes[h];
    var r := s.nextRequest;
    Running(s);
    RefusedBooks(s);
    RefusedOk(w, s.settled, r);
    if s.epoch != w.epoch || s.lease.None? || |s.pending| >= 128 {
      NoFrameKeeps(s, w.(result := Some(false)), s.settled, r);
    } else if !s.connected || !sendable {
      NoFrameKeeps(s, w.(result := Some(false)), s.settled[r := false], r + 1);
    } else {
      SendKeeps(s);
    }
  }

  lemma AnsweredOk(w: Write, settled: map<Request, bool>, next: Request)
    requires WriteOk(w, settled, next) && w.waiting.Some? && w.waiting.value in settled
    ensures settled[w.waiting.value] ==> WriteOk(w.(confirmed := w.confirmed + 1, waiting := None), settled, next)
    ensures WriteOk(w.(waiting := None, result := Some(false)), settled, next)
  {
  }

  lemma FinishedOk(w: Write, settled: map<Request, bool>, next: Request)
    requires WriteOk(w, settled, next) && w.waiting.None? && w.result.None? && w.confirmed >= |w.chunks|
    ensures WriteOk(w.(result := Some(true)), settled, next)
  {
  }

  lemma AdvanceKeeps(s: Socket, sendable: bool)
    requires InInv(s)
    ensures InInv(AdvanceWrite(s, sendable))
  {
    hide InInv, WriteOk, Head, SendChunk, Books;
    var h := Head(s.writes);
    if h < |s.writes| {
      Running(s);
      var w := s.writes[h];
      if w.waiting.Some? {
        var r := w.waiting.value;
        if r in s.settled {
          AnsweredOk(w, s.settled, s.nextRequest);
          if s.settled[r] {
            NoFrameKeeps(s, w.(confirmed := w.confirmed + 1, waiting := None), s.settled, s.nextRequest);
          } else {
            NoFrameKeeps(s, w.(waiting := None, result := Some(false)), s.settled, s.nextRequest);
          }
        }
      } else if w.confirmed >= |w.chunks| {
        FinishedOk(w, s.settled, s.nextRequest);
        NoFrameKeeps(s, w.(result := Some(true)), s.settled, s.nextRequest);
      } else {
        SendChunkKeeps(s, sendable);
      }
    }
  }

  lemma {:induction false} HeadSnoc(writes: seq<Write>, w: Write)
    requires w.result.None?
    ensures Head(writes + [w]) == Head(writes)
  {
    if writes != [] && writes[0].result.Some? {
      assert (writes + [w])[1..] == writes[1..] + [w];
      HeadSnoc(writes[1..], w);
    }
  }

  lemma FramesSnoc(writes: seq<Write>, w: Write)
    requires AllPrefixed(writes) && w.requests == []
    ensures AllPrefixed(writes + [w]) && Frames(writes + [w]) == Frames(writes)
  {
    assert (writes + [w])[..|writes|] == writes;
    assert FramesOf(|writes|, w) == [];
  }

  lemma QueuedSnoc(writes: seq<Write>, w: Write)
    requires Queued(writes) && Untouched(w)
    ensures Queued(writes + [w])
  {
    HeadSnoc(writes, w);
    hide Head, Untouched;
  }

  lemma OkSnoc(writes: seq<Write>, w: Write, settled: map<Request, bool>, nextRequest: Request)
    requires AllOk(writes, settled, nextRequest) && Untouched(w)
    ensures AllOk(writes + [w], settled, nextRequest)
  {
    assert WriteOk(w, settled, nextRequest);
    hide WriteOk;
  }

  lemma CallKeeps(s: Socket, chunks: seq<Text>)
    requires InInv(s)
    ensures InInv(CallWrite(s, chunks))
  {
    hide AllOk, Queued, AllPrefixed, Frames;
    var w := Write(s.epoch, chunks, 0, None, [], None);
    OkSnoc(s.writes, w, s.settled, s.nextRequest);
    QueuedSnoc(s.writes, w);
    FramesSnoc(s.writes, w);
  }

  lemma InNext(s: Socket, log: nat -> WireEvent, a: Action)
    requires InInv(s)
    ensures InInv(Next(s, log, a))
  {
    if a.DoWrite? {
      hide InInv;
      CallKeeps(s, a.chunks);
    } else if a.DoAdvance? {
      hide InInv, AdvanceWrite;
      AdvanceKeeps(s, a.sendable);
    } else {
      hide Next, Growth;
      OtherGrows(s, log, a);
      hide InInv;
      GrowthKeeps(s, Next(s, log, a), Answered(s, a));
    }
  }

  lemma {:induction false} InRun(log: nat -> WireEvent, actions: seq<Action>)
    ensures InInv(Run(CREATED, log, actions))
  {
    if actions != [] {
      InRun(log, actions[..|actions| - 1]);
      hide InInv, Next;
      InNext(Run(CREATED, log, actions[..|actions| - 1]), log, actions[|actions| - 1]);
    }
  }

  // ---- What a run shows ----

  /** The chunk lists of the writes called, in call order. */
  function Calls(actions: seq<Action>): (c: seq<seq<Text>>)
  {
    if actions == [] then []
    else
      var last := actions[|actions| - 1];
      Calls(actions[..|actions| - 1]) + (if last.DoWrite? then [last.chunks] else [])
  }

  ghost predicate SameCalls(writes: seq<Write>, calls: seq<seq<Text>>) {
    |writes| == |calls| && forall i :: 0 <= i < |writes| ==> writes[i].chunks == calls[i]
  }

  /** What one continuation of the running write can change. */
  ghost predicate Advances(s: Socket, t: Socket) {
    && (t.sent != s.sent ==>
      (&& s.connected && s.lease.Some? && Head(s.writes) < |s.writes|
       && var w := s.writes[Head(s.writes)];
       && w.epoch == s.epoch && w.confirmed < |w.chunks|
       && t.sent == s.sent + [Sent(Head(s.writes), w.confirmed, s.epoch, s.nextRequest, w.chunks[w.confirmed])]))
    && |t.writes| == |s.writes|
    && (forall i :: 0 <= i < |s.writes| ==> t.writes[i].chunks == s.writes[i].chunks)
    && (forall r <- t.settled :: t.settled[r] ==> r in s.settled && s.settled[r])
  }

  lemma SendAdvances(s: Socket, sendable: bool)
    requires Head(s.writes) < |s.writes| && s.writes[Head(s.writes)].confirmed < |s.writes[Head(s.writes)].chunks|
    ensures Advances(s, SendChunk(s, Head(s.writes), sendable))
  {
    hide Head;
    var h := Head(s.writes);
    var w := s.writes[h];
    var r := s.nextRequest;
    if s.epoch != w.epoch || s.lease.None? || |s.pending| >= 128 {
      assert SendChunk(s, h, sendable) == SetWrite(s, h, w.(result := Some(false)));
    } else if !s.connected || !sendable {
      assert SendChunk(s, h, sendable)
        == SetWrite(s, h, w.(result := Some(false))).(settled := s.settled[r := false], nextRequest := r + 1);
    } else {
      SendKeepsCalls(s, h, r, w.chunks[w.confirmed]);
    }
  }

  /** A chunk leaves: one more frame, under a new request. */
  lemma SendKeepsCalls(s: Socket, h: nat, r: Request, chunk: Text)
    requires h < |s.writes|
    ensures var t := SetWrite(s, h, s.writes[h].(waiting := Some(r), requests := s.writes[h].requests + [r]));
      && |t.writes| == |s.writes|
      && (forall i :: 0 <= i < |s.writes| ==> t.writes[i].chunks == s.writes[i].chunks)
  {
  }

  lemma AdvanceAdvances(s: Socket, sendable: bool)
    ensures Advances(s, AdvanceWrite(s, sendable))
  {
    hide SendChunk, Head;
    var h := Head(s.writes);
    if h < |s.writes| {
      var w := s.writes[h];
      if w.waiting.Some? {
        if w.waiting.value in s.settled {
          if s.settled[w.waiting.value] {
          } else {
          }
        }
      } else if w.confirmed >= |w.chunks| {
      } else {
        SendAdvances(s, sendable);
      }
    }
  }

  lemma {:induction false} WritesAreCalls(log: nat -> WireEvent, actions: seq<Action>)
    ensures SameCalls(Run(CREATED, log, actions).writes, Calls(actions))
  {
    if actions != [] {
      var before := actions[..|actions| - 1];
      var last := actions[|actions| - 1];
      WritesAreCalls(log, before);
      InRun(log, before);
      hide Run, AdvanceWrite;
      if last.DoAdvance? {
        AdvanceAdvances(Run(CREATED, log, before), last.sendable);
      } else if !last.DoWrite? {
        hide Next;
        OtherGrows(Run(CREATED, log, before), log, last);
      }
      assert Run(CREATED, log, actions) == Next(Run(CREATED, log, before), log, last) by { RunLast(log, actions); }
    }
  }

  lemma RunLast(log: nat -> WireEvent, actions: seq<Action>)
    requires actions != []
    ensures Run(CREATED, log, actions)
      == Next(Run(CREATED, log, actions[..|actions| - 1]), log, actions[|actions| - 1])
  {
  }

  /** The input on the wire, over any run: the frames appear in the order of the
      calls and, within a call, of its chunks, none twice and none interleaved;
      every write contributed a prefix of its chunks, all in the connection
      epoch it was called in. */
  lemma InputInCallOrder(log: nat -> WireEvent, actions: seq<Action>)
    ensures var s := Run(CREATED, log, actions);
      && SameCalls(s.writes, Calls(actions))
      && AllPrefixed(s.writes) && s.sent == Frames(s.writes)
      && Ordered(s.sent)
      && forall f <- s.sent :: f.write < |s.writes| && f.epoch == s.writes[f.write].epoch
           && f.chunk < |Calls(actions)[f.write]| && f.text == Calls(actions)[f.write][f.chunk]
  {
    InRun(log, actions);
    WritesAreCalls(log, actions);
    hide Run, Calls, Queued, AllOk, Books, Frames;
    var s := Run(CREATED, log, actions);
    FramesOrdered(s.writes);
    FramesFrom(s.writes);
  }

  /** A frame leaves only over a live connection that holds the lease, and its
      epoch is that connection's. */
  lemma SendsWhileConnected(s: Socket, log: nat -> WireEvent, a: Action)
    requires Books(s) && Next(s, log, a).sent != s.sent
    ensures a.DoAdvance? && s.connected && s.lease.Some?
    ensures var h := Head(s.writes);
      && h < |s.writes|
      && s.writes[h].epoch == s.epoch && s.writes[h].confirmed < |s.writes[h].chunks|
      && Next(s, log, a).sent
        == s.sent + [Sent(h, s.writes[h].confirmed, s.epoch, s.nextRequest, s.writes[h].chunks[s.writes[h].confirmed])]
  {
    hide AdvanceWrite;
    if a.DoAdvance? {
      AdvanceAdvances(s, a.sendable);
    } else if !a.DoWrite? {
      hide Next;
      OtherGrows(s, log, a);
    }
    hide Head;
  }

  /** The server's acknowledgement of request `r`. */
  predicate Acknowledges(a: Action, r: Request) {
    a.DoMessage? && (a.frame == Ack(Some(r)) || (a.frame.Lease? && a.frame.request == Some(r)))
  }

  /** The acknowledgement arrived over the connection that was live at that moment,
      while the request was waiting for it. */
  predicate AcknowledgedAt(log: nat -> WireEvent, actions: seq<Action>, j: nat, r: Request)
    requires j < |actions|
  {
    Acknowledges(actions[j], r)
      && var s := Run(CREATED, log, actions[..j]); r in s.pending && actions[j].epoch == s.epoch
  }

  ghost predicate WasAcknowledged(log: nat -> WireEvent, actions: seq<Action>, r: Request) {
    exists j: nat :: j < |actions| && AcknowledgedAt(log, actions, j, r)
  }

  lemma {:induction false} SuccessWasAcknowledged(log: nat -> WireEvent, actions: seq<Action>, r: Request)
    requires var s := Run(CREATED, log, actions); r in s.settled && s.settled[r]
    ensures WasAcknowledged(log, actions, r)
  {
    if actions != [] {
      var n := |actions| - 1;
      var before := actions[..n];
      var last := actions[n];
      var s := Run(CREATED, log, before);
      RunLast(log, actions);
      if r in s.settled && s.settled[r] {
        SuccessWasAcknowledged(log, before, r);
        var j: nat :| j < |before| && AcknowledgedAt(log, before, j, r);
        assert before[..j] == actions[..j];
        assert AcknowledgedAt(log, actions, j, r);
      } else {
        InRun(log, before);
        hide AdvanceWrite;
        if last.DoAdvance? {
          AdvanceAdvances(s, last.sendable);
        } else if !last.DoWrite? {
          OtherGrows(s, log, last);
          hide Next, Run;
          assert r in Answered(s, last);
          assert AcknowledgedAt(log, actions, n, r);
        }
      }
    }
  }

  lemma ResolvedOk(s: Socket, i: nat)
    requires InInv(s) && i < |s.writes| && s.writes[i].result == Some(true)
    ensures var w := s.writes[i];
      && |w.requests| == |w.chunks|
      && forall r <- w.requests :: r in s.settled && s.settled[r]
  {
    hide Frames, Queued, Books, Head;
    assert WriteOk(s.writes[i], s.settled, s.nextRequest);
  }

  /** A write that resolved had every chunk sent, each under its own request, and
      every one of those requests acknowledged by the server. */
  lemma ResolvedWasAcknowledged(log: nat -> WireEvent, actions: seq<Action>, i: nat)
    requires var s := Run(CREATED, log, actions); i < |s.writes| && s.writes[i].result == Some(true)
    ensures var w := Run(CREATED, log, actions).writes[i];
      && |w.requests| == |w.chunks|
      && forall r <- w.requests :: WasAcknowledged(log, actions, r)
  {
    InRun(log, actions);
    hide Run, InInv, WasAcknowledged;
    ResolvedOk(Run(CREATED, log, actions), i);
    forall r <- Run(CREATED, log, actions).writes[i].requests
      ensures WasAcknowledged(log, actions, r)
    {
      SuccessWasAcknowledged(log, actions, r);
    }
  }
}
