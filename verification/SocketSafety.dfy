/** What every run of a terminal socket keeps. */
module SocketSafety {
  import opened Prelude
  import opened SocketState

  // ---- Output: each logged event at most once, in order ----

  function Range(lo: nat, hi: nat): (r: seq<nat>)
  {
    if lo >= hi then [] else seq(hi - lo, i requires 0 <= i => lo + i)
  }

  /** The log positions among the deliveries. */
  function Positions(d: seq<Delivery>): (r: seq<nat>)
  {
    if d == [] then []
    else
      var rest := Positions(d[..|d| - 1]);
      var last := d[|d| - 1];
      if last.Wire? then rest + [last.position] else rest
  }

  /** The deliveries of consecutive log events. */
  function Wires(lo: nat, hi: nat): (r: seq<Delivery>)
  {
    if lo >= hi then [] else Wires(lo, hi - 1) + [Wire(hi - 1)]
  }

  lemma PositionsSnoc(d: seq<Delivery>, last: Delivery)
    ensures Positions(d + [last]) == if last.Wire? then Positions(d) + [last.position] else Positions(d)
  {
    assert (d + [last])[..|d|] == d;
  }

  ghost predicate OutInv(s: Socket) {
    && Positions(s.delivered) == Range(0, s.early) + Range(s.start, s.cursor)
    && s.start <= s.cursor
    && (!s.hasConnected ==> s.early == s.start == s.cursor)
  }

  ghost predicate StopInv(s: Socket) {
    s.stopped ==> !s.timer && !s.connected && s.lease.None?
  }

  /** Nothing the output side keeps differs. */
  ghost predicate Quiet(s: Socket, t: Socket) {
    && t.delivered == s.delivered && t.cursor == s.cursor && t.start == s.start
    && t.early == s.early && t.hasConnected == s.hasConnected
  }

  lemma SameOutput(s: Socket, t: Socket)
    requires OutInv(s) && Quiet(s, t)
    ensures OutInv(t)
  {
  }

  /** Only the writes, the requests and the wire differ; the wire only under a lease. */
  ghost predicate WritesOnly(s: Socket, t: Socket) {
    && Quiet(s, t)
    && t.epoch == s.epoch && t.connected == s.connected && t.timer == s.timer
    && t.stopped == s.stopped && t.lease == s.lease
    && (s.lease.None? ==> t.sent == s.sent)
  }

  lemma StopIsQuiet(s: Socket)
    ensures Quiet(s, Stop(s)) && Quiet(s, StopOnce(s))
    ensures Stop(s).stopped && Stop(s).epoch > s.epoch && StopInv(Stop(s)) && StopInv(StopOnce(s))
    ensures Stop(s).sent == s.sent == StopOnce(s).sent
  {
  }

  lemma SendWritesOnly(s: Socket, h: nat, sendable: bool)
    requires h < |s.writes| && s.writes[h].confirmed < |s.writes[h].chunks|
    ensures WritesOnly(s, SendChunk(s, h, sendable))
  {
    var w := s.writes[h];
    if s.epoch != w.epoch || s.lease.None? || |s.pending| >= 128 {
    } else if !s.connected || !sendable {
    } else {
    }
  }

  lemma AdvanceWritesOnly(s: Socket, sendable: bool)
    ensures WritesOnly(s, AdvanceWrite(s, sendable))
  {
    hide SendChunk, Head;
    var h := Head(s.writes);
    if h < |s.writes| {
      var w := s.writes[h];
      if w.waiting.Some? {
        var r := w.waiting.value;
        if r in s.settled {
          if s.settled[r] {
          } else {
          }
        }
      } else if w.confirmed >= |w.chunks| {
      } else {
        SendWritesOnly(s, h, sendable);
      }
    }
  }

  lemma CommandIsQuiet(s: Socket, needsLease: bool, sendable: bool)
    ensures Quiet(s, OtherCommand(s, needsLease, sendable))
  {
  }

  lemma SideEvent(s: Socket, d: Delivery)
    requires OutInv(s) && !d.Wire?
    ensures OutInv(Deliver(s, d))
  {
    PositionsSnoc(s.delivered, d);
  }

  lemma FailKeeps(s: Socket)
    requires OutInv(s)
    ensures OutInv(Fail(s))
  {
    hide Positions, Range;
    SideEvent(s, Failure);
    hide OutInv;
    SameOutput(Deliver(s, Failure), Fail(s));
  }

  lemma DisconnectedKeeps(s: Socket)
    requires OutInv(s)
    ensures OutInv(Disconnected(s))
  {
    hide Positions, Range;
    var s1 := RejectAll(s.(epoch := s.epoch + 1, connected := false)).(lease := None);
    SameOutput(s, s1);
    SideEvent(s1, Control(false));
  }

  lemma RangeSnoc(lo: nat, hi: nat)
    requires lo <= hi
    ensures Range(lo, hi) + [hi] == Range(lo, hi + 1)
  {
  }

  lemma OutputKeeps(s: Socket, log: nat -> WireEvent, number: int)
    requires OutInv(s)
    ensures OutInv(OnOutput(s, log, number))
  {
    hide Fail, Stop, Positions, Range;
    if number > s.cursor {
      if number != s.cursor + 1 || log(s.cursor).Unreadable? {
        FailKeeps(s);
      } else {
        OutputAccepted(s);
        hide OutInv, Accept;
        StopIsQuiet(Accept(s));
        SameOutput(Accept(s), Stop(Accept(s)));
      }
    }
  }

  lemma OutputAccepted(s: Socket)
    requires OutInv(s)
    ensures OutInv(Accept(s))
  {
    var t := Accept(s);
    PositionsSnoc(s.delivered, Wire(s.cursor));
    hide Positions;
    RangeSnoc(s.start, s.cursor);
    RangeSnoc(0, s.cursor);
    var (e, r) := (Range(0, s.early), Range(s.start, s.cursor));
    assert (e + r) + [s.cursor] == e + (r + [s.cursor]);
    assert !s.hasConnected ==> Range(s.start, s.cursor) == [] && Range(t.start, t.cursor) == [];
  }

  lemma AuthenticatedKeeps(s: Socket, from: Option<nat>, lease: Option<nat>)
    requires OutInv(s)
    ensures OutInv(SetControl(FirstAuthentication(s, from), lease))
  {
    var s1 := FirstAuthentication(s, from).(lease := lease);
    assert Range(s.start, s.start) == [] == Range(s1.start, s1.start);
    SideEvent(s1, Control(lease.Some?));
  }

  lemma MessageKeeps(s: Socket, log: nat -> WireEvent, epoch: nat, frame: Frame, sendable: bool)
    requires OutInv(s)
    ensures OutInv(OnMessage(s, log, epoch, frame, sendable))
  {
    hide Positions, Range, OutInv, Fail, OnOutput, FirstAuthentication;
    if !s.stopped && epoch == s.epoch {
      match frame
      case Hello(_) => FailKeeps(s);
      case Ping => FailKeeps(s);
      case Garbage => FailKeeps(s);
      case Authenticated(from, lease) => AuthenticatedKeeps(s, from, lease);
      case Lease(lease, request) =>
        SameOutput(s, s.(lease := lease));
        SideEvent(s.(lease := lease), Control(lease.Some?));
        SameOutput(SetControl(s, lease), SettleSome(SetControl(s, lease), request, true));
      case OutputFrame(number) => OutputKeeps(s, log, number);
      case Ack(request) => SameOutput(s, SettleSome(s, request, true));
      case ErrorFrame(request) =>
        FailKeeps(s);
        if request.Some? { SameOutput(s, Settle(s, request.value, false)); }
    }
  }

  lemma OutNext(s: Socket, log: nat -> WireEvent, a: Action)
    requires OutInv(s)
    ensures OutInv(Next(s, log, a))
  {
    hide Positions, Range, OutInv, Fail, OnMessage, Disconnected, AdvanceWrite, OtherCommand, StopOnce, Stop, RejectAll;
    match a
    case DoMessage(epoch, frame, sendable) => MessageKeeps(s, log, epoch, frame, sendable);
    case DoReconnect =>
      var s1 := s.(epoch := s.epoch + 1);
      SameOutput(s, s1);
      DisconnectedKeeps(s1);
      SameOutput(Disconnected(s1), Connect(Disconnected(s1).(timer := false)));
    case DoConnectFailed(_, _) => FailKeeps(s); DisconnectedKeeps(s);
    case DoSocketClosed(_) => DisconnectedKeeps(s);
    case DoStop => StopIsQuiet(s); SameOutput(s, Stop(s));
    case DoAbort => StopIsQuiet(s); SameOutput(s, Abort(s));
    case DoAdvance(sendable) => AdvanceWritesOnly(s, sendable); SameOutput(s, AdvanceWrite(s, sendable));
    case DoCommand(needsLease, sendable) => CommandIsQuiet(s, needsLease, sendable); SameOutput(s, Next(s, log, a));
    case _ => SameOutput(s, Next(s, log, a));
  }

  lemma {:induction false} OutRun(log: nat -> WireEvent, actions: seq<Action>)
    ensures OutInv(Run(CREATED, log, actions))
  {
    if actions != [] {
      OutRun(log, actions[..|actions| - 1]);
      hide OutInv;
      OutNext(Run(CREATED, log, actions[..|actions| - 1]), log, actions[|actions| - 1]);
    }
  }

  /** Whatever the server replays and however often the connection drops, the
      log events delivered are two runs of consecutive positions, each in order
      and each position once in its run: those accepted before the first
      authentication, and those from the cursor it fixed up to the current one. */
  lemma DeliveredIsLogSegments(log: nat -> WireEvent, actions: seq<Action>)
    ensures var s := Run(CREATED, log, actions);
      && Positions(s.delivered) == Range(0, s.early) + Range(s.start, s.cursor)
      && s.start <= s.cursor
  {
    OutRun(log, actions);
  }

  /** One contiguous segment up to the cursor, exactly when the first
      authentication did not move the cursor away from events already accepted. */
  lemma ContiguousIff(log: nat -> WireEvent, actions: seq<Action>)
    ensures var s := Run(CREATED, log, actions);
      (exists from: nat :: from <= s.cursor && Positions(s.delivered) == Range(from, s.cursor))
      <==> (s.early == 0 || s.early == s.start)
  {
    OutRun(log, actions);
    var s := Run(CREATED, log, actions);
    hide Run, Positions;
    var p := Positions(s.delivered);
    if s.early == 0 {
      assert p == Range(s.start, s.cursor);
    } else if s.early == s.start {
      assert p == Range(0, s.cursor);
    }
    if from: nat :| from <= s.cursor && p == Range(from, s.cursor) {
      if s.early > 0 {
        assert p[0] == 0;
        assert |p| == s.early + (s.cursor - s.start);
      }
    }
  }

  predicate OutputAfterAuthentication(log: nat -> WireEvent, actions: seq<Action>) {
    forall i :: 0 <= i < |actions| && IsOutput(actions[i]) ==> Run(CREATED, log, actions[..i]).hasConnected
  }

  predicate IsOutput(a: Action) {
    a.DoMessage? && a.frame.OutputFrame?
  }

  lemma EarlyStep(s: Socket, log: nat -> WireEvent, a: Action)
    requires IsOutput(a) ==> s.hasConnected
    ensures Next(s, log, a).early == s.early
  {
    hide Stop, StopOnce, AdvanceWrite, OtherCommand, RejectAll;
    RejectIsQuiet(s.(epoch := s.epoch + 1, connected := false));
    match a
    case DoMessage(epoch, frame, sendable) => EarlyMessage(s, log, epoch, frame, sendable);
    case DoReconnect => RejectIsQuiet(s.(epoch := s.epoch + 2, connected := false));
    case DoConnectFailed(_, _) => StopIsQuiet(Deliver(s, Failure));
    case DoStop => StopIsQuiet(s);
    case DoAbort => StopIsQuiet(s);
    case DoAdvance(sendable) => AdvanceWritesOnly(s, sendable);
    case DoCommand(needsLease, sendable) => CommandIsQuiet(s, needsLease, sendable);
    case _ =>
  }

  lemma RejectIsQuiet(s: Socket)
    ensures Quiet(s, RejectAll(s))
  {
  }

  lemma EarlyOutput(s: Socket, log: nat -> WireEvent, number: int)
    requires s.hasConnected
    ensures OnOutput(s, log, number).early == s.early
  {
    hide Stop;
    StopIsQuiet(Deliver(s, Failure));
    StopIsQuiet(Accept(s));
  }

  lemma EarlyMessage(s: Socket, log: nat -> WireEvent, epoch: nat, frame: Frame, sendable: bool)
    requires frame.OutputFrame? ==> s.hasConnected
    ensures OnMessage(s, log, epoch, frame, sendable).early == s.early
  {
    hide Stop, OnOutput;
    StopIsQuiet(Deliver(s, Failure));
    if !s.stopped && epoch == s.epoch {
      match frame
      case OutputFrame(number) => EarlyOutput(s, log, number);
      case Authenticated(from, lease) => assert FirstAuthentication(s, from).early == s.early;
      case Lease(lease, request) => assert SetControl(s, lease).early == s.early;
      case Hello(_) =>
      case Ping =>
      case Ack(_) =>
      case ErrorFrame(_) =>
      case Garbage =>
    }
  }

  lemma {:induction false} NothingEarly(log: nat -> WireEvent, actions: seq<Action>)
    requires OutputAfterAuthentication(log, actions)
    ensures Run(CREATED, log, actions).early == 0
  {
    if actions != [] {
      var before := actions[..|actions| - 1];
      assert forall i :: 0 <= i < |before| ==> before[..i] == actions[..i];
      assert OutputAfterAuthentication(log, before);
      NothingEarly(log, before);
      assert IsOutput(actions[|actions| - 1]) ==> Run(CREATED, log, before).hasConnected;
      hide OutputAfterAuthentication;
      EarlyStep(Run(CREATED, log, before), log, actions[|actions| - 1]);
    }
  }

  /** A server that sends no output before its first `authenticated` gets
      exactly-once delivery: one contiguous segment up to the cursor. */
  lemma AuthenticatedFirst(log: nat -> WireEvent, actions: seq<Action>)
    requires OutputAfterAuthentication(log, actions)
    ensures var s := Run(CREATED, log, actions);
      s.start <= s.cursor && Positions(s.delivered) == Range(s.start, s.cursor)
  {
    NothingEarly(log, actions);
    DeliveredIsLogSegments(log, actions);
    hide Run, Positions, OutputAfterAuthentication;
    var s := Run(CREATED, log, actions);
    assert Range(0, 0) + Range(s.start, s.cursor) == Range(s.start, s.cursor);
  }

  /** Otherwise an event can be delivered twice: the first frame is accepted
      before authentication, which then moves the cursor back. */
  lemma AcceptedEarlyTwice(log: nat -> WireEvent)
    requires log(0).Output?
    ensures var out := DoMessage(1, OutputFrame(1), true);
      Positions(Run(CREATED, log, [out, DoMessage(1, Authenticated(Some(0), None), true), out]).delivered) == [0, 0]
  {
    var out := DoMessage(1, OutputFrame(1), true);
    var auth := DoMessage(1, Authenticated(Some(0), None), true);
    RunThree(log, out, auth, out);
    EarlyThenMoved(log);
    hide Next;
    PositionsSnoc([], Wire(0));
    PositionsSnoc([Wire(0)], Control(false));
    PositionsSnoc([Wire(0), Control(false)], Wire(0));
  }

  lemma EarlyThenMoved(log: nat -> WireEvent)
    requires log(0).Output?
    ensures var out := DoMessage(1, OutputFrame(1), true);
      var auth := DoMessage(1, Authenticated(Some(0), None), true);
      Next(Next(Next(CREATED, log, out), log, auth), log, out).delivered
      == [] + [Wire(0)] + [Control(false)] + [Wire(0)]
  {
    hide Fail, Stop, RejectAll, AdvanceWrite, OtherCommand, Settle;
    var out := DoMessage(1, OutputFrame(1), true);
    var s1 := Next(CREATED, log, out);
    assert s1 == CREATED.(delivered := [Wire(0)], cursor := 1, start := 1, early := 1);
    var s2 := Next(s1, log, DoMessage(1, Authenticated(Some(0), None), true));
    assert s2 == s1.(delivered := [Wire(0), Control(false)], cursor := 0, start := 0, hasConnected := true);
  }

  lemma RunThree(log: nat -> WireEvent, a: Action, b: Action, c: Action)
    ensures Run(CREATED, log, [a, b, c]) == Next(Next(Next(CREATED, log, a), log, b), log, c)
  {
    hide Next;
    assert [a][..0] == [];
    assert Run(CREATED, log, [a]) == Next(CREATED, log, a);
    assert [a, b][..1] == [a];
    assert Run(CREATED, log, [a, b]) == Next(Next(CREATED, log, a), log, b);
    assert [a, b, c][..2] == [a, b];
  }

  // ---- Nothing after the end, nothing from a stale connection ----

  lemma {:induction false} RunAppend(s: Socket, log: nat -> WireEvent, before: seq<Action>, after: seq<Action>)
    ensures Run(s, log, before + after) == Run(Run(s, log, before), log, after)
  {
    if after == [] {
      assert before + after == before;
    } else {
      var n := |after| - 1;
      assert (before + after)[..|before| + n] == before + after[..n];
      hide Next;
      RunAppend(s, log, before, after[..n]);
    }
  }

  /** What a stopped socket can still do: answer and forget. */
  ghost predicate Silent(s: Socket, t: Socket) {
    t.stopped && StopInv(t) && t.delivered == s.delivered && t.sent == s.sent
  }

  lemma StoppedStep(s: Socket, log: nat -> WireEvent, a: Action)
    requires s.stopped && StopInv(s)
    ensures Silent(s, Next(s, log, a))
  {
    hide AdvanceWrite, RejectAll;
    RejectFields(s.(epoch := s.epoch + 1, connected := false));
    RejectFields(s.(epoch := s.epoch + 1, connected := false, timer := false, lease := None));
    if a.DoAdvance? {
      AdvanceWritesOnly(s, a.sendable);
    }
  }

  lemma RejectFields(s: Socket)
    ensures var t := RejectAll(s);
      t == s.(pending := {}, settled := t.settled)
  {
  }

  lemma LiveMessage(s: Socket, log: nat -> WireEvent, epoch: nat, frame: Frame, sendable: bool)
    requires !s.stopped
    ensures StopInv(OnMessage(s, log, epoch, frame, sendable))
  {
    hide Stop;
    StopIsQuiet(Deliver(s, Failure));
    StopIsQuiet(Accept(s));
  }

  lemma LiveStep(s: Socket, log: nat -> WireEvent, a: Action)
    requires !s.stopped
    ensures StopInv(Next(s, log, a))
  {
    hide AdvanceWrite, RejectAll, Stop, StopOnce;
    RejectFields(s.(epoch := s.epoch + 1, connected := false));
    RejectFields(s.(epoch := s.epoch + 2, connected := false));
    StopIsQuiet(s);
    StopIsQuiet(Deliver(s, Failure));
    match a
    case DoMessage(epoch, frame, sendable) => LiveMessage(s, log, epoch, frame, sendable);
    case DoAdvance(sendable) => AdvanceWritesOnly(s, sendable);
    case _ =>
  }

  lemma {:induction false} StopInvRun(log: nat -> WireEvent, actions: seq<Action>)
    ensures StopInv(Run(CREATED, log, actions))
  {
    if actions != [] {
      var before := actions[..|actions| - 1];
      var s := Run(CREATED, log, before);
      StopInvRun(log, before);
      hide Next;
      if s.stopped {
        StoppedStep(s, log, actions[|actions| - 1]);
      } else {
        LiveStep(s, log, actions[|actions| - 1]);
      }
    }
  }

  lemma {:induction false} SilentRun(s: Socket, log: nat -> WireEvent, actions: seq<Action>)
    requires s.stopped && StopInv(s)
    ensures Silent(s, Run(s, log, actions))
  {
    if actions != [] {
      SilentRun(s, log, actions[..|actions| - 1]);
      hide Next;
      StoppedStep(Run(s, log, actions[..|actions| - 1]), log, actions[|actions| - 1]);
    }
  }

  /** Frames after which a live socket is finished: the shell's exit, a server
      error, an event that does not decode, a gap in the numbering, or garbage. */
  predicate EndsSession(s: Socket, log: nat -> WireEvent, frame: Frame) {
    match frame
    case OutputFrame(number) => number > s.cursor && (number != s.cursor + 1 || !log(s.cursor).Output?)
    case ErrorFrame(request) => request.None? || request.value !in s.pending
    case Hello(supported) => !supported
    case Garbage => true
    case _ => false
  }

  lemma EndStops(s: Socket, log: nat -> WireEvent, frame: Frame, sendable: bool)
    requires EndsSession(s, log, frame)
    ensures OnMessage(s, log, s.epoch, frame, sendable).stopped
  {
    hide Stop;
    StopIsQuiet(Deliver(s, Failure));
    StopIsQuiet(Accept(s));
  }

  /** Once the session ended, or was stopped by the client, nothing is delivered
      and nothing is sent any more, whatever happens afterwards. */
  lemma NothingAfterTheEnd(log: nat -> WireEvent, before: seq<Action>, last: Action, after: seq<Action>)
    requires var s := Run(CREATED, log, before);
      last.DoStop? || last.DoAbort? || s.stopped
      || (last.DoMessage? && last.epoch == s.epoch && EndsSession(s, log, last.frame))
    ensures var ended := Run(CREATED, log, before + [last]);
      && Run(CREATED, log, before + [last] + after).delivered == ended.delivered
      && Run(CREATED, log, before + [last] + after).sent == ended.sent
  {
    var s := Run(CREATED, log, before);
    assert (before + [last])[..|before|] == before;
    var ended := Run(CREATED, log, before + [last]);
    assert ended == Next(s, log, last);
    StopInvRun(log, before + [last]);
    RunAppend(CREATED, log, before + [last], after);
    hide Run, OnMessage, EndsSession;
    if last.DoMessage? && !s.stopped {
      EndStops(s, log, last.frame, last.sendable);
    } else if s.stopped {
      StopInvRun(log, before);
      hide Next;
      StoppedStep(s, log, last);
    }
    hide Next;
    SilentRun(ended, log, after);
  }

  /** The connection attempt whose handler this is. */
  function HandlerOf(a: Action): (epoch: Option<nat>)
  {
    match a
    case DoOpened(epoch) => Some(epoch)
    case DoConnectFailed(epoch, _) => Some(epoch)
    case DoSocketClosed(epoch) => Some(epoch)
    case DoMessage(epoch, _, _) => Some(epoch)
    case _ => None
  }

  lemma EpochMessage(s: Socket, log: nat -> WireEvent, epoch: nat, frame: Frame, sendable: bool)
    ensures OnMessage(s, log, epoch, frame, sendable).epoch >= s.epoch
  {
    hide Stop;
    StopIsQuiet(Deliver(s, Failure));
    StopIsQuiet(Accept(s));
  }

  lemma EpochStep(s: Socket, log: nat -> WireEvent, a: Action)
    ensures Next(s, log, a).epoch >= s.epoch
  {
    hide AdvanceWrite, OnMessage, Stop, Accept;
    StopIsQuiet(s);
    StopIsQuiet(Deliver(s, Failure));
    match a
    case DoMessage(epoch, frame, sendable) => EpochMessage(s, log, epoch, frame, sendable);
    case DoAdvance(sendable) => AdvanceWritesOnly(s, sendable);
    case _ =>
  }

  lemma {:induction false} EpochRun(s: Socket, log: nat -> WireEvent, actions: seq<Action>)
    ensures Run(s, log, actions).epoch >= s.epoch
  {
    if actions != [] {
      EpochRun(s, log, actions[..|actions| - 1]);
      hide Next;
      EpochStep(Run(s, log, actions[..|actions| - 1]), log, actions[|actions| - 1]);
    }
  }

  /** A connection that was superseded once is stale for good: its late ticket,
      frames, failures and close change nothing. */
  lemma StaleForever(log: nat -> WireEvent, before: seq<Action>, after: seq<Action>, late: Action)
    requires HandlerOf(late).Some? && HandlerOf(late).value < Run(CREATED, log, before).epoch
    ensures var s := Run(CREATED, log, before + after);
      Next(s, log, late) == s
  {
    RunAppend(CREATED, log, before, after);
    EpochRun(Run(CREATED, log, before), log, after);
    hide Run, AdvanceWrite, OtherCommand;
  }

  /** What supersedes a connection: its loss, a stop, a reconnect, and the retry timer. */
  predicate Supersedes(s: Socket, a: Action) {
    match a
    case DoTimer => s.timer
    case DoReconnect => !s.stopped
    case DoSocketClosed(epoch) => epoch == s.epoch
    case DoStop => true
    case _ => false
  }

  lemma SupersedingRaisesEpoch(s: Socket, log: nat -> WireEvent, a: Action)
    requires Supersedes(s, a)
    ensures Next(s, log, a).epoch > s.epoch
  {
  }

  /** Once a connection is lost, stopped or replaced, none of its handlers changes
      anything any more, whatever happens in between. */
  lemma SupersededForever(log: nat -> WireEvent, before: seq<Action>, drop: Action, after: seq<Action>, late: Action)
    requires Supersedes(Run(CREATED, log, before), drop)
    requires HandlerOf(late).Some? && HandlerOf(late).value <= Run(CREATED, log, before).epoch
    ensures var s := Run(CREATED, log, before + [drop] + after);
      Next(s, log, late) == s
  {
    RunAppend(CREATED, log, before, [drop]);
    var s := Run(CREATED, log, before);
    assert Run(s, log, [drop]) == Next(s, log, drop) by {
      assert [drop][..0] == [];
    }
    hide Run, Next, Supersedes;
    SupersedingRaisesEpoch(s, log, drop);
    StaleForever(log, before + [drop], after, late);
  }
}
