/**
 What a terminal socket tells its caller, followed over whole runs: what every
 action adds, how far the cursor comes, where it starts, and that a lost connection
 loses no event.
 */
module SocketTrace {
  import opened Prelude
  import opened SocketState
  import S = SocketSafety

  // ---- What the caller is told ----

  /** A handler of the connection attempt that is still the current one. */
  predicate Current(s: Socket, epoch: nat) {
    !s.stopped && epoch == s.epoch
  }

  /** What an output frame tells when the last number was `cursor`. */
  function Reads(cursor: nat, log: nat -> WireEvent, number: int): seq<Delivery> {
    if number <= cursor then []
    else if number == cursor + 1 && !log(cursor).Unreadable? then [Wire(cursor)]
    else [Failure]
  }

  function FrameTells(s: Socket, log: nat -> WireEvent, frame: Frame, sendable: bool): seq<Delivery> {
    match frame
    case Authenticated(_, lease) => [Control(lease.Some?)]
    case Lease(lease, _) => [Control(lease.Some?)]
    case OutputFrame(number) => Reads(s.cursor, log, number)
    case Ack(_) => []
    case ErrorFrame(request) => if request.Some? && request.value in s.pending then [] else [Failure]
    case Hello(supported) => if supported && s.connected && sendable then [] else [Failure]
    case Ping => if s.connected && sendable then [] else [Failure]
    case Garbage => [Failure]
  }

  /** What an action tells: only handlers of the current connection speak, a lost
      connection tells that nothing can be written. */
  function Tells(s: Socket, log: nat -> WireEvent, a: Action): seq<Delivery> {
    match a
    case DoMessage(epoch, frame, sendable) => if Current(s, epoch) then FrameTells(s, log, frame, sendable) else []
    case DoConnectFailed(epoch, fatal) =>
      if !Current(s, epoch) then [] else if fatal then [Failure] else [Control(false)]
    case DoSocketClosed(epoch) => if Current(s, epoch) then [Control(false)] else []
    case DoReconnect => if s.stopped then [] else [Control(false)]
    case _ => []
  }

  function Ledger(log: nat -> WireEvent, actions: seq<Action>): seq<Delivery> {
    if actions == [] then []
    else
      var front := actions[..|actions| - 1];
      Ledger(log, front) + Tells(Run(CREATED, log, front), log, actions[|actions| - 1])
  }

  lemma StopTellsNothing(s: Socket)
    ensures Stop(s).delivered == s.delivered && StopOnce(s).delivered == s.delivered
  {
  }

  lemma OutputTells(s: Socket, log: nat -> WireEvent, number: int)
    ensures OnOutput(s, log, number).delivered == s.delivered + Reads(s.cursor, log, number)
  {
    hide Stop;
    StopTellsNothing(Deliver(s, Failure));
    StopTellsNothing(Accept(s));
    assert s.delivered + [] == s.delivered;
  }

  lemma MessageTells(s: Socket, log: nat -> WireEvent, frame: Frame, sendable: bool)
    requires !s.stopped
    ensures OnMessage(s, log, s.epoch, frame, sendable).delivered == s.delivered + FrameTells(s, log, frame, sendable)
  {
    hide Stop, OnOutput, Reads;
    StopTellsNothing(Deliver(s, Failure));
    assert s.delivered + [] == s.delivered;
    if frame.OutputFrame? {
      OutputTells(s, log, frame.number);
    }
  }

  lemma LossTells(s: Socket)
    ensures Disconnected(s).delivered == if s.stopped then s.delivered else s.delivered + [Control(false)]
  {
  }

  lemma ActionTells(s: Socket, log: nat -> WireEvent, a: Action)
    ensures Next(s, log, a).delivered == s.delivered + Tells(s, log, a)
  {
    hide AdvanceWrite, OnMessage, FrameTells, Stop, StopOnce, Disconnected, OtherCommand;
    assert s.delivered + [] == s.delivered;
    LossTells(s);
    LossTells(s.(epoch := s.epoch + 1));
    StopTellsNothing(s);
    StopTellsNothing(Deliver(s, Failure));
    match a
    case DoMessage(epoch, frame, sendable) =>
      if Current(s, epoch) {
        MessageTells(s, log, frame, sendable);
      } else {
        StaleTellsNothing(s, log, epoch, frame, sendable);
      }
    case DoAdvance(sendable) => S.AdvanceWritesOnly(s, sendable);
    case DoCommand(needsLease, sendable) => S.CommandIsQuiet(s, needsLease, sendable);
    case _ =>
  }

  lemma StaleTellsNothing(s: Socket, log: nat -> WireEvent, epoch: nat, frame: Frame, sendable: bool)
    requires !Current(s, epoch)
    ensures OnMessage(s, log, epoch, frame, sendable) == s
  {
  }

  /** Over every run, the caller was told exactly what the actions say, in their order. */
  lemma {:induction false} DeliveredIsLedger(log: nat -> WireEvent, actions: seq<Action>)
    ensures Run(CREATED, log, actions).delivered == Ledger(log, actions)
  {
    if actions != [] {
      DeliveredIsLedger(log, actions[..|actions| - 1]);
      hide Next, Tells;
      ActionTells(Run(CREATED, log, actions[..|actions| - 1]), log, actions[|actions| - 1]);
    }
  }

  // ---- The connection the ledger speaks of ----

  /** Frames of the current connection that end the session. */
  predicate FrameEnds(s: Socket, log: nat -> WireEvent, frame: Frame, sendable: bool) {
    || S.EndsSession(s, log, frame)
    || ((frame.Hello? || frame.Ping?) && !(s.connected && sendable))
  }

  /** What loses a connection without ending the session. */
  predicate Loses(s: Socket, a: Action) {
    match a
    case DoSocketClosed(epoch) => Current(s, epoch)
    case DoConnectFailed(epoch, fatal) => Current(s, epoch) && !fatal
    case DoReconnect => !s.stopped
    case _ => false
  }

  predicate Ends(s: Socket, log: nat -> WireEvent, a: Action) {
    match a
    case DoStop => true
    case DoAbort => true
    case DoConnectFailed(epoch, fatal) => Current(s, epoch) && fatal
    case DoMessage(epoch, frame, sendable) => Current(s, epoch) && FrameEnds(s, log, frame, sendable)
    case _ => false
  }

  lemma StopStops(s: Socket)
    ensures Stop(s).stopped && StopOnce(s).stopped
  {
  }

  lemma MessageEndsIff(s: Socket, log: nat -> WireEvent, frame: Frame, sendable: bool)
    requires !s.stopped
    ensures OnMessage(s, log, s.epoch, frame, sendable).stopped <==> FrameEnds(s, log, frame, sendable)
  {
    hide Stop;
    StopStops(Deliver(s, Failure));
    StopStops(Accept(s));
  }

  /** The session ends exactly with a stop, a changed account, a refused connection, or a
      frame that ends it; what has ended stays so. */
  lemma EndsIff(s: Socket, log: nat -> WireEvent, a: Action)
    ensures Next(s, log, a).stopped <==> s.stopped || Ends(s, log, a)
  {
    hide AdvanceWrite, OnMessage, FrameEnds, Stop, StopOnce, OtherCommand;
    StopStops(s);
    StopStops(Deliver(s, Failure));
    match a
    case DoMessage(epoch, frame, sendable) =>
      if Current(s, epoch) {
        MessageEndsIff(s, log, frame, sendable);
      } else {
        StaleTellsNothing(s, log, epoch, frame, sendable);
      }
    case DoAdvance(sendable) => S.AdvanceWritesOnly(s, sendable);
    case DoCommand(needsLease, sendable) =>
      CommandKeepsConnection(s, needsLease, sendable);
    case _ =>
  }

  /** Nothing about the connection differs. */
  predicate SameConnection(s: Socket, t: Socket) {
    && t.epoch == s.epoch && t.connected == s.connected && t.timer == s.timer
    && t.stopped == s.stopped && t.lease == s.lease
  }

  lemma CommandKeepsConnection(s: Socket, needsLease: bool, sendable: bool)
    ensures SameConnection(s, OtherCommand(s, needsLease, sendable))
  {
  }

  /** The connection of a session that goes on: a ticket opens it, a loss closes it and
      takes the lease, and the lease is what the server said last. */
  ghost predicate Follows(s: Socket, t: Socket, a: Action) {
    && (t.connected <==> !Loses(s, a) && (s.connected || (a.DoOpened? && a.epoch == s.epoch)))
    && t.lease == (
      if Loses(s, a) then None
      else if a.DoMessage? && a.epoch == s.epoch && (a.frame.Authenticated? || a.frame.Lease?) then a.frame.lease
      else s.lease)
    && (t.timer <==>
      if Loses(s, a) then !a.DoReconnect? else s.timer && !a.DoTimer?)
    && (if Loses(s, a) || (a.DoTimer? && s.timer) then t.epoch > s.epoch else t.epoch == s.epoch)
  }

  lemma MessageFollows(s: Socket, log: nat -> WireEvent, frame: Frame, sendable: bool)
    requires !s.stopped && !FrameEnds(s, log, frame, sendable)
    ensures Follows(s, OnMessage(s, log, s.epoch, frame, sendable), DoMessage(s.epoch, frame, sendable))
  {
    hide Stop;
  }

  lemma LossFollows(s: Socket)
    requires !s.stopped
    ensures var t := Disconnected(s);
      t.epoch > s.epoch && !t.connected && t.lease.None? && t.timer && !t.stopped
  {
  }

  lemma ConnectionFollows(s: Socket, log: nat -> WireEvent, a: Action)
    requires !s.stopped && !Ends(s, log, a)
    ensures Follows(s, Next(s, log, a), a)
  {
    hide AdvanceWrite, OnMessage, FrameEnds, Stop, StopOnce, Disconnected, OtherCommand;
    LossFollows(s);
    LossFollows(s.(epoch := s.epoch + 1));
    match a
    case DoMessage(epoch, frame, sendable) =>
      if epoch == s.epoch {
        MessageFollows(s, log, frame, sendable);
      } else {
        StaleTellsNothing(s, log, epoch, frame, sendable);
      }
    case DoAdvance(sendable) => S.AdvanceWritesOnly(s, sendable);
    case DoCommand(needsLease, sendable) => CommandKeepsConnection(s, needsLease, sendable);
    case _ =>
  }

  // ---- How far the cursor comes ----

  /** A readable event reaches a socket that was authenticated before, over its current
      connection. */
  predicate Hears(s: Socket, log: nat -> WireEvent, a: Action, number: int) {
    && a.DoMessage? && Current(s, a.epoch) && s.hasConnected && a.frame == OutputFrame(number)
    && number >= 1 && !log(number - 1).Unreadable?
  }

  ghost predicate HeardBy(log: nat -> WireEvent, actions: seq<Action>, number: int) {
    exists j: nat :: j < |actions| && Hears(Run(CREATED, log, actions[..j]), log, actions[j], number)
  }

  /** One step of the cursor, from the first authentication on. */
  ghost predicate Moves(s: Socket, t: Socket, log: nat -> WireEvent, a: Action) {
    && s.delivered <= t.delivered
    && (s.hasConnected ==> t.hasConnected && t.start == s.start && s.cursor <= t.cursor)
    && (forall number :: t.start < number <= t.cursor ==>
         (s.start < number <= s.cursor) || Hears(s, log, a, number))
    && (forall number :: Hears(s, log, a, number) ==> number <= t.cursor || Failure in t.delivered)
  }

  lemma OutputMoves(s: Socket, log: nat -> WireEvent, number: int, sendable: bool)
    requires S.OutInv(s) && !s.stopped
    ensures Moves(s, OnOutput(s, log, number), log, DoMessage(s.epoch, OutputFrame(number), sendable))
  {
    hide Stop, S.Positions, S.Range;
    S.StopIsQuiet(Deliver(s, Failure));
    S.StopIsQuiet(Accept(s));
  }

  lemma MessageMoves(s: Socket, log: nat -> WireEvent, epoch: nat, frame: Frame, sendable: bool)
    requires S.OutInv(s)
    ensures Moves(s, OnMessage(s, log, epoch, frame, sendable), log, DoMessage(epoch, frame, sendable))
  {
    hide Stop, OnOutput, S.Positions, S.Range;
    S.StopIsQuiet(Deliver(s, Failure));
    if Current(s, epoch) && frame.OutputFrame? {
      OutputMoves(s, log, frame.number, sendable);
    }
  }

  lemma QuietMoves(s: Socket, t: Socket, log: nat -> WireEvent, a: Action)
    requires s.delivered <= t.delivered && t.hasConnected == s.hasConnected && !a.DoMessage?
    requires t.start == s.start && t.cursor == s.cursor
    ensures Moves(s, t, log, a)
  {
  }

  lemma CursorMoves(s: Socket, log: nat -> WireEvent, a: Action)
    requires S.OutInv(s)
    ensures Moves(s, Next(s, log, a), log, a)
  {
    if a.DoMessage? {
      hide Moves, S.OutInv, OnMessage;
      MessageMoves(s, log, a.epoch, a.frame, a.sendable);
    } else {
      ActionTells(s, log, a);
      CursorRests(s, log, a);
      hide Moves, S.OutInv, Next, Tells;
      QuietMoves(s, Next(s, log, a), log, a);
    }
  }

  lemma CursorRests(s: Socket, log: nat -> WireEvent, a: Action)
    requires !a.DoMessage?
    ensures var t := Next(s, log, a);
      t.hasConnected == s.hasConnected && t.start == s.start && t.cursor == s.cursor
  {
    hide AdvanceWrite, Stop, StopOnce, OtherCommand, RejectAll;
    S.RejectIsQuiet(s.(epoch := s.epoch + 1, connected := false));
    S.RejectIsQuiet(s.(epoch := s.epoch + 2, connected := false));
    S.StopIsQuiet(s);
    S.StopIsQuiet(Deliver(s, Failure));
    match a
    case DoAdvance(sendable) => S.AdvanceWritesOnly(s, sendable);
    case DoCommand(needsLease, sendable) => S.CommandIsQuiet(s, needsLease, sendable);
    case _ =>
  }

  lemma HeardSnoc(log: nat -> WireEvent, actions: seq<Action>, number: int)
    requires actions != []
    ensures var front := actions[..|actions| - 1];
      HeardBy(log, actions, number) <==>
        (HeardBy(log, front, number) || Hears(Run(CREATED, log, front), log, actions[|actions| - 1], number))
  {
    hide Hears, Run;
    var n := |actions| - 1;
    var front := actions[..n];
    assert forall j :: 0 <= j < n ==> front[..j] == actions[..j];
    if HeardBy(log, front, number) {
      var j: nat :| j < n && Hears(Run(CREATED, log, front[..j]), log, front[j], number);
      assert front[..j] == actions[..j] && front[j] == actions[j];
    }
    if HeardBy(log, actions, number) {
      var j: nat :| j <= n && Hears(Run(CREATED, log, actions[..j]), log, actions[j], number);
      if j < n {
        assert front[..j] == actions[..j] && front[j] == actions[j];
      }
    }
    if Hears(Run(CREATED, log, front), log, actions[n], number) {
      assert Hears(Run(CREATED, log, actions[..n]), log, actions[n], number);
    }
  }

  /** From the first authentication on the cursor is as far as what was heard allows:
      every number past the start that it reached was heard over the connection of that
      moment, and every number heard was reached, unless a failure was reported. */
  lemma {:induction false} CursorIsFarthest(log: nat -> WireEvent, actions: seq<Action>, number: int)
    ensures var s := Run(CREATED, log, actions);
      && (s.start < number <= s.cursor ==> HeardBy(log, actions, number))
      && (HeardBy(log, actions, number) ==> s.hasConnected && (number <= s.cursor || Failure in s.delivered))
  {
    if actions != [] {
      var front := actions[..|actions| - 1];
      CursorIsFarthest(log, front, number);
      S.OutRun(log, front);
      HeardSnoc(log, actions, number);
      hide S.OutInv, Next, HeardBy;
      CursorMoves(Run(CREATED, log, front), log, actions[|actions| - 1]);
    }
  }

  lemma {:induction false} StartStays(s: Socket, log: nat -> WireEvent, actions: seq<Action>)
    requires s.hasConnected && S.OutInv(s)
    ensures var t := Run(s, log, actions); t.hasConnected && t.start == s.start && S.OutInv(t)
  {
    if actions != [] {
      var front := actions[..|actions| - 1];
      StartStays(s, log, front);
      hide S.OutInv, Next;
      CursorMoves(Run(s, log, front), log, actions[|actions| - 1]);
      S.OutNext(Run(s, log, front), log, actions[|actions| - 1]);
    }
  }

  /** The first authentication says where the output starts: whatever happens afterwards,
      the events told since then are the ones after that number, up to the cursor. Without
      a number they continue what was told before. */
  lemma FirstAuthenticationStarts(log: nat -> WireEvent, before: seq<Action>, from: Option<nat>, lease: Option<nat>,
      sendable: bool, after: seq<Action>)
    requires var s := Run(CREATED, log, before); !s.stopped && !s.hasConnected
    ensures var s := Run(CREATED, log, before);
      var t := Run(s, log, [DoMessage(s.epoch, Authenticated(from, lease), sendable)] + after);
      && t.start == (if from.Some? then from.value else s.cursor)
      && S.Positions(t.delivered) == S.Range(0, s.cursor) + S.Range(t.start, t.cursor)
  {
    var s := Run(CREATED, log, before);
    var first := DoMessage(s.epoch, Authenticated(from, lease), sendable);
    S.OutRun(log, before);
    S.RunAppend(s, log, [first], after);
    assert [first][..0] == [];
    assert Run(s, log, [first]) == Next(s, log, first);
    S.OutNext(s, log, first);
    hide Run, S.Positions, S.Range;
    var t := Next(s, log, first);
    assert t.hasConnected && t.early == s.early == s.cursor;
    StartStays(t, log, after);
    EarlyStays(t, log, after);
  }

  lemma {:induction false} EarlyStays(s: Socket, log: nat -> WireEvent, actions: seq<Action>)
    requires s.hasConnected && S.OutInv(s)
    ensures Run(s, log, actions).early == s.early
  {
    if actions != [] {
      var front := actions[..|actions| - 1];
      EarlyStays(s, log, front);
      StartStays(s, log, front);
      hide S.OutInv, Next;
      S.EarlyStep(Run(s, log, front), log, actions[|actions| - 1]);
    }
  }

  // ---- Replays and lost connections ----

  /** A socket that was authenticated before and whose last number is `n`. */
  predicate Reading(s: Socket, n: nat) {
    !s.stopped && s.hasConnected && s.cursor == n
  }

  /** Everything from `lo + 1` to `hi`, sent over connection `epoch` in order. */
  function Replay(epoch: nat, lo: nat, hi: nat): (r: seq<Action>)
  {
    if lo >= hi then [] else Replay(epoch, lo, hi - 1) + [DoMessage(epoch, OutputFrame(hi), true)]
  }

  predicate CaughtUp(s: Socket, t: Socket, n: nat, hi: nat) {
    && Reading(t, if hi > n then hi else n) && SameConnection(s, t)
    && t.delivered == s.delivered + S.Wires(n, hi)
  }

  /** The next readable event is told and moves the cursor to it; an exit or an error
      ends the session. */
  lemma NextIsTold(s: Socket, log: nat -> WireEvent, n: nat)
    requires Reading(s, n) && !log(n).Unreadable?
    ensures var t := Next(s, log, DoMessage(s.epoch, OutputFrame(n + 1), true));
      && t.delivered == s.delivered + [Wire(n)] && t.cursor == n + 1
      && (if log(n).Output? then Reading(t, n + 1) && SameConnection(s, t) else t.stopped)
  {
    hide Stop;
    S.StopIsQuiet(Accept(s));
  }

  lemma OldIsPassed(s: Socket, log: nat -> WireEvent, number: nat)
    requires number <= s.cursor
    ensures Next(s, log, DoMessage(s.epoch, OutputFrame(number), true)) == s
  {
  }

  lemma ReplayStep(s: Socket, log: nat -> WireEvent, n: nat, hi: nat, m: Socket)
    requires Reading(s, n) && 1 <= hi && CaughtUp(s, m, n, hi - 1)
    requires forall k: nat :: n <= k < hi ==> log(k).Output?
    ensures CaughtUp(s, Next(m, log, DoMessage(s.epoch, OutputFrame(hi), true)), n, hi)
  {
    hide Next;
    if hi <= n {
      OldIsPassed(m, log, hi);
    } else {
      NextIsTold(m, log, hi - 1);
      assert s.delivered + (S.Wires(n, hi - 1) + [Wire(hi - 1)])
        == (s.delivered + S.Wires(n, hi - 1)) + [Wire(hi - 1)];
    }
  }

  lemma NothingReplayed(s: Socket, log: nat -> WireEvent, n: nat, lo: nat, hi: nat)
    requires Reading(s, n) && hi <= lo <= n
    ensures CaughtUp(s, Run(s, log, Replay(s.epoch, lo, hi)), n, hi)
  {
    assert s.delivered + [] == s.delivered;
  }

  lemma ReplayUnrolls(s: Socket, log: nat -> WireEvent, epoch: nat, lo: nat, hi: nat)
    requires lo < hi
    ensures Run(s, log, Replay(epoch, lo, hi))
      == Next(Run(s, log, Replay(epoch, lo, hi - 1)), log, DoMessage(epoch, OutputFrame(hi), true))
  {
    hide Next;
    var replay := Replay(epoch, lo, hi);
    assert replay[..|replay| - 1] == Replay(epoch, lo, hi - 1);
  }

  /** A server that replays its output from anywhere up to the cursor tells exactly what
      is new, in order, and the cursor ends with the last number sent. */
  lemma {:induction false} ReplayCatchesUp(s: Socket, log: nat -> WireEvent, n: nat, lo: nat, hi: nat)
    requires Reading(s, n) && lo <= n
    requires forall k: nat :: n <= k < hi ==> log(k).Output?
    ensures CaughtUp(s, Run(s, log, Replay(s.epoch, lo, hi)), n, hi)
    decreases hi
  {
    hide CaughtUp, Next, Reading;
    if lo >= hi {
      NothingReplayed(s, log, n, lo, hi);
    } else {
      ReplayUnrolls(s, log, s.epoch, lo, hi);
      hide Run, Replay;
      ReplayCatchesUp(s, log, n, lo, hi - 1);
      ReplayStep(s, log, n, hi, Run(s, log, Replay(s.epoch, lo, hi - 1)));
    }
  }

  /** How a connection is lost and asked for again: it closes and the retry timer fires,
      or the page comes back and reconnects. */
  function Loss(epoch: nat, back: bool): seq<Action> {
    if back then [DoReconnect] else [DoSocketClosed(epoch), DoTimer]
  }

  /** The new connection: its ticket arrives and the server authenticates. */
  function Greeting(epoch: nat, from: Option<nat>, lease: Option<nat>): seq<Action> {
    [DoOpened(epoch), DoMessage(epoch, Authenticated(from, lease), true)]
  }

  /** A connection that is lost, however it is lost, misses nothing: once the next one
      is authenticated and the server replays its output from anywhere up to the cursor,
      the caller has been told that nothing could be written, whether it can now, and
      every event once. */
  lemma LossMissesNothing(s: Socket, log: nat -> WireEvent, n: nat, back: bool, from: Option<nat>,
      lease: Option<nat>, lo: nat, hi: nat)
    requires Reading(s, n) && lo <= n
    requires forall k: nat :: n <= k < hi ==> log(k).Output?
    ensures var m := Run(s, log, Loss(s.epoch, back));
      var t := Run(m, log, Greeting(m.epoch, from, lease) + Replay(m.epoch, lo, hi));
      && m.epoch > s.epoch
      && Reading(t, if hi > n then hi else n) && t.connected && t.lease == lease
      && t.delivered == s.delivered + [Control(false), Control(lease.Some?)] + S.Wires(n, hi)
  {
    var m := Run(s, log, Loss(s.epoch, back));
    Lost(s, log, n, back);
    S.RunAppend(m, log, Greeting(m.epoch, from, lease), Replay(m.epoch, lo, hi));
    Greeted(m, log, n, from, lease);
    var g := Run(m, log, Greeting(m.epoch, from, lease));
    hide Run, Loss, Greeting;
    ReplayCatchesUp(g, log, n, lo, hi);
    assert s.delivered + [Control(false)] + [Control(lease.Some?)]
      == s.delivered + [Control(false), Control(lease.Some?)];
  }

  lemma Lost(s: Socket, log: nat -> WireEvent, n: nat, back: bool)
    requires Reading(s, n)
    ensures var m := Run(s, log, Loss(s.epoch, back));
      Reading(m, n) && m.epoch > s.epoch && m.delivered == s.delivered + [Control(false)]
  {
    if back {
      assert [DoReconnect][..0] == [];
    } else {
      var closed := DoSocketClosed(s.epoch);
      assert [closed, DoTimer][..1] == [closed] && [closed][..0] == [];
      assert Run(s, log, [closed]) == Disconnected(s);
    }
  }

  lemma Greeted(m: Socket, log: nat -> WireEvent, n: nat, from: Option<nat>, lease: Option<nat>)
    requires Reading(m, n)
    ensures var g := Run(m, log, Greeting(m.epoch, from, lease));
      && Reading(g, n) && g.epoch == m.epoch && g.connected && g.lease == lease
      && g.delivered == m.delivered + [Control(lease.Some?)]
  {
    var opens := DoOpened(m.epoch);
    var greets := DoMessage(m.epoch, Authenticated(from, lease), true);
    assert [opens, greets][..1] == [opens] && [opens][..0] == [];
    assert Run(m, log, [opens]) == Opened(m, m.epoch);
  }
}
