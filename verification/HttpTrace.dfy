/**
 What a session of event streams tells its caller, followed over whole runs: what
 every action adds, how far the cursor comes, where it starts, and that neither a
 lost connection nor a recovery loses an event.
 */
module HttpTrace {
  import opened Prelude
  import opened HttpCursor
  import W = SocketState
  import S = SocketSafety

  predicate Numbers(number: int) {
    1 <= number <= MAX_SAFE_INTEGER
  }

  predicate Follows(last: Cursor, number: int) {
    last.At? ==> number == last.n + 1
  }

  predicate Passed(last: Cursor, number: int) {
    last.At? && number <= last.n
  }

  /** What a message tells when it reaches an accepted connection whose cursor is `last`. */
  function Reads(last: Cursor, log: nat -> W.WireEvent, message: Message): seq<W.Delivery> {
    match message
    case Blank => []
    case NotJson => [W.Failure]
    case Numbered(None) => [W.Failure]
    case Numbered(Some(number)) =>
      if !Numbers(number) then [W.Failure]
      else if Passed(last, number) then []
      else if !Follows(last, number) then [W.Failure]
      else if log(number - 1).Unreadable? then [] else [W.Wire(number - 1)]
  }

  /** The action concerns the newest stream, and that one was not aborted. */
  predicate Addressed(s: State, a: Action) {
    a.i + 1 == |s.streams| && !s.streams[a.i].aborted
  }

  /** What an action tells: an answer to a pending request whether it was accepted, a
      message of an accepted connection what it reads, everything else nothing. */
  function Tells(s: State, log: nat -> W.WireEvent, a: Action): seq<W.Delivery> {
    if !Addressed(s, a) then []
    else
      match a.event
      case Opens(ok, _, writable) =>
        if Live(s).open then [] else if ok then [W.Control(writable)] else [W.Failure]
      case Receives(message) => if Live(s).open then Reads(Live(s).last, log, message) else []
      case _ => []
  }

  function Ledger(repaint: bool, log: nat -> W.WireEvent, actions: seq<Action>): seq<W.Delivery> {
    if actions == [] then []
    else
      var front := actions[..|actions| - 1];
      Ledger(repaint, log, front) + Tells(Run(Fresh(repaint), log, front), log, actions[|actions| - 1])
  }

  lemma MessageTells(s: State, log: nat -> W.WireEvent, i: nat, message: Message)
    requires i < |s.streams| && !s.streams[i].aborted && s.streams[i].open
    ensures Received(s, log, i, message).delivered == s.delivered + Reads(s.streams[i].last, log, message)
  {
    assert s.delivered + [] == s.delivered;
  }

  lemma ActionTells(s: State, log: nat -> W.WireEvent, a: Action)
    requires Inv(s)
    ensures Next(s, log, a).delivered == s.delivered + Tells(s, log, a)
  {
    assert s.delivered + [] == s.delivered;
    hide Received, Reads, S.Positions, S.Range;
    if a.i < |s.streams| && !s.streams[a.i].aborted && a.event.Receives? {
      if s.streams[a.i].open {
        MessageTells(s, log, a.i, a.event.message);
      } else {
        ClosedReadsNothing(s, log, a.i, a.event.message);
      }
    } else if a.i < |s.streams| && a.event.Receives? {
      ClosedReadsNothing(s, log, a.i, a.event.message);
    }
  }

  lemma ClosedReadsNothing(s: State, log: nat -> W.WireEvent, i: nat, message: Message)
    requires i < |s.streams| && (s.streams[i].aborted || !s.streams[i].open)
    ensures Received(s, log, i, message) == s
  {
  }

  /** Over every run, the caller was told exactly what the actions say, in their order. */
  lemma {:induction false} DeliveredIsLedger(repaint: bool, log: nat -> W.WireEvent, actions: seq<Action>)
    ensures Run(Fresh(repaint), log, actions).delivered == Ledger(repaint, log, actions)
  {
    if actions != [] {
      var front := actions[..|actions| - 1];
      DeliveredIsLedger(repaint, log, front);
      RunKeeps(repaint, log, front);
      hide Inv, Next, Tells;
      ActionTells(Run(Fresh(repaint), log, front), log, actions[|actions| - 1]);
    }
  }

  // ---- The connection the ledger speaks of ----

  /** The session ends exactly with a stop, a refused answer, or a message that ends it. */
  lemma EndsIff(s: State, log: nat -> W.WireEvent, a: Action)
    requires Inv(s) && !Over(s)
    ensures Over(Next(s, log, a)) <==>
      Addressed(s, a)
        && match a.event
           case Stops => true
           case Opens(ok, _, _) => !ok && !Live(s).open
           case Receives(message) => Live(s).open && EndsSession(Live(s), log, message)
           case _ => false
  {
    hide S.Positions, S.Range;
    OverIsLive(s);
    NextKeeps(s, log, a);
    OverIsLive(Next(s, log, a));
  }

  lemma OverIsLive(s: State)
    requires Inv(s)
    ensures Over(s) <==> Live(s).aborted
  {
  }

  /** Whether a request of the newest stream is answered and being read: from an accepted
      answer until the connection breaks, an event does not decode, or a recovery. */
  lemma OpenIff(s: State, log: nat -> W.WireEvent, a: Action)
    requires Inv(s) && !Over(Next(s, log, a))
    ensures Live(Next(s, log, a)).open <==>
      if !Addressed(s, a) then Live(s).open
      else
        match a.event
        case Opens(ok, _, _) => Live(s).open || ok
        case Drops => false
        case RecoveryRuns => Live(s).open && !Live(s).recovering
        case Receives(message) => Live(s).open && !Breaks(Live(s).last, log, message)
        case _ => Live(s).open
  {
    hide S.Positions, S.Range;
    OverIsLive(s);
    NextKeeps(s, log, a);
    OverIsLive(Next(s, log, a));
  }

  /** The next event, but its bytes do not decode. */
  predicate Breaks(last: Cursor, log: nat -> W.WireEvent, message: Message) {
    message.Numbered? && message.number.Some? && Numbers(message.number.value) && Follows(last, message.number.value)
      && log(message.number.value - 1).Unreadable?
  }

  /** A recovery replaces the newest stream exactly when one was asked for while the page
      was visible and the stream is still the newest one running. */
  lemma RecoversIff(s: State, log: nat -> W.WireEvent, a: Action)
    requires Inv(s)
    ensures var t := Next(s, log, a);
      && (|t.streams| == |s.streams| + 1 <==> Addressed(s, a) && a.event == RecoveryRuns && Live(s).recovering)
      && (|t.streams| == |s.streams| || |t.streams| == |s.streams| + 1)
      && (|t.streams| == |s.streams| && !Over(t) ==>
           (Live(t).recovering <==> Live(s).recovering || (Addressed(s, a) && a.event == Recovers(true))))
      && (|t.streams| > |s.streams| ==>
           && Live(t) == Stream(Live(s).last, false, false, false, false) && t.delivered == s.delivered)
  {
    hide S.Positions, S.Range;
  }

  // ---- How far the cursor comes ----

  /** The cursor of a stream that was not told where to start, or told no number, and the
      session's start are still 0. */
  predicate Unfixed(s: State)
    requires s.streams != []
  {
    Live(s).repaint || Live(s).last.NotANumber? ==> s.start == 0 && (Live(s).repaint ==> Live(s).last == At(0))
  }

  /** A readable event reaches the newest stream over its accepted connection. */
  predicate Hears(s: State, log: nat -> W.WireEvent, a: Action, number: int) {
    && Addressed(s, a) && Live(s).open && a.event == Receives(Numbered(Some(number)))
    && Numbers(number) && !log(number - 1).Unreadable?
  }

  ghost predicate HeardBy(repaint: bool, log: nat -> W.WireEvent, actions: seq<Action>, number: int) {
    exists j: nat :: j < |actions| && Hears(Run(Fresh(repaint), log, actions[..j]), log, actions[j], number)
  }

  /** One step of the cursor. */
  ghost predicate Moves(s: State, t: State, log: nat -> W.WireEvent, a: Action)
    requires s.streams != [] && t.streams != []
  {
    && Reached(s) <= Reached(t) && s.delivered <= t.delivered
    && (forall number :: t.start < number <= Reached(t) ==>
         (s.start < number <= Reached(s)) || Hears(s, log, a, number))
    && (forall number :: Hears(s, log, a, number) ==> number <= Reached(t) || W.Failure in t.delivered)
  }

  lemma CursorMoves(s: State, log: nat -> W.WireEvent, a: Action)
    requires Inv(s) && Unfixed(s)
    ensures Next(s, log, a).streams != [] && Unfixed(Next(s, log, a)) && Moves(s, Next(s, log, a), log, a)
  {
    hide S.Positions, S.Range;
    if a.i < |s.streams| && a.event.Receives? {
      hide Moves, Inv;
      ReadMoves(s, log, a);
    } else if a.i < |s.streams| && a.event.Opens? {
      OpenMoves(s, log, a);
    } else {
      hide Received, Responded;
    }
  }

  lemma ReadMoves(s: State, log: nat -> W.WireEvent, a: Action)
    requires Inv(s) && Unfixed(s) && a.i < |s.streams| && a.event.Receives?
    ensures Next(s, log, a).streams != [] && Unfixed(Next(s, log, a)) && Moves(s, Next(s, log, a), log, a)
  {
    hide S.Positions, S.Range;
  }

  lemma OpenMoves(s: State, log: nat -> W.WireEvent, a: Action)
    requires Inv(s) && Unfixed(s) && a.i < |s.streams| && a.event.Opens?
    ensures Next(s, log, a).streams != [] && Unfixed(Next(s, log, a)) && Moves(s, Next(s, log, a), log, a)
  {
    hide S.Positions, S.Range, Received;
  }

  lemma {:induction false} CursorFixed(repaint: bool, log: nat -> W.WireEvent, actions: seq<Action>)
    ensures var s := Run(Fresh(repaint), log, actions); s.streams != [] && Unfixed(s)
  {
    if actions != [] {
      CursorFixed(repaint, log, actions[..|actions| - 1]);
      RunKeeps(repaint, log, actions[..|actions| - 1]);
      hide Inv, Next, Unfixed, Moves;
      CursorMoves(Run(Fresh(repaint), log, actions[..|actions| - 1]), log, actions[|actions| - 1]);
    }
  }

  lemma HeardSnoc(repaint: bool, log: nat -> W.WireEvent, actions: seq<Action>, number: int)
    requires actions != []
    ensures var front := actions[..|actions| - 1];
      HeardBy(repaint, log, actions, number) <==>
        (HeardBy(repaint, log, front, number)
         || Hears(Run(Fresh(repaint), log, front), log, actions[|actions| - 1], number))
  {
    hide Hears, Run;
    var n := |actions| - 1;
    var front := actions[..n];
    assert forall j :: 0 <= j < n ==> front[..j] == actions[..j];
    if HeardBy(repaint, log, front, number) {
      var j: nat :| j < n && Hears(Run(Fresh(repaint), log, front[..j]), log, front[j], number);
      assert front[..j] == actions[..j] && front[j] == actions[j];
    }
    if HeardBy(repaint, log, actions, number) {
      var j: nat :| j <= n && Hears(Run(Fresh(repaint), log, actions[..j]), log, actions[j], number);
      if j < n {
        assert front[..j] == actions[..j] && front[j] == actions[j];
      }
    }
    if Hears(Run(Fresh(repaint), log, front), log, actions[n], number) {
      assert Hears(Run(Fresh(repaint), log, actions[..n]), log, actions[n], number);
    }
  }

  /** The cursor is as far as what was heard allows: every number past the start that it
      reached was heard over an accepted connection, and every number heard that way was
      reached, unless a failure was reported. */
  lemma {:induction false} CursorIsFarthest(repaint: bool, log: nat -> W.WireEvent, actions: seq<Action>, number: int)
    ensures var s := Run(Fresh(repaint), log, actions);
      && s.streams != []
      && (s.start < number <= Reached(s) ==> HeardBy(repaint, log, actions, number))
      && (HeardBy(repaint, log, actions, number) ==> number <= Reached(s) || W.Failure in s.delivered)
  {
    CursorFixed(repaint, log, actions);
    if actions != [] {
      var front := actions[..|actions| - 1];
      var a := actions[|actions| - 1];
      CursorIsFarthest(repaint, log, front, number);
      CursorFixed(repaint, log, front);
      RunKeeps(repaint, log, front);
      HeardSnoc(repaint, log, actions, number);
      hide Inv, Next, Unfixed, HeardBy, Hears, Reached;
      CursorMoves(Run(Fresh(repaint), log, front), log, a);
    }
  }

  // ---- Replays, broken connections and recoveries ----

  /** Everything from `lo + 1` to `hi`, sent to stream `i` in order. */
  function Replay(i: nat, lo: nat, hi: nat): (r: seq<Action>)
  {
    if lo >= hi then [] else Replay(i, lo, hi - 1) + [Action(i, Receives(Numbered(Some(hi))))]
  }

  /** The newest stream reads an accepted connection, and `n` was the last number. */
  predicate Reading(s: State, n: nat) {
    s.streams != [] && !Live(s).aborted && Live(s).open && Live(s).last == At(n)
  }

  lemma {:induction false} RunConcat(s: State, log: nat -> W.WireEvent, before: seq<Action>, after: seq<Action>)
    ensures Run(s, log, before + after) == Run(Run(s, log, before), log, after)
  {
    if after == [] {
      assert before + after == before;
    } else {
      var n := |after| - 1;
      assert (before + after)[..|before| + n] == before + after[..n];
      hide Next;
      RunConcat(s, log, before, after[..n]);
    }
  }

  /** A server that replays its output from anywhere up to the cursor tells exactly what
      is new, in order, and the cursor ends with the last number sent. */
  lemma {:induction false} ReplayCatchesUp(s: State, log: nat -> W.WireEvent, i: nat, n: nat, lo: nat, hi: nat)
    requires Reading(s, n) && i + 1 == |s.streams| && lo <= n && hi <= MAX_SAFE_INTEGER
    requires forall k: nat :: n <= k < hi ==> log(k).Output?
    ensures CaughtUp(s, Run(s, log, Replay(i, lo, hi)), n, hi)
    decreases hi
  {
    hide *;
    if lo >= hi {
      NothingReplayed(s, log, i, n, lo, hi);
    } else {
      ReplayCatchesUp(s, log, i, n, lo, hi - 1);
      ReplayUnrolls(s, log, i, lo, hi);
      ReplayStep(s, log, i, n, hi, Run(s, log, Replay(i, lo, hi - 1)));
    }
  }

  lemma NothingReplayed(s: State, log: nat -> W.WireEvent, i: nat, n: nat, lo: nat, hi: nat)
    requires Reading(s, n) && hi <= lo <= n
    ensures CaughtUp(s, Run(s, log, Replay(i, lo, hi)), n, hi)
  {
    assert s.delivered + [] == s.delivered;
  }

  lemma ReplayUnrolls(s: State, log: nat -> W.WireEvent, i: nat, lo: nat, hi: nat)
    requires lo < hi
    ensures Run(s, log, Replay(i, lo, hi))
      == Next(Run(s, log, Replay(i, lo, hi - 1)), log, Action(i, Receives(Numbered(Some(hi)))))
  {
    hide Next;
    var replay := Replay(i, lo, hi);
    assert replay[..|replay| - 1] == Replay(i, lo, hi - 1);
  }

  predicate CaughtUp(s: State, t: State, n: nat, hi: nat) {
    && Reading(t, if hi > n then hi else n)
    && |t.streams| == |s.streams|
    && t.delivered == s.delivered + S.Wires(n, hi)
  }

  lemma ReplayStep(s: State, log: nat -> W.WireEvent, i: nat, n: nat, hi: nat, m: State)
    requires Reading(s, n) && i + 1 == |s.streams| && 1 <= hi <= MAX_SAFE_INTEGER && CaughtUp(s, m, n, hi - 1)
    requires forall k: nat :: n <= k < hi ==> log(k).Output?
    ensures CaughtUp(s, Next(m, log, Action(i, Receives(Numbered(Some(hi))))), n, hi)
  {
    hide Next;
    if hi <= n {
      OldIsPassed(m, log, n, hi);
    } else {
      NextIsTold(m, log, hi - 1);
      assert s.delivered + (S.Wires(n, hi - 1) + [W.Wire(hi - 1)])
        == (s.delivered + S.Wires(n, hi - 1)) + [W.Wire(hi - 1)];
    }
  }

  lemma OldIsPassed(s: State, log: nat -> W.WireEvent, n: nat, number: nat)
    requires Reading(s, n) && 1 <= number <= n && number <= MAX_SAFE_INTEGER
    ensures Next(s, log, Action(|s.streams| - 1, Receives(Numbered(Some(number))))) == s
  {
  }

  /** The next readable event is told and moves the cursor to it; an output event leaves
      the connection as it was, an exit or an error ends the session. */
  lemma NextIsTold(s: State, log: nat -> W.WireEvent, n: nat)
    requires Reading(s, n) && n < MAX_SAFE_INTEGER && !log(n).Unreadable?
    ensures var t := Next(s, log, Action(|s.streams| - 1, Receives(Numbered(Some(n + 1)))));
      && t.delivered == s.delivered + [W.Wire(n)] && |t.streams| == |s.streams| && Live(t).last == At(n + 1)
      && (if log(n).Output? then Reading(t, n + 1) else Live(t).aborted)
  {
  }

  /** How a connection is lost: it breaks and the same stream asks again, or the page
      recovers and a new stream asks. */
  function Loss(i: nat, recover: bool): seq<Action> {
    if recover then [Action(i, Recovers(true)), Action(i, RecoveryRuns)] else [Action(i, Drops)]
  }

  /** A connection that is lost while reading, however it is lost, misses nothing: once
      the next request is accepted and the server replays its output from anywhere up to
      the cursor, the caller has been told all of it, each event once. */
  lemma LossMissesNothing(s: State, log: nat -> W.WireEvent, n: nat, recover: bool, header: Option<Cursor>,
      writable: bool, lo: nat, hi: nat)
    requires Reading(s, n) && !Live(s).repaint && lo <= n && hi <= MAX_SAFE_INTEGER
    requires forall k: nat :: n <= k < hi ==> log(k).Output?
    ensures var i := |s.streams| - 1;
      var j := if recover then i + 1 else i;
      var t := Run(s, log, Loss(i, recover) + [Action(j, Opens(true, header, writable))] + Replay(j, lo, hi));
      && Reading(t, if hi > n then hi else n)
      && t.delivered == s.delivered + [W.Control(writable)] + S.Wires(n, hi)
  {
    var i := |s.streams| - 1;
    var j := if recover then i + 1 else i;
    var again := Loss(i, recover) + [Action(j, Opens(true, header, writable))];
    RunConcat(s, log, again, Replay(j, lo, hi));
    Reopens(s, log, n, recover, header, writable);
    var m := Run(s, log, again);
    hide Run, Loss, Reading;
    ReplayCatchesUp(m, log, j, n, lo, hi);
  }

  lemma Reopens(s: State, log: nat -> W.WireEvent, n: nat, recover: bool, header: Option<Cursor>, writable: bool)
    requires Reading(s, n) && !Live(s).repaint
    ensures var i := |s.streams| - 1;
      var j := if recover then i + 1 else i;
      var t := Run(s, log, Loss(i, recover) + [Action(j, Opens(true, header, writable))]);
      Reading(t, n) && |t.streams| == j + 1 && t.delivered == s.delivered + [W.Control(writable)]
  {
    var i := |s.streams| - 1;
    var opens := Action(if recover then i + 1 else i, Opens(true, header, writable));
    RunConcat(s, log, Loss(i, recover), [opens]);
    var m := Run(s, log, Loss(i, recover));
    Lost(s, log, i, recover);
    assert [opens][..0] == [];
    assert Run(m, log, [opens]) == Next(m, log, opens);
    hide Run, Loss;
  }

  lemma Lost(s: State, log: nat -> W.WireEvent, i: nat, recover: bool)
    requires i + 1 == |s.streams| && !Live(s).aborted && !Live(s).repaint
    ensures var t := Run(s, log, Loss(i, recover));
      && |t.streams| == (if recover then i + 2 else i + 1) && t.delivered == s.delivered
      && !Live(t).aborted && !Live(t).open && !Live(t).repaint && Live(t).last == Live(s).last
  {
    if recover {
      var asks, runs := Action(i, Recovers(true)), Action(i, RecoveryRuns);
      assert [asks, runs][..1] == [asks] && [asks][..0] == [];
      assert Run(s, log, [asks]) == Next(s, log, asks);
    } else {
      assert [Action(i, Drops)][..0] == [];
    }
  }

  // ---- Where a repainted session starts ----

  /** No stream has to be told where to start any more, and the cursor is a number. */
  predicate Settled(s: State, start: nat)
    requires s.streams != []
  {
    !Live(s).repaint && Live(s).last.At? && s.start == start
  }

  lemma SettledStays(s: State, log: nat -> W.WireEvent, a: Action, start: nat)
    requires Inv(s) && Settled(s, start)
    ensures Next(s, log, a).streams != [] && Settled(Next(s, log, a), start)
  {
    hide S.Positions, S.Range;
  }

  lemma {:induction false} StaysAt(s: State, log: nat -> W.WireEvent, actions: seq<Action>, start: nat)
    requires Inv(s) && Settled(s, start)
    ensures Inv(Run(s, log, actions)) && Settled(Run(s, log, actions), start)
  {
    if actions != [] {
      StaysAt(s, log, actions[..|actions| - 1], start);
      hide Inv, Next, Settled;
      SettledStays(Run(s, log, actions[..|actions| - 1]), log, actions[|actions| - 1], start);
      NextKeeps(Run(s, log, actions[..|actions| - 1]), log, actions[|actions| - 1]);
    }
  }

  /** A repainting session starts where its first accepted response says: whatever happens
      afterwards, the events told are the ones after that number, up to the cursor. When
      the response names none, they are all events. */
  lemma RepaintStartsAtHeader(log: nat -> W.WireEvent, before: seq<Action>, header: Option<nat>, writable: bool,
      after: seq<Action>)
    requires var s := Run(Fresh(true), log, before);
      s.streams != [] && Live(s).repaint && !Live(s).aborted
    ensures var s := Run(Fresh(true), log, before);
      var named := if header.Some? then Some(At(header.value)) else None;
      var t := Run(s, log, [Action(|s.streams| - 1, Opens(true, named, writable))] + after);
      && t.streams != [] && t.start == (if header.Some? then header.value else 0)
      && S.Positions(t.delivered) == S.Range(t.start, Reached(t))
  {
    var s := Run(Fresh(true), log, before);
    var named := if header.Some? then Some(At(header.value)) else None;
    var start := if header.Some? then header.value else 0;
    var opens := Action(|s.streams| - 1, Opens(true, named, writable));
    RunKeeps(true, log, before);
    CursorFixed(true, log, before);
    RunConcat(s, log, [opens], after);
    assert [opens][..0] == [];
    assert Run(s, log, [opens]) == Next(s, log, opens);
    NextKeeps(s, log, opens);
    hide Run, S.Positions, S.Range;
    var t := Next(s, log, opens);
    assert Settled(t, start);
    hide Next;
    StaysAt(t, log, after, start);
  }
}
