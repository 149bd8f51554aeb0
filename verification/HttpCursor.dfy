/**
 Terminal output over server-sent events. Every `openStream` has its own copy of
 the last event id; a recovery aborts its stream and opens another from that
 copy. The state is all streams one `create` opened, in order.
 */
module HttpCursor {
  import opened Prelude
  import opened SocketState
  import opened SocketSafety

  /** What `lastEventId` converts to, 0 when it is unset. A number stands for itself
      rounded down, which compares alike with every event number (an infinite one for
      the last event number, or for -1). */
  datatype Cursor = At(n: int) | NotANumber

  /** One `openStream`: its `lastEventId`, its flags, and whether a response has been
      accepted since its last (re)connection. */
  datatype Stream = Stream(last: Cursor, aborted: bool, repaint: bool, recovering: bool, open: bool)

  /** `start` is the cursor the first response fixed, or, when that was no number, the
      one the first event did. */
  datatype State = State(streams: seq<Stream>, delivered: seq<Delivery>, start: nat)

  const MAX_SAFE_INTEGER := 0x1F_FFFF_FFFF_FFFF

  /** A message of the event stream; `number` is what its id converts to. */
  datatype Message = Blank | NotJson | Numbered(number: Option<int>)

  function Fresh(repaint: bool): State {
    State([Stream(At(0), false, repaint, false, false)], [], 0)
  }

  function Set(s: State, i: nat, stream: Stream): State
    requires i < |s.streams|
  {
    s.(streams := s.streams[i := stream])
  }

  function AbortStream(s: State, i: nat): State
    requires i < |s.streams|
  {
    Set(s, i, s.streams[i].(aborted := true))
  }

  /** `onerror` with an answer of the server: report and abort. */
  function FailStream(s: State, i: nat): State
    requires i < |s.streams|
  {
    if s.streams[i].aborted then s else AbortStream(s.(delivered := s.delivered + [Failure]), i)
  }

  /** A network failure or an early close: the same stream asks again, from its cursor. */
  function Dropped(s: State, i: nat): State
    requires i < |s.streams|
  {
    Set(s, i, s.streams[i].(open := false))
  }

  function StartOf(last: Cursor): nat {
    if last.At? && last.n >= 0 then last.n else 0
  }

  /** `onopen`; `header` is the cursor the response names. */
  function Responded(s: State, i: nat, ok: bool, header: Option<Cursor>, writable: bool): State
    requires i < |s.streams|
  {
    var stream := s.streams[i];
    if stream.aborted || stream.open then s
    else if !ok then FailStream(s, i)
    else
      var s1 := s.(delivered := s.delivered + [Control(writable)]);
      if stream.repaint then
        var last := if header.Some? then header.value else stream.last;
        Set(s1, i, stream.(last := last, repaint := false, open := true)).(start := StartOf(last))
      else Set(s1, i, stream.(open := true))
  }

  /** `onmessage`. */
  function Received(s: State, log: nat -> WireEvent, i: nat, message: Message): State
    requires i < |s.streams|
  {
    var stream := s.streams[i];
    if stream.aborted || !stream.open || message.Blank? then s
    else if message.NotJson? || message.number.None? then FailStream(s, i)
    else
      var number := message.number.value;
      if number < 1 || number > MAX_SAFE_INTEGER then FailStream(s, i)
      else if stream.last.At? && number <= stream.last.n then s
      else if stream.last.At? && number > stream.last.n + 1 then FailStream(s, i)
      else if log(number - 1).Unreadable? then Dropped(s, i)
      else
        var s1 := Delivered(s, i, number);
        if log(number - 1).Output? then s1 else AbortStream(s1, i)
  }

  /** The event is passed on and its number is the cursor from then on; when the
      cursor was no number before, the segment starts with it. */
  function Delivered(s: State, i: nat, number: nat): State
    requires i < |s.streams| && number >= 1
  {
    Set(s, i, s.streams[i].(last := At(number))).(
      delivered := s.delivered + [Wire(number - 1)],
      start := if s.streams[i].last.At? then s.start else number - 1)
  }

  /** `recover`: at most one recovery waits per stream. */
  function Asked(s: State, i: nat, visible: bool): State
    requires i < |s.streams|
  {
    if s.streams[i].aborted || !visible then s else Set(s, i, s.streams[i].(recovering := true))
  }

  /** The queued recovery: the successor continues where its stream stopped. */
  function Recovered(s: State, i: nat): State
    requires i < |s.streams|
  {
    if !s.streams[i].recovering || s.streams[i].aborted then s
    else
      var s1 := AbortStream(s, i);
      s1.(streams := s1.streams + [Stream(s.streams[i].last, false, false, false, false)])
  }

  datatype Event =
    | Opens(ok: bool, header: Option<Cursor>, writable: bool)
    | Receives(message: Message)
    | Drops
    | Recovers(visible: bool)
    | RecoveryRuns
    | Stops

  /** Something happens to the i-th stream. */
  datatype Action = Action(i: nat, event: Event)

  function Next(s: State, log: nat -> WireEvent, a: Action): State {
    if a.i >= |s.streams| then s
    else
      match a.event
      case Opens(ok, header, writable) => Responded(s, a.i, ok, header, writable)
      case Receives(message) => Received(s, log, a.i, message)
      case Drops => Dropped(s, a.i)
      case Recovers(visible) => Asked(s, a.i, visible)
      case RecoveryRuns => Recovered(s, a.i)
      case Stops => AbortStream(s, a.i)
  }

  function Run(s: State, log: nat -> WireEvent, actions: seq<Action>): State {
    if actions == [] then s else Next(Run(s, log, actions[..|actions| - 1]), log, actions[|actions| - 1])
  }

  // ---- Exactly once ----

  /** The newest stream: only this one can still deliver. */
  function Live(s: State): (stream: Stream)
    requires s.streams != []
  {
    s.streams[|s.streams| - 1]
  }

  /** How far the newest stream has come: its cursor, when that is an event number. */
  function Reached(s: State): (n: nat)
    requires s.streams != []
  {
    if Live(s).last.At? && Live(s).last.n >= 0 then Live(s).last.n else s.start
  }

  ghost predicate Inv(s: State) {
    && s.streams != []
    && (forall i :: 0 <= i < |s.streams| - 1 ==> s.streams[i].aborted)
    && s.start <= Reached(s)
    && Positions(s.delivered) == Range(s.start, Reached(s))
    && (Live(s).repaint ==> Live(s).last == At(s.start) && !Live(s).open)
  }

  lemma EmptyRange(at: nat)
    ensures Range(at, at) == []
  {
  }

  lemma ReportsNoEvent(delivered: seq<Delivery>, more: seq<Delivery>)
    requires more == [] || (|more| == 1 && !more[0].Wire?)
    ensures Positions(delivered + more) == Positions(delivered)
  {
    if more == [] {
      assert delivered + more == delivered;
    } else {
      PositionsSnoc(delivered, more[0]);
      assert more == [more[0]];
    }
  }

  /** The flags of one stream change, and something that is no log event may be reported. */
  lemma FlagsKeep(s: State, i: nat, stream: Stream, more: seq<Delivery>)
    requires Inv(s) && i < |s.streams|
    requires stream.last == s.streams[i].last && (s.streams[i].aborted ==> stream.aborted)
    requires stream.repaint ==> s.streams[i].repaint && !stream.open
    requires more == [] || (|more| == 1 && !more[0].Wire?)
    ensures Inv(Set(s, i, stream).(delivered := s.delivered + more))
  {
    hide Positions, Range;
    ReportsNoEvent(s.delivered, more);
    var n := Set(s, i, stream).(delivered := s.delivered + more);
    assert Live(n).last == Live(s).last;
    assert Reached(n) == Reached(s);
  }

  lemma FailKeeps(s: State, i: nat)
    requires Inv(s) && i < |s.streams|
    ensures Inv(FailStream(s, i))
  {
    if !s.streams[i].aborted {
      KeptRepaint(s, i);
      FlagsKeep(s, i, s.streams[i].(aborted := true), [Failure]);
    }
  }

  /** A stream that still has to repaint has no accepted response. */
  lemma KeptRepaint(s: State, i: nat)
    requires Inv(s) && i < |s.streams| && !s.streams[i].aborted
    ensures s.streams[i].repaint ==> !s.streams[i].open
    ensures i == |s.streams| - 1
  {
  }

  lemma OpenKeeps(s: State, i: nat, ok: bool, header: Option<Cursor>, writable: bool)
    requires Inv(s) && i < |s.streams|
    ensures Inv(Responded(s, i, ok, header, writable))
  {
    var stream := s.streams[i];
    if stream.aborted || stream.open {
    } else if !ok {
      FailKeeps(s, i);
    } else {
      KeptRepaint(s, i);
      if stream.repaint {
        var last := if header.Some? then header.value else stream.last;
        PositionsSnoc(s.delivered, Control(writable));
        EmptyRange(s.start);
        EmptyRange(StartOf(last));
        hide Positions, Range;
      } else {
        FlagsKeep(s, i, stream.(open := true), [Control(writable)]);
      }
    }
  }

  lemma DropKeeps(s: State, i: nat)
    requires Inv(s) && i < |s.streams|
    ensures Inv(Dropped(s, i))
  {
    FlagsKeep(s, i, s.streams[i].(open := false), []);
    assert s.delivered + [] == s.delivered;
  }

  lemma AbortKeeps(s: State, i: nat)
    requires Inv(s) && i < |s.streams|
    ensures Inv(AbortStream(s, i))
  {
    hide Positions, Range;
  }

  lemma AdvanceKeeps(s: State, i: nat, number: nat)
    requires Inv(s) && i < |s.streams| && !s.streams[i].aborted && s.streams[i].open && number >= 1
    requires s.streams[i].last.At? ==> number == s.streams[i].last.n + 1
    ensures Inv(Delivered(s, i, number))
  {
    hide Positions, Range;
    KeptRepaint(s, i);
    OneMorePosition(s.delivered, number - 1);
    EmptyRange(s.start);
    EmptyRange(number - 1);
    if s.streams[i].last.At? {
      RangeSnoc(s.start, number - 1);
    } else {
      RangeSnoc(number - 1, number - 1);
    }
    assert Live(Delivered(s, i, number)).last == At(number);
  }

  lemma OneMorePosition(delivered: seq<Delivery>, at: nat)
    ensures Positions(delivered + [Wire(at)]) == Positions(delivered) + [at]
  {
    PositionsSnoc(delivered, Wire(at));
  }

  lemma MessageKeeps(s: State, log: nat -> WireEvent, i: nat, message: Message)
    requires Inv(s) && i < |s.streams|
    ensures Inv(Received(s, log, i, message))
  {
    hide Inv, FailStream, Dropped, AbortStream, Delivered;
    FailKeeps(s, i);
    DropKeeps(s, i);
    var stream := s.streams[i];
    if !stream.aborted && stream.open && message.Numbered? && message.number.Some? && message.number.value >= 1 {
      var number: nat := message.number.value;
      if stream.last.At? ==> number == stream.last.n + 1 {
        AdvanceKeeps(s, i, number);
        SameStreams(s, i, number);
        AbortKeeps(Delivered(s, i, number), i);
      }
    }
  }

  lemma SameStreams(s: State, i: nat, number: nat)
    requires i < |s.streams| && number >= 1
    ensures |Delivered(s, i, number).streams| == |s.streams|
  {
  }

  lemma RecoverKeeps(s: State, i: nat)
    requires Inv(s) && i < |s.streams|
    ensures Inv(Recovered(s, i))
  {
    if s.streams[i].recovering && !s.streams[i].aborted {
      KeptRepaint(s, i);
    }
    hide Positions, Range;
  }

  lemma NextKeeps(s: State, log: nat -> WireEvent, a: Action)
    requires Inv(s)
    ensures Inv(Next(s, log, a))
  {
    hide Inv, Responded, Received, Dropped, Recovered, AbortStream;
    if a.i < |s.streams| {
      match a.event
      case Opens(ok, header, writable) => OpenKeeps(s, a.i, ok, header, writable);
      case Receives(message) => MessageKeeps(s, log, a.i, message);
      case Drops => DropKeeps(s, a.i);
      case Recovers(visible) => AskKeeps(s, a.i, visible);
      case RecoveryRuns => RecoverKeeps(s, a.i);
      case Stops => AbortKeeps(s, a.i);
    }
  }

  lemma AskKeeps(s: State, i: nat, visible: bool)
    requires Inv(s) && i < |s.streams|
    ensures Inv(Asked(s, i, visible))
  {
    if !s.streams[i].aborted {
      KeptRepaint(s, i);
      FlagsKeep(s, i, s.streams[i].(recovering := true), []);
      assert s.delivered + [] == s.delivered;
    }
  }

  lemma {:induction false} RunKeeps(repaint: bool, log: nat -> WireEvent, actions: seq<Action>)
    ensures Inv(Run(Fresh(repaint), log, actions))
  {
    if actions != [] {
      RunKeeps(repaint, log, actions[..|actions| - 1]);
      hide Inv, Next;
      NextKeeps(Run(Fresh(repaint), log, actions[..|actions| - 1]), log, actions[|actions| - 1]);
    }
  }

  /** Over every run of responses, replays, drops, recoveries and stops: the log
      events delivered are one contiguous segment up to the newest stream's cursor, in
      order and each once, and every older stream is aborted. It starts at the cursor
      the first response fixed, or, when that was no number, with the first event. */
  lemma ExactlyOnce(repaint: bool, log: nat -> WireEvent, actions: seq<Action>)
    ensures var s := Run(Fresh(repaint), log, actions);
      && s.streams != [] && s.start <= Reached(s)
      && Positions(s.delivered) == Range(s.start, Reached(s))
      && forall i :: 0 <= i < |s.streams| - 1 ==> s.streams[i].aborted
  {
    RunKeeps(repaint, log, actions);
  }

  /** Without a repaint the segment starts at the beginning of the log. */
  lemma {:induction false} StartsAtZero(log: nat -> WireEvent, actions: seq<Action>)
    ensures var s := Run(Fresh(false), log, actions);
      s.start == 0 && forall stream <- s.streams :: !stream.repaint && stream.last.At?
  {
    if actions != [] {
      StartsAtZero(log, actions[..|actions| - 1]);
    }
  }

  // ---- Nothing after the end ----

  /** Every stream was aborted: an exit, an error, a gap, or the client's stop. */
  predicate Over(s: State) {
    forall i :: 0 <= i < |s.streams| ==> s.streams[i].aborted
  }

  lemma OverStays(s: State, log: nat -> WireEvent, a: Action)
    requires Over(s)
    ensures Over(Next(s, log, a)) && Next(s, log, a).delivered == s.delivered
  {
  }

  lemma {:induction false} NothingAfterTheEnd(s: State, log: nat -> WireEvent, actions: seq<Action>)
    requires Over(s)
    ensures Over(Run(s, log, actions)) && Run(s, log, actions).delivered == s.delivered
  {
    if actions != [] {
      NothingAfterTheEnd(s, log, actions[..|actions| - 1]);
      hide Over, Next;
      OverStays(Run(s, log, actions[..|actions| - 1]), log, actions[|actions| - 1]);
    }
  }

  /** A message that ends the session: unusable, past a gap, or the last event. */
  predicate EndsSession(stream: Stream, log: nat -> WireEvent, message: Message) {
    match message
    case Blank => false
    case NotJson => true
    case Numbered(None) => true
    case Numbered(Some(number)) =>
      || number < 1 || number > MAX_SAFE_INTEGER
      || (stream.last.At? && number > stream.last.n + 1)
      || ((stream.last.At? ==> number == stream.last.n + 1) && (log(number - 1).Exit? || log(number - 1).Error?))
  }

  /** Such a message for the newest stream ends everything, whatever happens afterwards. */
  lemma EndEndsForGood(repaint: bool, log: nat -> WireEvent, before: seq<Action>, message: Message, after: seq<Action>)
    requires var s := Run(Fresh(repaint), log, before);
      s.streams != [] && Live(s).open && EndsSession(Live(s), log, message)
    ensures var s := Run(Fresh(repaint), log, before);
      var ended := Received(s, log, |s.streams| - 1, message);
      Over(ended) && Run(ended, log, after).delivered == ended.delivered
  {
    RunKeeps(repaint, log, before);
    var s := Run(Fresh(repaint), log, before);
    hide Run, Positions, Range;
    var ended := Received(s, log, |s.streams| - 1, message);
    assert Over(ended);
    NothingAfterTheEnd(ended, log, after);
  }

  // ---- The streams of one session ----

  class Streams {
    var streams: seq<Stream>
    var delivered: seq<Delivery>
    ghost var start: nat

    ghost function Abs(): (s: State)
      reads this
    {
      State(streams, delivered, start)
    }

    constructor (repaint: bool)
      ensures Abs() == Fresh(repaint)
    {
      streams, delivered := [Stream(At(0), false, repaint, false, false)], [];
      start := 0;
    }

    method Abort(i: nat)
      requires i < |streams|
      modifies this`streams
      ensures Abs() == AbortStream(old(Abs()), i)
    {
      streams := streams[i := streams[i].(aborted := true)];
    }

    method Fail(i: nat)
      requires i < |streams|
      modifies this`streams, this`delivered
      ensures Abs() == FailStream(old(Abs()), i)
    {
      if !streams[i].aborted {
        delivered := delivered + [Failure];
        Abort(i);
      }
    }

    method OnOpen(i: nat, ok: bool, header: Option<Cursor>, writable: bool)
      requires i < |streams| && !streams[i].aborted && !streams[i].open
      modifies this
      ensures Abs() == Responded(old(Abs()), i, ok, header, writable)
    {
      if !ok {
        Fail(i);
        return;
      }
      var stream := streams[i].(open := true);
      if stream.repaint {
        var last := if header.Some? then header.value else stream.last;
        stream := stream.(last := last, repaint := false);
        start := StartOf(last);
      }
      streams := streams[i := stream];
      delivered := delivered + [Control(writable)];
    }

    method OnMessage(i: nat, log: nat -> WireEvent, message: Message)
      requires i < |streams| && (streams[i].aborted || streams[i].open)
      modifies this
      ensures Abs() == Received(old(Abs()), log, i, message)
    {
      var stream := streams[i];
      if stream.aborted || message.Blank? {
        return;
      }
      if message.NotJson? || message.number.None? || message.number.value < 1
        || message.number.value > MAX_SAFE_INTEGER {
        Fail(i);
        return;
      }
      var number := message.number.value;
      if stream.last.At? && number <= stream.last.n {
        return;
      }
      if stream.last.At? && number > stream.last.n + 1 {
        Fail(i);
        return;
      }
      var event := log(number - 1);
      if event.Unreadable? {
        streams := streams[i := stream.(open := false)];
        return;
      }
      delivered := delivered + [Wire(number - 1)];
      streams := streams[i := stream.(last := At(number))];
      start := if stream.last.At? then start else number - 1;
      if event.Exit? || event.Error? {
        Abort(i);
      }
    }

    method Recover(i: nat)
      requires i < |streams|
      modifies this`streams
      ensures Abs() == Recovered(old(Abs()), i)
    {
      if !streams[i].recovering || streams[i].aborted {
        return;
      }
      var last := streams[i].last;
      Abort(i);
      streams := streams + [Stream(last, false, false, false, false)];
    }
  }
}
