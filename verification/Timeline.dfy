/** The timeline of one stream run: a list of events built up from the agents' output. */
module Timeline {
  import opened Prelude

  type Text = string
  type AgentId = string
  type MessageId = nat
  type Timestamp = nat

  /** An event's id; its constructor is the event's type. Every run has its own
      timeline, so the stream id every key carries is left out. */
  datatype EventId =
    | DraftId(agent: AgentId, n: nat)
    | ReasoningId(agent: AgentId, n: nat)
    | StartId(agent: AgentId, round: nat, index: nat)
    | MessageKey(message: MessageId)
    | CompleteId(message: MessageId)
    | ToolId(call: nat)
    | TodoId(agent: AgentId)
    | ExternalId(run: nat)
    | NoticeId(kind: NoticeKind, n: nat, time: Timestamp)
    | ErrorId(time: Timestamp)
    | CancelledId(time: Timestamp)
    | DoneId

  datatype NoticeKind = Warning | AgentSilent | WaitingForUser | ApprovalRequired

  /** `streaming` is the status of drafts and reasoning; `detail` stands for the
      other fields an event carries. */
  datatype Event = Event(id: EventId, agent: Option<AgentId>, content: Text, streaming: bool,
                         message: Option<MessageId>, detail: nat)

  type Events = seq<Event>

  const UNKNOWN_AGENT := "unknown-agent"

  predicate IsDraftOf(e: Event, agent: AgentId) {
    e.id.DraftId? && e.agent == Some(agent)
  }

  predicate IsOpenDraftOf(e: Event, agent: AgentId) {
    IsDraftOf(e, agent) && e.streaming
  }

  // ---- Edits ----

  /** `upsertTimelineEvent`: replaces the first event of that id or appends. */
  function Upsert(events: Events, e: Event): (r: Events)
    ensures |r| >= |events|
  {
    if events == [] then [e]
    else if events[0].id == e.id then [e] + events[1..]
    else [events[0]] + Upsert(events[1..], e)
  }

  /** Closes the agent's latest reasoning block if it is still open. */
  function MarkReasoningDone(events: Events, agent: AgentId): (r: Events)
    ensures |r| == |events|
  {
    if events == [] then []
    else
      var n := |events| - 1;
      if events[n].id.ReasoningId? && events[n].agent == Some(agent) then
        events[..n] + [events[n].(streaming := false)]
      else MarkReasoningDone(events[..n], agent) + [events[n]]
  }

  /** Appends a text delta, opening a new segment after anything else. */
  function AppendText(events: Events, agent: AgentId, delta: Text): (r: Events)
  {
    var marked := MarkReasoningDone(events, agent);
    var n := |marked|;
    if n > 0 && IsOpenDraftOf(marked[n - 1], agent) then
      marked[n - 1 := marked[n - 1].(content := marked[n - 1].content + delta)]
    else marked + [Event(DraftId(agent, n), Some(agent), delta, true, None, 0)]
  }

  function AppendReasoning(events: Events, agent: AgentId, delta: Text): (r: Events)
  {
    var n := |events|;
    if n > 0 && events[n - 1].id.ReasoningId? && events[n - 1].agent == Some(agent) && events[n - 1].streaming then
      events[n - 1 := events[n - 1].(content := events[n - 1].content + delta)]
    else events + [Event(ReasoningId(agent, n), Some(agent), delta, true, None, 0)]
  }

  /** `clearStreamingStreamDraft`. */
  function ClearDraft(events: Events, agent: AgentId): (r: Events)
    ensures forall e <- r :: e in events
  {
    if events == [] then []
    else if IsOpenDraftOf(events[0], agent) then ClearDraft(events[1..], agent)
    else [events[0]] + ClearDraft(events[1..], agent)
  }

  /** A notice closes the reasoning of the agent it names. */
  function AppendNotice(events: Events, kind: NoticeKind, agent: Option<AgentId>, time: Timestamp, detail: nat)
    : (r: Events)
  {
    var base := if agent.Some? && agent.value != "" then MarkReasoningDone(events, agent.value) else events;
    base + [Event(NoticeId(kind, |events|, time), agent, "", false, None, detail)]
  }

  /** The open segments of an agent, in order. */
  function OpenDrafts(events: Events, agent: AgentId): (s: Events)
    ensures forall e <- s :: e in events && IsOpenDraftOf(e, agent)
  {
    if events == [] then []
    else if IsOpenDraftOf(events[0], agent) then [events[0]] + OpenDrafts(events[1..], agent)
    else OpenDrafts(events[1..], agent)
  }

  function Joined(events: Events): (t: Text)
  {
    if events == [] then "" else events[0].content + Joined(events[1..])
  }

  function FinalContent(prior: Text, content: Text): (t: Text)
  {
    if prior != "" && prior <= content then content[|prior|..] else content
  }

  /** Every draft of the agent becomes final; the one with id `last` takes `text`. */
  function CloseDrafts(events: Events, agent: AgentId, last: EventId, text: Text, message: MessageId): (r: Events)
    ensures |r| == |events|
  {
    if events == [] then []
    else
      var e := events[0];
      [if !IsDraftOf(e, agent) then e
       else if e.id == last then e.(content := text, streaming := false, message := Some(message))
       else e.(streaming := false)]
      + CloseDrafts(events[1..], agent, last, text, message)
  }

  /** `finalizeStreamDraft` on the timeline. */
  function Finalize(events: Events, agent: AgentId, message: MessageId, content: Text): (r: Events)
    ensures |r| >= |events|
  {
    var marked := MarkReasoningDone(events, agent);
    var segments := OpenDrafts(marked, agent);
    if segments == [] then
      Upsert(marked, Event(MessageKey(message), Some(agent), content, false, Some(message), 0))
    else
      var n := |segments| - 1;
      Upsert(CloseDrafts(marked, agent, segments[n].id, FinalContent(Joined(segments[..n]), content), message),
             Event(CompleteId(message), Some(agent), "", false, Some(message), 0))
  }

  // ---- What is on screen for an agent ----

  /** The text of the agent's open segments. */
  function OpenText(events: Events, agent: AgentId): (t: Text)
  {
    Joined(OpenDrafts(events, agent))
  }

  lemma {:induction false} JoinedAppend(a: Events, b: Events)
    ensures Joined(a + b) == Joined(a) + Joined(b)
  {
    if a == [] {
      assert a + b == b;
    } else {
      assert (a + b)[1..] == a[1..] + b;
      JoinedAppend(a[1..], b);
    }
  }

  lemma {:induction false} OpenAppend(a: Events, b: Events, agent: AgentId)
    ensures OpenDrafts(a + b, agent) == OpenDrafts(a, agent) + OpenDrafts(b, agent)
  {
    if a == [] {
      assert a + b == b;
    } else {
      assert (a + b)[1..] == a[1..] + b;
      OpenAppend(a[1..], b, agent);
    }
  }

  lemma OpenSnoc(a: Events, e: Event, agent: AgentId)
    ensures OpenDrafts(a + [e], agent) == OpenDrafts(a, agent) + if IsOpenDraftOf(e, agent) then [e] else []
    ensures OpenText(a + [e], agent) == OpenText(a, agent) + if IsOpenDraftOf(e, agent) then e.content else ""
  {
    OpenAppend(a, [e], agent);
    assert OpenDrafts([e], agent) == if IsOpenDraftOf(e, agent) then [e] else [];
    JoinedAppend(OpenDrafts(a, agent), OpenDrafts([e], agent));
    assert Joined([e]) == e.content;
  }

  lemma {:induction false} ReasoningKeepsText(events: Events, of: AgentId, agent: AgentId)
    ensures OpenDrafts(MarkReasoningDone(events, of), agent) == OpenDrafts(events, agent)
  {
    if events != [] {
      var n := |events| - 1;
      assert events == events[..n] + [events[n]];
      OpenSnoc(events[..n], events[n], agent);
      if events[n].id.ReasoningId? && events[n].agent == Some(of) {
        OpenSnoc(events[..n], events[n].(streaming := false), agent);
      } else {
        ReasoningKeepsText(events[..n], of, agent);
        OpenSnoc(MarkReasoningDone(events[..n], of), events[n], agent);
      }
    }
  }

  lemma {:induction false} UpsertKeepsText(events: Events, e: Event, agent: AgentId)
    requires !e.id.DraftId?
    ensures OpenDrafts(Upsert(events, e), agent) == OpenDrafts(events, agent)
  {
    if events != [] {
      if events[0].id == e.id {
        assert ([e] + events[1..])[1..] == events[1..];
      } else {
        UpsertKeepsText(events[1..], e, agent);
        assert ([events[0]] + Upsert(events[1..], e))[1..] == Upsert(events[1..], e);
      }
    }
  }

  lemma LastReplaced(events: Events, last: Event, agent: AgentId)
    requires events != []
    ensures var n := |events| - 1;
      && OpenText(events, agent)
        == OpenText(events[..n], agent) + (if IsOpenDraftOf(events[n], agent) then events[n].content else "")
      && OpenText(events[n := last], agent)
        == OpenText(events[..n], agent) + (if IsOpenDraftOf(last, agent) then last.content else "")
  {
    var n := |events| - 1;
    assert events == events[..n] + [events[n]] && events[n := last] == events[..n] + [last];
    hide OpenText;
    OpenSnoc(events[..n], events[n], agent);
    OpenSnoc(events[..n], last, agent);
  }

  /** A delta lands at the end of its agent's text and nowhere else. */
  lemma TextGrows(events: Events, agent: AgentId, delta: Text, other: AgentId)
    ensures OpenText(AppendText(events, agent, delta), other)
      == if other == agent then OpenText(events, agent) + delta else OpenText(events, other)
  {
    var marked := MarkReasoningDone(events, agent);
    assert OpenText(marked, other) == OpenText(events, other) by { ReasoningKeepsText(events, agent, other); }
    hide OpenText, MarkReasoningDone;
    var n := |marked|;
    if n > 0 && IsOpenDraftOf(marked[n - 1], agent) {
      LastReplaced(marked, marked[n - 1].(content := marked[n - 1].content + delta), other);
    } else {
      OpenSnoc(marked, Event(DraftId(agent, n), Some(agent), delta, true, None, 0), other);
    }
  }

  /** Reasoning, notices and tools leave every agent's text alone. */
  lemma ReasoningLeavesText(events: Events, agent: AgentId, delta: Text, other: AgentId)
    ensures OpenText(AppendReasoning(events, agent, delta), other) == OpenText(events, other)
  {
    var n := |events|;
    if n > 0 {
      assert events == events[..n - 1] + [events[n - 1]];
      OpenSnoc(events[..n - 1], events[n - 1], other);
      OpenSnoc(events[..n - 1], events[n - 1].(content := events[n - 1].content + delta), other);
      assert events[n - 1 := events[n - 1].(content := events[n - 1].content + delta)]
        == events[..n - 1] + [events[n - 1].(content := events[n - 1].content + delta)];
    }
    OpenSnoc(events, Event(ReasoningId(agent, n), Some(agent), delta, true, None, 0), other);
  }

  lemma NoticeLeavesText(events: Events, kind: NoticeKind, agent: Option<AgentId>, time: Timestamp, detail: nat,
      other: AgentId)
    ensures OpenText(AppendNotice(events, kind, agent, time, detail), other) == OpenText(events, other)
  {
    var e := Event(NoticeId(kind, |events|, time), agent, "", false, None, detail);
    OpenSnoc(events, e, other);
    if agent.Some? {
      ReasoningKeepsText(events, agent.value, other);
      OpenSnoc(MarkReasoningDone(events, agent.value), e, other);
    }
  }

  lemma {:induction false} ClearedText(events: Events, agent: AgentId, other: AgentId)
    ensures OpenDrafts(ClearDraft(events, agent), other) == if other == agent then [] else OpenDrafts(events, other)
  {
    if events != [] {
      ClearedText(events[1..], agent, other);
      if !IsOpenDraftOf(events[0], agent) {
        assert ([events[0]] + ClearDraft(events[1..], agent))[1..] == ClearDraft(events[1..], agent);
      }
    }
  }

  // ---- Finalizing ----

  lemma {:induction false} ClosedText(events: Events, agent: AgentId, last: EventId, text: Text, message: MessageId,
      other: AgentId)
    ensures OpenDrafts(CloseDrafts(events, agent, last, text, message), other)
      == if other == agent then [] else OpenDrafts(events, other)
  {
    if events != [] {
      ClosedText(events[1..], agent, last, text, message, other);
      var r := CloseDrafts(events, agent, last, text, message);
      assert r[1..] == CloseDrafts(events[1..], agent, last, text, message);
    }
  }

  lemma FinalizedText(events: Events, agent: AgentId, message: MessageId, content: Text, other: AgentId)
    ensures OpenText(Finalize(events, agent, message, content), other)
      == if other == agent then "" else OpenText(events, other)
  {
    var marked := MarkReasoningDone(events, agent);
    ReasoningKeepsText(events, agent, other);
    var segments := OpenDrafts(marked, agent);
    if segments == [] {
      UpsertKeepsText(marked, Event(MessageKey(message), Some(agent), content, false, Some(message), 0), other);
    } else {
      var n := |segments| - 1;
      var text := FinalContent(Joined(segments[..n]), content);
      ClosedText(marked, agent, segments[n].id, text, message, other);
      UpsertKeepsText(CloseDrafts(marked, agent, segments[n].id, text, message),
        Event(CompleteId(message), Some(agent), "", false, Some(message), 0), other);
    }
  }

  /** The texts that `shown` has at the places where `events` had open segments. */
  function TextAt(events: Events, shown: Events, agent: AgentId): (t: Text)
    requires |shown| >= |events|
  {
    if events == [] then ""
    else (if IsOpenDraftOf(events[0], agent) then shown[0].content else "") + TextAt(events[1..], shown[1..], agent)
  }

  /** No two drafts of the agent have the same id. */
  predicate DraftIdsDistinct(events: Events, agent: AgentId) {
    forall i, j :: 0 <= i < j < |events| && IsDraftOf(events[i], agent) && IsDraftOf(events[j], agent)
      ==> events[i].id != events[j].id
  }

  lemma HeadDiffers(events: Events, agent: AgentId)
    requires events != [] && IsOpenDraftOf(events[0], agent) && DraftIdsDistinct(events, agent)
    ensures forall e <- OpenDrafts(events[1..], agent) :: e.id != events[0].id
  {
    forall e <- OpenDrafts(events[1..], agent) ensures e.id != events[0].id {
      assert e in events[1..];
      var j :| 0 <= j < |events[1..]| && events[1..][j] == e;
      assert events[j + 1] == e;
    }
  }

  lemma TailDistinct(events: Events, agent: AgentId)
    requires events != [] && DraftIdsDistinct(events, agent)
    ensures DraftIdsDistinct(events[1..], agent)
  {
    assert forall i :: 0 <= i < |events[1..]| ==> events[1..][i] == events[i + 1];
  }

  /** The texts of a list of segments with the one called `last` replaced by `text`. */
  function Retold(open: Events, last: EventId, text: Text): (t: Text)
  {
    if open == [] then "" else (if open[0].id == last then text else open[0].content) + Retold(open[1..], last, text)
  }

  lemma {:induction false} ClosedRetells(events: Events, agent: AgentId, last: EventId, text: Text, message: MessageId)
    ensures TextAt(events, CloseDrafts(events, agent, last, text, message), agent)
      == Retold(OpenDrafts(events, agent), last, text)
  {
    if events != [] {
      assert CloseDrafts(events, agent, last, text, message)[1..]
        == CloseDrafts(events[1..], agent, last, text, message);
      ClosedRetells(events[1..], agent, last, text, message);
      if IsOpenDraftOf(events[0], agent) {
        assert ([events[0]] + OpenDrafts(events[1..], agent))[1..] == OpenDrafts(events[1..], agent);
      }
    }
  }

  lemma {:induction false} RetoldLast(open: Events, text: Text)
    requires open != [] && forall i :: 0 <= i < |open| - 1 ==> open[i].id != open[|open| - 1].id
    ensures Retold(open, open[|open| - 1].id, text) == Joined(open[..|open| - 1]) + text
  {
    var n := |open| - 1;
    if n == 0 {
      assert Retold(open[1..], open[0].id, text) == "";
    } else {
      assert open[1..][n - 1] == open[n];
      assert forall i :: 0 <= i < n - 1 ==> open[1..][i] == open[i + 1];
      RetoldLast(open[1..], text);
      assert open[..n][1..] == open[1..][..n - 1];
    }
  }

  lemma {:induction false} OpenIdsDistinct(events: Events, agent: AgentId)
    requires DraftIdsDistinct(events, agent)
    ensures forall i, j :: 0 <= i < j < |OpenDrafts(events, agent)| ==>
      OpenDrafts(events, agent)[i].id != OpenDrafts(events, agent)[j].id
  {
    if events != [] {
      TailDistinct(events, agent);
      if IsOpenDraftOf(events[0], agent) {
        HeadDiffers(events, agent);
      }
      hide DraftIdsDistinct;
      OpenIdsDistinct(events[1..], agent);
    }
  }

  lemma {:induction false} UpsertShows(base: Events, events: Events, e: Event, agent: AgentId)
    requires |events| >= |base| && !e.id.DraftId?
    requires forall i :: 0 <= i < |base| ==> (IsOpenDraftOf(base[i], agent) ==> events[i].id.DraftId?)
    ensures |Upsert(events, e)| >= |base|
    ensures TextAt(base, Upsert(events, e), agent) == TextAt(base, events, agent)
  {
    if base != [] {
      assert forall i :: 0 <= i < |base[1..]| ==> base[1..][i] == base[i + 1] && events[1..][i] == events[i + 1];
      if events[0].id == e.id {
        assert ([e] + events[1..])[1..] == events[1..];
      } else {
        assert ([events[0]] + Upsert(events[1..], e))[1..] == Upsert(events[1..], e);
        UpsertShows(base[1..], events[1..], e, agent);
      }
    }
  }

  lemma {:induction false} MarkedSame(events: Events, of: AgentId)
    ensures forall i :: 0 <= i < |events| ==> SameDraft(events[i], MarkReasoningDone(events, of)[i])
  {
    if events != [] {
      MarkedSame(events[..|events| - 1], of);
    }
  }

  /** Same event, or the same reasoning block closed. */
  predicate SameDraft(a: Event, b: Event) {
    a == b || (a.id.ReasoningId? && b == a.(streaming := false))
  }

  lemma {:induction false} TextAtSame(a: Events, b: Events, shown: Events, agent: AgentId)
    requires |a| == |b| <= |shown|
    requires forall i :: 0 <= i < |a| ==> SameDraft(a[i], b[i])
    ensures TextAt(a, shown, agent) == TextAt(b, shown, agent)
  {
    if a != [] {
      assert forall i :: 0 <= i < |a[1..]| ==> a[1..][i] == a[i + 1] && b[1..][i] == b[i + 1];
      TextAtSame(a[1..], b[1..], shown[1..], agent);
    }
  }

  lemma {:induction false} ClosedAreDrafts(events: Events, agent: AgentId, last: EventId, text: Text,
      message: MessageId)
    ensures forall i :: 0 <= i < |events| ==> CloseDrafts(events, agent, last, text, message)[i].id == events[i].id
  {
    if events != [] {
      ClosedAreDrafts(events[1..], agent, last, text, message);
    }
  }

  /** The text of the segments before the last one. */
  function PriorText(events: Events, agent: AgentId): (t: Text)
    requires OpenDrafts(events, agent) != []
  {
    Joined(OpenDrafts(events, agent)[..|OpenDrafts(events, agent)| - 1])
  }

  /** The last open segment's id belongs to no other open segment. */
  predicate LastOpenUnique(events: Events, agent: AgentId) {
    var open := OpenDrafts(events, agent);
    open != [] && forall i :: 0 <= i < |open| - 1 ==> open[i].id != open[|open| - 1].id
  }

  lemma DistinctMakesUnique(events: Events, agent: AgentId)
    requires OpenDrafts(events, agent) != [] && DraftIdsDistinct(events, agent)
    ensures LastOpenUnique(events, agent)
  {
    OpenIdsDistinct(events, agent);
  }

  /** Finalizing shows exactly the message in the agent's segments, if and only if
      what the earlier segments already show is the beginning of the message. */
  lemma FinalizedShows(events: Events, agent: AgentId, message: MessageId, content: Text)
    requires LastOpenUnique(events, agent)
    ensures var shown := Finalize(events, agent, message, content);
      && |shown| >= |events|
      && (TextAt(events, shown, agent) == content <==> PriorText(events, agent) <= content)
  {
    var marked := MarkReasoningDone(events, agent);
    ReasoningKeepsText(events, agent, agent);
    MarkedSame(events, agent);
    var segments := OpenDrafts(marked, agent);
    var n := |segments| - 1;
    var prior := Joined(segments[..n]);
    var text := FinalContent(prior, content);
    var closed := CloseDrafts(marked, agent, segments[n].id, text, message);
    var e := Event(CompleteId(message), Some(agent), "", false, Some(message), 0);
    ClosedRetells(marked, agent, segments[n].id, text, message);
    RetoldLast(segments, text);
    ClosedAreDrafts(marked, agent, segments[n].id, text, message);
    UpsertShows(marked, closed, e, agent);
    TextAtSame(events, marked, Upsert(closed, e), agent);
    hide TextAt, Joined, OpenDrafts, CloseDrafts, Upsert, MarkReasoningDone;
    FinalMeets(prior, content);
  }

  lemma FinalMeets(prior: Text, content: Text)
    ensures prior + FinalContent(prior, content) == content <==> prior <= content
  {
    if prior != "" && !(prior <= content) {
      assert |prior + content| > |content|;
    }
  }

  // ---- Edits as a run performs them ----

  type OtherEvent = e: Event | !e.id.DraftId? && !e.id.ReasoningId?
    witness Event(DoneId, None, "", false, None, 0)

  datatype Edit =
    | Say(agent: AgentId, delta: Text)
    | Think(agent: AgentId, delta: Text)
    | Put(event: OtherEvent, closes: Option<AgentId>)
    | Note(kind: NoticeKind, from: Option<AgentId>, time: Timestamp, detail: nat)
    | Mark(mark: OtherEvent)
    | Usage(agent: AgentId, detail: nat)
    | Complete(agent: AgentId, message: MessageId, content: Text)
    | Clear(agent: AgentId)

  /** Patches the agent's latest `agent_start`. */
  function SetUsage(events: Events, agent: AgentId, detail: nat): (r: Events)
    ensures |r| == |events|
  {
    if events == [] then []
    else
      var n := |events| - 1;
      if events[n].id.StartId? && events[n].agent == Some(agent) then events[..n] + [events[n].(detail := detail)]
      else SetUsage(events[..n], agent, detail) + [events[n]]
  }

  function Apply(events: Events, edit: Edit): (r: Events)
  {
    match edit
    case Say(agent, delta) => AppendText(events, agent, delta)
    case Think(agent, delta) => AppendReasoning(events, agent, delta)
    case Put(event, closes) =>
      Upsert(if closes.Some? then MarkReasoningDone(events, closes.value) else events, event)
    case Note(kind, from, time, detail) => AppendNotice(events, kind, from, time, detail)
    case Mark(mark) => events + [mark]
    case Usage(agent, detail) => SetUsage(events, agent, detail)
    case Complete(agent, message, content) => Finalize(events, agent, message, content)
    case Clear(agent) => ClearDraft(events, agent)
  }

  function ApplyAll(events: Events, edits: seq<Edit>): (r: Events)
  {
    if edits == [] then events else Apply(ApplyAll(events, edits[..|edits| - 1]), edits[|edits| - 1])
  }

  /** Plain accumulation: what an agent said since it last completed or fell silent. */
  function Spoken(said: Text, agent: AgentId, edit: Edit): (t: Text)
  {
    match edit
    case Say(a, delta) => if a == agent then said + delta else said
    case Complete(a, _, _) => if a == agent then "" else said
    case Clear(a) => if a == agent then "" else said
    case _ => said
  }

  function SpokenAll(edits: seq<Edit>, agent: AgentId): (t: Text)
  {
    if edits == [] then "" else Spoken(SpokenAll(edits[..|edits| - 1], agent), agent, edits[|edits| - 1])
  }

  lemma {:induction false} UsageKeepsText(events: Events, of: AgentId, detail: nat, agent: AgentId)
    ensures OpenDrafts(SetUsage(events, of, detail), agent) == OpenDrafts(events, agent)
  {
    if events != [] {
      var n := |events| - 1;
      assert events == events[..n] + [events[n]];
      OpenSnoc(events[..n], events[n], agent);
      if events[n].id.StartId? && events[n].agent == Some(of) {
        OpenSnoc(events[..n], events[n].(detail := detail), agent);
      } else {
        UsageKeepsText(events[..n], of, detail, agent);
        OpenSnoc(SetUsage(events[..n], of, detail), events[n], agent);
      }
    }
  }

  lemma EditSpeaks(events: Events, edit: Edit, agent: AgentId)
    ensures OpenText(Apply(events, edit), agent) == Spoken(OpenText(events, agent), agent, edit)
  {
    hide OpenDrafts, AppendText, AppendReasoning, AppendNotice, Finalize, ClearDraft, Upsert, MarkReasoningDone;
    hide SetUsage;
    match edit
    case Say(a, delta) => TextGrows(events, a, delta, agent);
    case Think(a, delta) => ReasoningLeavesText(events, a, delta, agent);
    case Put(event, closes) =>
      if closes.Some? {
        ReasoningKeepsText(events, closes.value, agent);
        UpsertKeepsText(MarkReasoningDone(events, closes.value), event, agent);
      } else {
        UpsertKeepsText(events, event, agent);
      }
    case Note(kind, from, time, detail) => NoticeLeavesText(events, kind, from, time, detail, agent);
    case Mark(mark) => OpenSnoc(events, mark, agent);
    case Usage(a, detail) => UsageKeepsText(events, a, detail, agent);
    case Complete(a, message, content) => FinalizedText(events, a, message, content, agent);
    case Clear(a) => ClearedText(events, a, agent);
  }

  /** The segmented timeline refines plain accumulation: whatever edits interleave,
      an agent's open segments spell exactly what it said. */
  lemma {:induction false} SegmentsSpellSpeech(edits: seq<Edit>, agent: AgentId)
    ensures OpenText(ApplyAll([], edits), agent) == SpokenAll(edits, agent)
  {
    if edits != [] {
      var before := edits[..|edits| - 1];
      SegmentsSpellSpeech(before, agent);
      hide OpenText, Apply;
      EditSpeaks(ApplyAll([], before), edits[|edits| - 1], agent);
    }
  }

  // ---- What single edits leave ----

  predicate FirstOf(events: Events, id: EventId, i: nat) {
    i < |events| && events[i].id == id && forall j :: 0 <= j < i ==> events[j].id != id
  }

  /** An upsert puts the event in place of the first one of its id, or at the end. */
  lemma {:induction false} UpsertPutsIt(events: Events, e: Event)
    ensures forall i :: 0 <= i < |events| && FirstOf(events, e.id, i) ==> Upsert(events, e) == events[i := e]
    ensures (forall d <- events :: d.id != e.id) ==> Upsert(events, e) == events + [e]
  {
    if events != [] && events[0].id != e.id {
      UpsertPutsIt(events[1..], e);
      forall i | 0 <= i < |events| && FirstOf(events, e.id, i) ensures Upsert(events, e) == events[i := e] {
        assert forall j :: 0 <= j < i - 1 ==> events[1..][j] == events[j + 1];
        assert FirstOf(events[1..], e.id, i - 1);
        assert events[i := e] == [events[0]] + events[1..][i - 1 := e];
      }
      assert events + [e] == [events[0]] + (events[1..] + [e]);
    } else if events != [] {
      assert events[0 := e] == [e] + events[1..];
      assert events[0] in events;
    }
  }

  /** The agent's latest reasoning block. */
  predicate LatestThought(events: Events, agent: AgentId, i: nat) {
    && i < |events| && events[i].id.ReasoningId? && events[i].agent == Some(agent)
    && forall j :: i < j < |events| ==> !(events[j].id.ReasoningId? && events[j].agent == Some(agent))
  }

  lemma {:induction false} LatestThoughtEnds(events: Events, agent: AgentId)
    ensures var r := MarkReasoningDone(events, agent);
      forall i :: 0 <= i < |events| ==>
        r[i] == if LatestThought(events, agent, i) then events[i].(streaming := false) else events[i]
  {
    if events != [] {
      var n := |events| - 1;
      if !(events[n].id.ReasoningId? && events[n].agent == Some(agent)) {
        LatestThoughtEnds(events[..n], agent);
        forall i | 0 <= i < n ensures LatestThought(events, agent, i) <==> LatestThought(events[..n], agent, i) {
          assert forall j :: i < j < n ==> events[..n][j] == events[j];
        }
      }
    }
  }

  /** The event with this one, the agent's latest thought, closed. */
  function Ended(events: Events, agent: AgentId, i: nat): Event
    requires i < |events|
  {
    if LatestThought(events, agent, i) then events[i].(streaming := false) else events[i]
  }

  /** A delta lands in the agent's open segment at the end, or opens one there; it ends the
      agent's latest thought and touches nothing else. */
  lemma SpeechLands(events: Events, agent: AgentId, delta: Text)
    ensures var r, n := AppendText(events, agent, delta), |events|;
      && (forall i :: 0 <= i < n - 1 ==> r[i] == Ended(events, agent, i))
      && (if n > 0 && IsOpenDraftOf(events[n - 1], agent)
          then |r| == n && r[n - 1] == events[n - 1].(content := events[n - 1].content + delta)
          else
            && |r| == n + 1 && (n > 0 ==> r[n - 1] == Ended(events, agent, n - 1))
            && r[n] == Event(DraftId(agent, n), Some(agent), delta, true, None, 0))
  {
    LatestThoughtEnds(events, agent);
    hide MarkReasoningDone, LatestThought;
    if events != [] {
      ThoughtIsReasoning(events, agent, |events| - 1);
    }
  }

  lemma ThoughtIsReasoning(events: Events, agent: AgentId, i: nat)
    requires i < |events|
    ensures LatestThought(events, agent, i) ==> events[i].id.ReasoningId?
  {
  }

  /** A new event comes last and ends the latest thought of the agent it closes, if any. */
  lemma NewEventLands(events: Events, e: OtherEvent, closes: Option<AgentId>)
    requires forall d <- events :: d.id != e.id
    ensures var r := Apply(events, Put(e, closes));
      && |r| == |events| + 1 && r[|events|] == e
      && forall i :: 0 <= i < |events| ==>
           r[i] == if closes.Some? then Ended(events, closes.value, i) else events[i]
  {
    var base := if closes.Some? then MarkReasoningDone(events, closes.value) else events;
    if closes.Some? {
      LatestThoughtEnds(events, closes.value);
    }
    hide MarkReasoningDone, LatestThought;
    forall d <- base ensures d.id != e.id {
      var i :| 0 <= i < |base| && base[i] == d;
      assert d.id == events[i].id && events[i] in events;
    }
    UpsertPutsIt(base, e);
  }

  /** A thought lands in the agent's open reasoning block at the end, or opens one there. */
  lemma ThoughtLands(events: Events, agent: AgentId, delta: Text)
    ensures var r := AppendReasoning(events, agent, delta); var n := |events| - 1;
      if n >= 0 && events[n].id.ReasoningId? && events[n].agent == Some(agent) && events[n].streaming
      then r == events[n := events[n].(content := events[n].content + delta)]
      else r == events + [Event(ReasoningId(agent, |events|), Some(agent), delta, true, None, 0)]
  {
  }

  /** A silent agent takes back what it had open, and nothing else goes. */
  lemma {:induction false} OnlyOpenDraftsGo(events: Events, agent: AgentId)
    ensures forall e :: e in ClearDraft(events, agent) <==> e in events && !IsOpenDraftOf(e, agent)
    ensures |ClearDraft(events, agent)| + |OpenDrafts(events, agent)| == |events|
  {
    if events != [] {
      OnlyOpenDraftsGo(events[1..], agent);
      assert forall e :: e in events <==> e == events[0] || e in events[1..];
    }
  }

  /** The usage goes to the agent's latest start. */
  lemma {:induction false} UsageGoesToStart(events: Events, agent: AgentId, detail: nat)
    ensures var r := SetUsage(events, agent, detail);
      forall i :: 0 <= i < |events| ==>
        r[i] == if LatestStart(events, agent, i) then events[i].(detail := detail) else events[i]
  {
    if events != [] {
      var n := |events| - 1;
      if !(events[n].id.StartId? && events[n].agent == Some(agent)) {
        UsageGoesToStart(events[..n], agent, detail);
        forall i | 0 <= i < n ensures LatestStart(events, agent, i) <==> LatestStart(events[..n], agent, i) {
          assert forall j :: i < j < n ==> events[..n][j] == events[j];
        }
      }
    }
  }

  predicate LatestStart(events: Events, agent: AgentId, i: nat) {
    && i < |events| && events[i].id.StartId? && events[i].agent == Some(agent)
    && forall j :: i < j < |events| ==> !(events[j].id.StartId? && events[j].agent == Some(agent))
  }

  /** A completed message of an agent without open segments stands there with its text. */
  lemma CompletedStands(events: Events, agent: AgentId, message: MessageId, content: Text)
    requires OpenDrafts(events, agent) == []
    ensures Event(MessageKey(message), Some(agent), content, false, Some(message), 0)
      in Finalize(events, agent, message, content)
  {
    var marked := MarkReasoningDone(events, agent);
    ReasoningKeepsText(events, agent, agent);
    var e := Event(MessageKey(message), Some(agent), content, false, Some(message), 0);
    UpsertHas(marked, e, e);
  }

  predicate Names(e: Event, agent: AgentId, message: MessageId, id: EventId) {
    IsDraftOf(e, agent) && !e.streaming && e.message == Some(message) && e.id == id
  }

  /** With open segments the last of them names the message, and a marker completes it. */
  lemma CompletedIsMarked(events: Events, agent: AgentId, message: MessageId, content: Text)
    requires OpenDrafts(events, agent) != []
    ensures var r := Finalize(events, agent, message, content); var open := OpenDrafts(events, agent);
      && Event(CompleteId(message), Some(agent), "", false, Some(message), 0) in r
      && exists e <- r :: Names(e, agent, message, open[|open| - 1].id)
  {
    var marked := MarkReasoningDone(events, agent);
    ReasoningKeepsText(events, agent, agent);
    var segments := OpenDrafts(marked, agent);
    var last := segments[|segments| - 1];
    var text := FinalContent(Joined(segments[..|segments| - 1]), content);
    var closed := CloseDrafts(marked, agent, last.id, text, message);
    var e := Event(CompleteId(message), Some(agent), "", false, Some(message), 0);
    var named := last.(content := text, streaming := false, message := Some(message));
    assert last in segments;
    hide MarkReasoningDone, OpenDrafts, CloseDrafts, Upsert, Joined, FinalContent;
    ClosedHas(marked, agent, last, text, message);
    UpsertHas(closed, e, named);
    UpsertHas(closed, e, e);
    assert Names(named, agent, message, last.id);
  }

  lemma {:induction false} UpsertHas(events: Events, e: Event, d: Event)
    requires d == e || (d in events && d.id != e.id)
    ensures d in Upsert(events, e)
  {
    if events != [] && events[0].id != e.id {
      if d == events[0] {
        assert Upsert(events, e)[0] == d;
      } else {
        UpsertHas(events[1..], e, d);
      }
    } else if events != [] && d != e {
      assert d in events[1..];
    }
  }

  lemma {:induction false} ClosedHas(events: Events, agent: AgentId, last: Event, text: Text, message: MessageId)
    requires last in events && IsDraftOf(last, agent)
    ensures last.(content := text, streaming := false, message := Some(message))
      in CloseDrafts(events, agent, last.id, text, message)
  {
    if events[0] != last {
      ClosedHas(events[1..], agent, last, text, message);
    }
  }

  /** The events of others are left as they are when an agent completes a message. */
  lemma {:induction false} OthersKept(events: Events, agent: AgentId, last: EventId, text: Text, message: MessageId)
    ensures forall i :: 0 <= i < |events| && !IsDraftOf(events[i], agent) ==>
      CloseDrafts(events, agent, last, text, message)[i] == events[i]
    ensures forall i :: 0 <= i < |events| && IsDraftOf(events[i], agent) && events[i].id != last ==>
      CloseDrafts(events, agent, last, text, message)[i] == events[i].(streaming := false)
  {
    if events != [] {
      OthersKept(events[1..], agent, last, text, message);
    }
  }

  /** A notice ends the list, and the reasoning of the agent it names. */
  lemma NoticeLands(events: Events, kind: NoticeKind, agent: Option<AgentId>, time: Timestamp, detail: nat)
    ensures var r := AppendNotice(events, kind, agent, time, detail);
      && |r| == |events| + 1 && r[|events|] == Event(NoticeId(kind, |events|, time), agent, "", false, None, detail)
      && forall i :: 0 <= i < |events| ==>
           r[i] == if agent.Some? && agent.value != "" && LatestThought(events, agent.value, i)
                   then events[i].(streaming := false) else events[i]
  {
    if agent.Some? {
      LatestThoughtEnds(events, agent.value);
    }
    hide LatestThought;
  }

  // ---- Draft ids ----

  /** Every draft carries the place it was opened at. */
  predicate Placed(events: Events) {
    forall i :: 0 <= i < |events| && events[i].id.DraftId? ==> events[i].id.n == i
  }

  lemma {:induction false} UpsertPlaces(events: Events, e: Event)
    requires !e.id.DraftId?
    ensures |Upsert(events, e)| >= |events|
    ensures forall i :: 0 <= i < |Upsert(events, e)| && Upsert(events, e)[i].id.DraftId? ==>
      i < |events| && Upsert(events, e)[i] == events[i]
  {
    if events != [] && events[0].id != e.id {
      UpsertPlaces(events[1..], e);
    }
  }

  lemma {:induction false} UsageSame(events: Events, of: AgentId, detail: nat)
    ensures forall i :: 0 <= i < |events| ==> SetUsage(events, of, detail)[i].id == events[i].id
  {
    if events != [] {
      UsageSame(events[..|events| - 1], of, detail);
    }
  }

  lemma FinalizedPlaced(events: Events, agent: AgentId, message: MessageId, content: Text)
    requires Placed(events)
    ensures Placed(Finalize(events, agent, message, content))
  {
    var marked := MarkReasoningDone(events, agent);
    MarkedSame(events, agent);
    var segments := OpenDrafts(marked, agent);
    if segments == [] {
      UpsertPlaces(marked, Event(MessageKey(message), Some(agent), content, false, Some(message), 0));
    } else {
      var n := |segments| - 1;
      var text := FinalContent(Joined(segments[..n]), content);
      ClosedAreDrafts(marked, agent, segments[n].id, text, message);
      UpsertPlaces(CloseDrafts(marked, agent, segments[n].id, text, message),
        Event(CompleteId(message), Some(agent), "", false, Some(message), 0));
    }
  }

  lemma EditPlaces(events: Events, edit: Edit)
    requires Placed(events) && !edit.Clear?
    ensures Placed(Apply(events, edit))
  {
    hide Upsert, MarkReasoningDone, Finalize, SetUsage;
    match edit
    case Say(a, _) => MarkedSame(events, a);
    case Put(event, closes) =>
      if closes.Some? {
        MarkedSame(events, closes.value);
        UpsertPlaces(MarkReasoningDone(events, closes.value), event);
      } else {
        UpsertPlaces(events, event);
      }
    case Note(_, from, _, _) => if from.Some? { MarkedSame(events, from.value); }
    case Usage(a, detail) => UsageSame(events, a, detail);
    case Complete(a, message, content) => FinalizedPlaced(events, a, message, content);
    case Think(_, _) =>
    case Mark(_) =>
  }

  /** Without silent agents every draft id stays distinct, so finalizing is exact. */
  lemma {:induction false} DraftIdsStayDistinct(edits: seq<Edit>, agent: AgentId)
    requires forall e <- edits :: !e.Clear?
    ensures Placed(ApplyAll([], edits)) && DraftIdsDistinct(ApplyAll([], edits), agent)
  {
    if edits != [] {
      DraftIdsStayDistinct(edits[..|edits| - 1], agent);
      hide Apply;
      EditPlaces(ApplyAll([], edits[..|edits| - 1]), edits[|edits| - 1]);
    }
  }

  // ---- Exactly when draft ids collide ----

  /** The delta opens a segment although some draft of the agent has its id already:
      the list is as short again as when that draft was opened. */
  predicate Collides(events: Events, agent: AgentId, edit: Edit) {
    && edit.Say? && edit.agent == agent
    && !(events != [] && IsOpenDraftOf(events[|events| - 1], agent))
    && exists e <- events :: IsDraftOf(e, agent) && e.id == DraftId(agent, |events|)
  }

  /** Place by place: a draft of the agent with the same id on both sides, or on neither. */
  ghost predicate SameDraftIds(a: Events, b: Events, agent: AgentId) {
    |a| == |b| && forall i :: 0 <= i < |a| ==>
      (IsDraftOf(a[i], agent) <==> IsDraftOf(b[i], agent)) && (IsDraftOf(a[i], agent) ==> a[i].id == b[i].id)
  }

  lemma SameIdsDistinct(a: Events, b: Events, agent: AgentId)
    requires SameDraftIds(a, b, agent)
    ensures DraftIdsDistinct(a, agent) <==> DraftIdsDistinct(b, agent)
  {
  }

  lemma MarkedIds(events: Events, of: AgentId, agent: AgentId)
    ensures SameDraftIds(events, MarkReasoningDone(events, of), agent)
  {
    MarkedSame(events, of);
    hide MarkReasoningDone;
  }

  lemma {:induction false} ClosedIds(events: Events, of: AgentId, last: EventId, text: Text, message: MessageId,
      agent: AgentId)
    ensures SameDraftIds(events, CloseDrafts(events, of, last, text, message), agent)
  {
    if events != [] {
      ClosedIds(events[1..], of, last, text, message, agent);
    }
  }

  lemma {:induction false} UsageIds(events: Events, of: AgentId, detail: nat, agent: AgentId)
    ensures SameDraftIds(events, SetUsage(events, of, detail), agent)
  {
    if events != [] {
      UsageIds(events[..|events| - 1], of, detail, agent);
    }
  }

  lemma SnocDistinct(events: Events, e: Event, agent: AgentId)
    ensures DraftIdsDistinct(events + [e], agent)
      <==> DraftIdsDistinct(events, agent) && (IsDraftOf(e, agent) ==>
             forall d <- events :: IsDraftOf(d, agent) ==> d.id != e.id)
  {
    var all := events + [e];
    assert forall i :: 0 <= i < |events| ==> all[i] == events[i];
    assert all[|events|] == e;
  }

  lemma {:induction false} UpsertDistinct(events: Events, e: Event, agent: AgentId)
    requires !e.id.DraftId?
    ensures DraftIdsDistinct(Upsert(events, e), agent) <==> DraftIdsDistinct(events, agent)
  {
    if exists i :: 0 <= i < |events| && events[i].id == e.id {
      UpsertReplaces(events, e, agent);
      SameIdsDistinct(events, Upsert(events, e), agent);
    } else {
      UpsertAppends(events, e);
      SnocDistinct(events, e, agent);
    }
  }

  lemma {:induction false} UpsertReplaces(events: Events, e: Event, agent: AgentId)
    requires !e.id.DraftId? && exists i :: 0 <= i < |events| && events[i].id == e.id
    ensures SameDraftIds(events, Upsert(events, e), agent)
  {
    if events[0].id != e.id {
      assert exists i :: 0 <= i < |events[1..]| && events[1..][i].id == e.id by {
        var i :| 0 <= i < |events| && events[i].id == e.id;
        assert events[1..][i - 1] == events[i];
      }
      UpsertReplaces(events[1..], e, agent);
    }
  }

  lemma {:induction false} UpsertAppends(events: Events, e: Event)
    requires forall i :: 0 <= i < |events| ==> events[i].id != e.id
    ensures Upsert(events, e) == events + [e]
  {
    if events != [] {
      UpsertAppends(events[1..], e);
    }
  }

  lemma {:induction false} ClearedDistinct(events: Events, of: AgentId, agent: AgentId)
    requires DraftIdsDistinct(events, agent)
    ensures DraftIdsDistinct(ClearDraft(events, of), agent)
  {
    if events != [] {
      TailDistinct(events, agent);
      ClearedDistinct(events[1..], of, agent);
      if !IsOpenDraftOf(events[0], of) && IsDraftOf(events[0], agent) {
        forall d <- ClearDraft(events[1..], of) | IsDraftOf(d, agent) ensures d.id != events[0].id {
          var j :| 0 <= j < |events[1..]| && events[1..][j] == d;
          assert events[j + 1] == d;
        }
      }
    }
  }

  lemma FinalizedDistinct(events: Events, of: AgentId, message: MessageId, content: Text, agent: AgentId)
    ensures DraftIdsDistinct(Finalize(events, of, message, content), agent) <==> DraftIdsDistinct(events, agent)
  {
    var marked := MarkReasoningDone(events, of);
    MarkedIds(events, of, agent);
    SameIdsDistinct(events, marked, agent);
    var segments := OpenDrafts(marked, of);
    hide MarkReasoningDone, DraftIdsDistinct, Upsert, CloseDrafts;
    if segments == [] {
      UpsertDistinct(marked, Event(MessageKey(message), Some(of), content, false, Some(message), 0), agent);
    } else {
      var n := |segments| - 1;
      var text := FinalContent(Joined(segments[..n]), content);
      var closed := CloseDrafts(marked, of, segments[n].id, text, message);
      ClosedIds(marked, of, segments[n].id, text, message, agent);
      SameIdsDistinct(marked, closed, agent);
      UpsertDistinct(closed, Event(CompleteId(message), Some(of), "", false, Some(message), 0), agent);
    }
  }

  /** The guard of the opening branch is exact: a delta makes two draft ids equal if
      and only if it opens a segment under an id some draft still has. */
  lemma SaidDistinctIff(events: Events, speaker: AgentId, delta: Text, agent: AgentId)
    requires DraftIdsDistinct(events, agent)
    ensures DraftIdsDistinct(AppendText(events, speaker, delta), agent)
      <==> !Collides(events, agent, Say(speaker, delta))
  {
    var marked := MarkReasoningDone(events, speaker);
    MarkedSame(events, speaker);
    MarkedIds(events, speaker, agent);
    SameIdsDistinct(events, marked, agent);
    var n := |marked|;
    hide MarkReasoningDone;
    if n > 0 && IsOpenDraftOf(marked[n - 1], speaker) {
      var last := marked[n - 1].(content := marked[n - 1].content + delta);
      assert SameDraftIds(marked, marked[n - 1 := last], agent);
      SameIdsDistinct(marked, marked[n - 1 := last], agent);
      assert IsOpenDraftOf(events[n - 1], speaker);
    } else {
      SnocDistinct(marked, Event(DraftId(speaker, n), Some(speaker), delta, true, None, 0), agent);
      assert !(events != [] && IsOpenDraftOf(events[n - 1], speaker));
      if speaker == agent {
        SameHolders(events, marked, agent, DraftId(agent, n));
      }
    }
  }

  lemma SameHolders(a: Events, b: Events, agent: AgentId, id: EventId)
    requires SameDraftIds(a, b, agent)
    ensures (exists e <- a :: IsDraftOf(e, agent) && e.id == id)
      <==> (exists e <- b :: IsDraftOf(e, agent) && e.id == id)
  {
    if e :| e in a && IsDraftOf(e, agent) && e.id == id {
      var i :| 0 <= i < |a| && a[i] == e;
      assert b[i] in b;
    }
    if e :| e in b && IsDraftOf(e, agent) && e.id == id {
      var i :| 0 <= i < |b| && b[i] == e;
      assert a[i] in a;
    }
  }

  lemma EditDistinctIff(events: Events, edit: Edit, agent: AgentId)
    requires DraftIdsDistinct(events, agent)
    ensures DraftIdsDistinct(Apply(events, edit), agent) <==> !Collides(events, agent, edit)
  {
    hide DraftIdsDistinct, MarkReasoningDone, AppendText, Finalize, ClearDraft, Upsert, SetUsage;
    match edit
    case Say(speaker, delta) => SaidDistinctIff(events, speaker, delta, agent);
    case Think(speaker, delta) => ThoughtDistinct(events, speaker, delta, agent);
    case Put(event, closes) =>
      if closes.Some? {
        MarkedIds(events, closes.value, agent);
        SameIdsDistinct(events, MarkReasoningDone(events, closes.value), agent);
        UpsertDistinct(MarkReasoningDone(events, closes.value), event, agent);
      } else {
        UpsertDistinct(events, event, agent);
      }
    case Note(kind, from, time, detail) =>
      var e := Event(NoticeId(kind, |events|, time), from, "", false, None, detail);
      if from.Some? {
        MarkedIds(events, from.value, agent);
        SameIdsDistinct(events, MarkReasoningDone(events, from.value), agent);
        SnocDistinct(MarkReasoningDone(events, from.value), e, agent);
      }
      SnocDistinct(events, e, agent);
    case Mark(mark) => SnocDistinct(events, mark, agent);
    case Usage(of, detail) =>
      UsageIds(events, of, detail, agent);
      SameIdsDistinct(events, SetUsage(events, of, detail), agent);
    case Complete(of, message, content) => FinalizedDistinct(events, of, message, content, agent);
    case Clear(of) => ClearedDistinct(events, of, agent);
  }

  lemma ThoughtDistinct(events: Events, speaker: AgentId, delta: Text, agent: AgentId)
    ensures DraftIdsDistinct(AppendReasoning(events, speaker, delta), agent) <==> DraftIdsDistinct(events, agent)
  {
    var n := |events|;
    SnocDistinct(events, Event(ReasoningId(speaker, n), Some(speaker), delta, true, None, 0), agent);
    if n > 0 && events[n - 1].id.ReasoningId? {
      var last := events[n - 1].(content := events[n - 1].content + delta);
      SameIdsDistinct(events, events[n - 1 := last], agent);
    }
  }

  ghost predicate DistinctThroughout(edits: seq<Edit>, agent: AgentId) {
    && DraftIdsDistinct(ApplyAll([], edits), agent)
    && (edits != [] ==> DistinctThroughout(edits[..|edits| - 1], agent))
  }

  ghost predicate NeverCollides(edits: seq<Edit>, agent: AgentId) {
    edits != [] ==>
      (var n := |edits| - 1;
       NeverCollides(edits[..n], agent) && !Collides(ApplyAll([], edits[..n]), agent, edits[n]))
  }

  /** Over any run, silent agents included: an agent's draft ids are distinct at every
      moment exactly when no delta opened a segment under an id still in use. */
  lemma {:induction false} DraftIdsDistinctIff(edits: seq<Edit>, agent: AgentId)
    ensures DistinctThroughout(edits, agent) <==> NeverCollides(edits, agent)
  {
    if edits != [] {
      var n := |edits| - 1;
      DraftIdsDistinctIff(edits[..n], agent);
      hide Apply, Collides, DraftIdsDistinct;
      if DistinctThroughout(edits[..n], agent) {
        EditDistinctIff(ApplyAll([], edits[..n]), edits[n], agent);
      }
    }
  }

  function Draft(agent: AgentId, n: nat, content: Text): Event
  {
    Event(DraftId(agent, n), Some(agent), content, true, None, 0)
  }

  lemma ApplySnoc(edits: seq<Edit>, edit: Edit)
    ensures ApplyAll([], edits + [edit]) == Apply(ApplyAll([], edits), edit)
  {
    assert (edits + [edit])[..|edits|] == edits;
  }

  function Colliding(): (e: Events)
  {
    [Draft("a", 2, "1"), Draft("b", 1, "z"), Draft("a", 2, "2")]
  }

  /** A silent agent shrinks the list, so a later segment can get the id of an
      earlier one; finalizing then writes the end of the message into both. */
  lemma ClearedIdsCollide(said: seq<Edit>, cleared: seq<Edit>, edits: seq<Edit>)
    requires said == [] + [Say("c", "x")] + [Say("b", "y")] + [Say("a", "1")]
    requires cleared == said + [Clear("c")] + [Clear("b")]
    requires edits == cleared + [Say("b", "z")] + [Say("a", "2")]
    ensures var events := ApplyAll([], edits);
      && !DraftIdsDistinct(events, "a")
      && OpenDrafts(events, "a") != [] && PriorText(events, "a") <= "12"
      && TextAt(events, Finalize(events, "a", 0, "12"), "a") == "22"
  {
    hide *;
    ThreeSpoke(said);
    TwoCleared();
    ApplySnoc(said, Clear("c"));
    ApplySnoc(said + [Clear("c")], Clear("b"));
    TwoMoreSpoke(cleared);
    CollisionShown();
  }

  lemma ThreeSpoke(said: seq<Edit>)
    requires said == [] + [Say("c", "x")] + [Say("b", "y")] + [Say("a", "1")]
    ensures ApplyAll([], said) == [Draft("c", 0, "x"), Draft("b", 1, "y"), Draft("a", 2, "1")]
  {
    hide ApplyAll;
    NothingApplied();
    var p1 := [] + [Say("c", "x")];
    SayMore([], [], "c", "x");
    SayMore(p1, [Draft("c", 0, "x")], "b", "y");
    SayMore(p1 + [Say("b", "y")], [Draft("c", 0, "x"), Draft("b", 1, "y")], "a", "1");
  }

  lemma TwoMoreSpoke(before: seq<Edit>)
    requires ApplyAll([], before) == [Draft("a", 2, "1")]
    ensures ApplyAll([], before + [Say("b", "z")] + [Say("a", "2")]) == Colliding()
  {
    hide ApplyAll;
    SayMore(before, [Draft("a", 2, "1")], "b", "z");
    SayMore(before + [Say("b", "z")], [Draft("a", 2, "1"), Draft("b", 1, "z")], "a", "2");
  }

  lemma SayMore(before: seq<Edit>, events: Events, agent: AgentId, delta: Text)
    requires ApplyAll([], before) == events && forall e <- events :: !e.id.ReasoningId?
    requires events != [] ==> events[|events| - 1].agent != Some(agent)
    ensures ApplyAll([], before + [Say(agent, delta)]) == events + [Draft(agent, |events|, delta)]
  {
    ApplySnoc(before, Say(agent, delta));
    SayOpens(events, agent, delta);
  }

  lemma NothingApplied()
    ensures ApplyAll([], []) == []
  {
  }

  lemma {:induction false} NoReasoning(events: Events, agent: AgentId)
    requires forall e <- events :: !e.id.ReasoningId?
    ensures MarkReasoningDone(events, agent) == events
  {
    if events != [] {
      NoReasoning(events[..|events| - 1], agent);
    }
  }

  lemma SayOpens(events: Events, agent: AgentId, delta: Text)
    requires forall e <- events :: !e.id.ReasoningId?
    requires events != [] ==> events[|events| - 1].agent != Some(agent)
    ensures AppendText(events, agent, delta) == events + [Draft(agent, |events|, delta)]
  {
    NoReasoning(events, agent);
  }

  lemma TwoCleared()
    ensures var e3 := [Draft("c", 0, "x"), Draft("b", 1, "y"), Draft("a", 2, "1")];
      Apply(Apply(e3, Clear("c")), Clear("b")) == [Draft("a", 2, "1")]
  {
    var e3 := [Draft("c", 0, "x"), Draft("b", 1, "y"), Draft("a", 2, "1")];
    assert e3[1..] == [Draft("b", 1, "y"), Draft("a", 2, "1")];
    assert e3[1..][1..] == [Draft("a", 2, "1")];
    assert ClearDraft([Draft("a", 2, "1")], "c") == [Draft("a", 2, "1")];
    assert ClearDraft(e3, "c") == [Draft("b", 1, "y"), Draft("a", 2, "1")];
    assert ClearDraft([Draft("a", 2, "1")], "b") == [Draft("a", 2, "1")];
  }

  lemma CollidingOpen()
    ensures OpenDrafts(Colliding(), "a") == [Draft("a", 2, "1"), Draft("a", 2, "2")]
    ensures !DraftIdsDistinct(Colliding(), "a")
  {
    var e7 := Colliding();
    assert e7[0].id == e7[2].id;
    assert e7[1..] == [Draft("b", 1, "z"), Draft("a", 2, "2")] && e7[1..][1..] == [Draft("a", 2, "2")];
    assert OpenDrafts([Draft("a", 2, "2")], "a") == [Draft("a", 2, "2")];
  }

  lemma CollidingPrior()
    ensures OpenDrafts(Colliding(), "a") != [] && PriorText(Colliding(), "a") == "1"
  {
    CollidingOpen();
    hide OpenDrafts;
    assert OpenDrafts(Colliding(), "a")[..1] == [Draft("a", 2, "1")];
    assert Joined([Draft("a", 2, "1")]) == "1";
  }

  lemma CollidingRetold()
    ensures Retold([Draft("a", 2, "1"), Draft("a", 2, "2")], DraftId("a", 2), "2") == "22"
  {
    var open := [Draft("a", 2, "1"), Draft("a", 2, "2")];
    assert open[1..] == [Draft("a", 2, "2")];
    assert Retold([Draft("a", 2, "2")], DraftId("a", 2), "2") == "2";
  }

  lemma CollisionShown()
    ensures var e7 := Colliding();
      && !DraftIdsDistinct(e7, "a")
      && OpenDrafts(e7, "a") != []
      && PriorText(e7, "a") <= "12"
      && TextAt(e7, Finalize(e7, "a", 0, "12"), "a") == "22"
  {
    var e7 := Colliding();
    CollidingOpen();
    CollidingPrior();
    CollidingRetold();
    NoReasoning(e7, "a");
    assert "12"[1..] == "2" && FinalContent("1", "12") == "2";
    hide OpenDrafts, MarkReasoningDone, Joined, FinalContent, CloseDrafts, Upsert, TextAt, Retold, DraftIdsDistinct;
    var closed := CloseDrafts(e7, "a", DraftId("a", 2), "2", 0);
    ClosedAreDrafts(e7, "a", DraftId("a", 2), "2", 0);
    UpsertShows(e7, closed, Event(CompleteId(0), Some("a"), "", false, Some(0), 0), "a");
    ClosedRetells(e7, "a", DraftId("a", 2), "2", 0);
  }
}
