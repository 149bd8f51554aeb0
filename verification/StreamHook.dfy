/** The event dispatcher of a send stream: its gate, and the store actions it takes. */
module StreamHook {
  import opened Prelude
  import opened Timeline
  import opened RunTable

  /** An event of one stream; `Unusable` stands for payloads that do not parse. */
  datatype StreamEvent =
    | SchedulerEvent(update: Update)
    | UserMessage(message: Id)
    | AgentStart(agent: AgentId, detail: nat)
    | ContextUsage(agent: AgentId, detail: nat)
    | Token(agent: AgentId, delta: Text)
    | ReasoningToken(agent: AgentId, delta: Text)
    | AgentMessage(sender: Option<AgentId>, message: Id, content: Text)
    | SilentAgent(agent: AgentId, time: Timestamp)
    | ToolCall(agent: AgentId, call: nat, detail: nat)
    | ExternalRun(agent: AgentId, run: nat, detail: nat)
    | TodoUpdate(agent: AgentId, detail: nat)
    | Notice(kind: NoticeKind, from: Option<AgentId>, time: Timestamp, detail: nat)
    | StreamError(time: Timestamp)
    | Done
    | Unusable

  /** The store's group and the hook's `erroredStreamIdsRef`. */
  datatype Hook = Hook(g: Group, errored: set<Id>)

  /** `acceptsStreamEvent`. */
  predicate AcceptsEvent(g: Group, stream: Id) {
    stream !in g.retired && (stream in g.runs ==> g.runs[stream].status.Active? && Accepts(g.runs[stream].scheduler))
  }

  // ---- Bubbles ----

  function Bubble(g: Group, stream: Id, agent: AgentId): (t: Text)
  {
    var key := BubbleKey(Some(stream), agent);
    if key in g.bubbles then g.bubbles[key] else ""
  }

  function PatchInFlight(g: Group, stream: Id, agent: AgentId, delta: Text): Group {
    g.(bubbles := g.bubbles[BubbleKey(Some(stream), agent) := Bubble(g, stream, agent) + delta])
  }

  function DropBubble(g: Group, stream: Id, agent: AgentId): Group {
    g.(bubbles := g.bubbles - {BubbleKey(Some(stream), agent), BubbleKey(None, agent)})
  }

  function FinalizeInFlight(g: Group, stream: Id, sender: Option<AgentId>, message: Id): Group {
    if message in g.deleted then g else DropBubble(g, stream, if sender.Some? then sender.value else "")
  }

  function ClearStreamInFlight(g: Group, stream: Id): Group {
    g.(bubbles := map key | key in g.bubbles && key.stream != Some(stream) :: g.bubbles[key])
  }

  // ---- The dispatcher ----

  function Other(id: EventId, agent: AgentId, detail: nat): (e: OtherEvent)
    requires !id.DraftId? && !id.ReasoningId?
  {
    Event(id, Some(agent), "", false, None, detail)
  }

  /** The edit an event makes to its run's timeline, for those that only do that. */
  function EditOf(e: StreamEvent): (edit: Option<Edit>)
  {
    match e
    case AgentStart(agent, detail) => Some(Put(Other(StartId(agent, 0, 0), agent, detail), None))
    case ReasoningToken(agent, delta) => if delta == "" then None else Some(Think(agent, delta))
    case ToolCall(agent, call, detail) => Some(Put(Other(ToolId(call), agent, detail), Some(agent)))
    case ExternalRun(agent, run, detail) => Some(Put(Other(ExternalId(run), agent, detail), Some(agent)))
    case TodoUpdate(agent, detail) => Some(Put(Other(TodoId(agent), agent, detail), None))
    case Notice(kind, from, time, detail) => Some(Note(kind, from, time, detail))
    case _ => None
  }

  function OnDone(h: Hook, stream: Id): Hook {
    Hook(if stream in h.errored then h.g else NextEnd(h.g, MarkDone(stream)), h.errored - {stream})
  }

  function OnScheduler(h: Hook, stream: Id, update: Update): Hook {
    if !AcceptsUpdate(h.g, stream, update) then h
    else
      var h1 := h.(g := NextTurn(h.g, Scheduler(stream, update)));
      if update.kind.DoneKind? then OnDone(h1, stream) else h1
  }

  /** An event the gate let through. */
  function Dispatch(h: Hook, stream: Id, e: StreamEvent): Hook {
    match e
    case UserMessage(m) => h.(g := NextGroup(h.g, StartRun(stream, m, None, None, None)))
    case ContextUsage(agent, detail) => h.(g := NextEvents(h.g, UsageOf(stream, agent, detail)))
    case Token(agent, delta) =>
      if delta == "" then h
      else h.(g := PatchInFlight(NextEvents(h.g, Touch(stream, Say(agent, delta))), stream, agent, delta))
    case AgentMessage(sender, m, content) =>
      h.(g := FinalizeInFlight(NextEvents(h.g, FinalizeDraft(stream, m, sender, content)), stream, sender, m))
    case SilentAgent(agent, time) =>
      h.(g := DropBubble(
        NextEvents(NextEvents(h.g, ClearDraftOf(stream, agent)),
          Touch(stream, Note(AgentSilent, Some(agent), time, 0))),
        stream, agent))
    case StreamError(time) =>
      Hook(ClearStreamInFlight(NextEnd(h.g, MarkError(stream, time)), stream), h.errored + {stream})
    case _ =>
      var edit := EditOf(e);
      if edit.None? then h
      else
        var g1 := NextEvents(h.g, Touch(stream, edit.value));
        var waits := e.Notice? && (e.kind.WaitingForUser? || e.kind.ApprovalRequired?);
        h.(g := if waits then NextTurn(g1, MarkWaiting(stream)) else g1)
  }

  /** `onEvent`: scheduler updates and `done` have their own way in; everything
      else passes the gate. */
  function OnEvent(h: Hook, stream: Id, e: StreamEvent): Hook {
    if e.SchedulerEvent? then OnScheduler(h, stream, e.update)
    else if e.Done? then OnDone(h, stream)
    else if !AcceptsEvent(h.g, stream) then h
    else Dispatch(h, stream, e)
  }

  function OnEvents(h: Hook, events: seq<(Id, StreamEvent)>): Hook {
    if events == [] then h
    else
      var last := events[|events| - 1];
      OnEvent(OnEvents(h, events[..|events| - 1]), last.0, last.1)
  }

  /** The run is never pruned on the way. */
  predicate KeptThrough(h: Hook, events: seq<(Id, StreamEvent)>, id: Id) {
    id in OnEvents(h, events).g.runs && (events != [] ==> KeptThrough(h, events[..|events| - 1], id))
  }

  // ---- A finished turn's timeline ----

  /** The timeline is what it was, or that and one `done` marker. */
  predicate AtMostDone(before: Events, after: Events) {
    after == before || (!HasDone(before) && after == before + [DONE])
  }

  predicate Frozen(g: Group, id: Id, before: Events) {
    id in g.runs ==> FrozenTurn(g.runs[id]) && AtMostDone(before, g.runs[id].events)
  }

  lemma DoneOnce(before: Events, run: Run)
    requires AtMostDone(before, run.events)
    ensures AtMostDone(before, DoneRun(run).events)
  {
    assert HasDone(before + [DONE]) by { assert (before + [DONE])[|before|] == DONE; }
  }

  /** An event for another stream leaves the run alone, or prunes it. */
  predicate Untouched(g: Group, h: Group, id: Id) {
    id in h.runs ==> id in g.runs && h.runs[id] == g.runs[id]
  }

  lemma EventsElsewhere(g: Group, a: EventAction, id: Id)
    requires a.stream != id
    ensures Untouched(g, NextEvents(g, a), id)
  {
    hide Touched, RunOf;
  }

  lemma TurnElsewhere(g: Group, a: TurnAction, id: Id)
    requires (a.Scheduler? || a.MarkWaiting?) && a.stream != id
    ensures Untouched(g, NextTurn(g, a), id)
  {
    hide Updated, AcceptsUpdate, RunOf;
  }

  lemma EndElsewhere(g: Group, a: EndAction, id: Id)
    requires (a.MarkDone? || a.MarkError?) && a.stream != id
    ensures Untouched(g, NextEnd(g, a), id)
  {
    hide Pruned, DoneRun, Apply;
    if a.stream in g.runs {
      var run := g.runs[a.stream];
      var after := if a.MarkDone? then DoneRun(run)
        else run.(status := Errored, events := Apply(run.events, Mark(ErrorEvent(a.time))));
      PrunedSame(g.(runs := g.runs[a.stream := after]), id);
    }
  }

  function Started(g: Group, stream: Id, m: Id): Group {
    var old' := RunOf(g, stream);
    File(g, stream, old'.(userMessage := m, status := Active, turn := Or(old'.turn, None),
                          scheduler := Or(old'.scheduler, None), reason := Or(old'.reason, None)))
  }

  lemma StartElsewhere(g: Group, stream: Id, m: Id, id: Id)
    requires stream != id
    ensures Untouched(g, Start(g, stream, m, None, None, None), id)
  {
    hide Pruned;
    PrunedSame(Started(g, stream, m), id);
  }

  lemma DispatchElsewhere(h: Hook, stream: Id, e: StreamEvent, id: Id)
    requires stream != id
    ensures Untouched(h.g, Dispatch(h, stream, e).g, id)
  {
    hide NextEvents, NextTurn, NextEnd, Start, EditOf;
    match e
    case UserMessage(m) => StartElsewhere(h.g, stream, m, id);
    case ContextUsage(agent, detail) => EventsElsewhere(h.g, UsageOf(stream, agent, detail), id);
    case Token(agent, delta) => EventsElsewhere(h.g, Touch(stream, Say(agent, delta)), id);
    case AgentMessage(sender, m, content) => EventsElsewhere(h.g, FinalizeDraft(stream, m, sender, content), id);
    case SilentAgent(agent, time) =>
      EventsElsewhere(h.g, ClearDraftOf(stream, agent), id);
      EventsElsewhere(NextEvents(h.g, ClearDraftOf(stream, agent)),
        Touch(stream, Note(AgentSilent, Some(agent), time, 0)), id);
    case StreamError(time) => EndElsewhere(h.g, MarkError(stream, time), id);
    case _ =>
      if EditOf(e).Some? {
        EventsElsewhere(h.g, Touch(stream, EditOf(e).value), id);
        TurnElsewhere(NextEvents(h.g, Touch(stream, EditOf(e).value)), MarkWaiting(stream), id);
      }
  }

  lemma DoneFreezes(h: Hook, stream: Id, id: Id, before: Events)
    requires id in h.g.runs && Frozen(h.g, id, before)
    ensures Frozen(OnDone(h, stream).g, id, before)
  {
    if stream == id {
      var run := h.g.runs[id];
      DoneOnce(before, run);
      hide Pruned, AtMostDone;
      PrunedSame(h.g.(runs := h.g.runs[id := DoneRun(run)]), id);
    } else {
      hide NextEnd;
      EndElsewhere(h.g, MarkDone(stream), id);
    }
  }

  lemma SchedulerFreezes(h: Hook, stream: Id, update: Update, id: Id, before: Events)
    requires id in h.g.runs && Frozen(h.g, id, before)
    ensures Frozen(OnScheduler(h, stream, update).g, id, before)
  {
    if AcceptsUpdate(h.g, stream, update) {
      var h1 := h.(g := NextTurn(h.g, Scheduler(stream, update)));
      if stream == id {
        TurnActionKeeps(h.g, Scheduler(stream, update), id);
        assert h1.g.runs[id].events == h.g.runs[id].events;
      } else {
        TurnElsewhere(h.g, Scheduler(stream, update), id);
      }
      assert Frozen(h1.g, id, before);
      hide AtMostDone, OnDone;
      DoneFreezes(h1, stream, id, before);
    }
  }

  lemma EventFreezes(h: Hook, stream: Id, e: StreamEvent, id: Id, before: Events)
    requires id in h.g.runs && Frozen(h.g, id, before)
    ensures Frozen(OnEvent(h, stream, e).g, id, before)
  {
    hide OnScheduler, OnDone, Dispatch, AtMostDone;
    if e.SchedulerEvent? {
      SchedulerFreezes(h, stream, e.update, id, before);
    } else if e.Done? {
      DoneFreezes(h, stream, id, before);
    } else if AcceptsEvent(h.g, stream) {
      assert stream != id;
      DispatchElsewhere(h, stream, e, id);
    }
  }

  /** Once a turn is finished, replayed, late and duplicated events of any stream
      leave its run's timeline as it is, except for at most one `done` marker. */
  lemma {:induction false} FinishedTimelineFixed(h: Hook, events: seq<(Id, StreamEvent)>, id: Id)
    requires KeptThrough(h, events, id)
    requires id in h.g.runs && FrozenTurn(h.g.runs[id])
    ensures var run := OnEvents(h, events).g.runs[id];
      FrozenTurn(run) && AtMostDone(h.g.runs[id].events, run.events)
  {
    if events != [] {
      var front := events[..|events| - 1];
      FinishedTimelineFixed(h, front, id);
      hide OnEvent, AtMostDone, FrozenTurn;
      EventFreezes(OnEvents(h, front), events[|events| - 1].0, events[|events| - 1].1, id, h.g.runs[id].events);
    }
  }

  // ---- The bubble agrees with the segments ----

  /** The agent's in-flight bubble shows the text of its open segments. */
  predicate Agree(g: Group, id: Id, agent: AgentId) {
    OpenText(RunOf(g, id).events, agent) == Bubble(g, id, agent)
  }

  /** A message without a sender, for one of the two names the store falls back to:
      `finalizeStreamDraft` closes the segments of `unknown-agent`, while
      `finalizeInFlight` drops the bubble of the empty name. */
  predicate Nameless(g: Group, e: StreamEvent, agent: AgentId) {
    e.AgentMessage? && e.sender.None? && e.message !in g.deleted && (agent == UNKNOWN_AGENT || agent == "")
  }

  predicate Kept(g: Group, h: Group, id: Id) {
    id in g.runs ==> id in h.runs
  }

  lemma EventsKeepBubbles(g: Group, a: EventAction)
    ensures NextEvents(g, a).bubbles == g.bubbles
  {
    hide Touched, RunOf;
  }

  lemma EndKeepsBubbles(g: Group, d: EndAction)
    ensures NextEnd(g, d).bubbles == g.bubbles
  {
    hide Removed, CancelRuns, ActiveIds, DoneRun, Apply;
  }

  lemma TurnKeepsBubbles(g: Group, t: TurnAction)
    ensures NextTurn(g, t).bubbles == g.bubbles
  {
    hide RunOf, Updated, AcceptsUpdate, CanWait;
  }

  lemma StartKeepsBubbles(g: Group, stream: Id, m: Id)
    ensures Start(g, stream, m, None, None, None).bubbles == g.bubbles
  {
    hide Removed, RunOf;
  }

  lemma ElsewhereBubbles(h: Hook, stream: Id, e: StreamEvent, id: Id, agent: AgentId)
    requires stream != id
    ensures Bubble(Dispatch(h, stream, e).g, id, agent) == Bubble(h.g, id, agent)
  {
    hide NextEvents, NextTurn, NextEnd, Start, EditOf;
    match e
    case UserMessage(m) => StartKeepsBubbles(h.g, stream, m);
    case ContextUsage(a, detail) => EventsKeepBubbles(h.g, UsageOf(stream, a, detail));
    case Token(a, delta) => EventsKeepBubbles(h.g, Touch(stream, Say(a, delta)));
    case AgentMessage(sender, m, content) => EventsKeepBubbles(h.g, FinalizeDraft(stream, m, sender, content));
    case SilentAgent(a, time) =>
      EventsKeepBubbles(h.g, ClearDraftOf(stream, a));
      EventsKeepBubbles(NextEvents(h.g, ClearDraftOf(stream, a)), Touch(stream, Note(AgentSilent, Some(a), time, 0)));
    case StreamError(time) => EndKeepsBubbles(h.g, MarkError(stream, time));
    case _ =>
      if EditOf(e).Some? {
        EventsKeepBubbles(h.g, Touch(stream, EditOf(e).value));
        TurnKeepsBubbles(NextEvents(h.g, Touch(stream, EditOf(e).value)), MarkWaiting(stream));
      }
  }

  lemma TouchSpeaks(g: Group, id: Id, edit: Edit, agent: AgentId)
    ensures OpenText(RunOf(NextEvents(g, Touch(id, edit)), id).events, agent)
      == Spoken(OpenText(RunOf(g, id).events, agent), agent, edit)
  {
    hide Apply, OpenText, Spoken;
    EditSpeaks(RunOf(g, id).events, edit, agent);
  }

  /** An edit that says nothing for anyone. */
  predicate Mute(edit: Edit) {
    !edit.Say? && !edit.Complete? && !edit.Clear?
  }

  lemma MuteAgrees(g: Group, id: Id, edit: Edit, agent: AgentId)
    requires Agree(g, id, agent) && Mute(edit)
    ensures Agree(NextEvents(g, Touch(id, edit)), id, agent)
  {
    TouchSpeaks(g, id, edit, agent);
    EventsKeepBubbles(g, Touch(id, edit));
    hide NextEvents, OpenText, RunOf;
  }

  lemma WaitingAgrees(g: Group, id: Id, agent: AgentId)
    requires Agree(g, id, agent)
    ensures Agree(NextTurn(g, MarkWaiting(id)), id, agent)
  {
    hide OpenText;
  }

  lemma TokenAgrees(h: Hook, id: Id, speaker: AgentId, delta: Text, agent: AgentId)
    requires Agree(h.g, id, agent)
    ensures Agree(Dispatch(h, id, Token(speaker, delta)).g, id, agent)
  {
    TouchSpeaks(h.g, id, Say(speaker, delta), agent);
    EventsKeepBubbles(h.g, Touch(id, Say(speaker, delta)));
    hide NextEvents, OpenText;
  }

  lemma MessageAgrees(h: Hook, id: Id, sender: Option<AgentId>, m: Id, content: Text, agent: AgentId)
    requires Agree(h.g, id, agent) && id !in h.g.retired && !Nameless(h.g, AgentMessage(sender, m, content), agent)
    ensures Agree(Dispatch(h, id, AgentMessage(sender, m, content)).g, id, agent)
  {
    EditSpeaks(RunOf(h.g, id).events, Complete(Sender(sender), m, content), agent);
    EventsKeepBubbles(h.g, FinalizeDraft(id, m, sender, content));
    hide OpenText, Apply;
  }

  lemma SilentAgrees(h: Hook, id: Id, silent: AgentId, time: Timestamp, agent: AgentId)
    requires Agree(h.g, id, agent)
    ensures Agree(Dispatch(h, id, SilentAgent(silent, time)).g, id, agent)
  {
    var cleared := NextEvents(h.g, ClearDraftOf(id, silent));
    EditSpeaks(RunOf(h.g, id).events, Clear(silent), agent);
    EventsKeepBubbles(h.g, ClearDraftOf(id, silent));
    assert OpenText([], agent) == "";
    hide OpenText, Apply;
    assert OpenText(RunOf(cleared, id).events, agent)
      == if agent == silent then "" else OpenText(RunOf(h.g, id).events, agent);
    var edit := Note(AgentSilent, Some(silent), time, 0);
    TouchSpeaks(cleared, id, edit, agent);
    EventsKeepBubbles(cleared, Touch(id, edit));
    hide NextEvents;
  }

  lemma StartAgrees(g: Group, id: Id, m: Id, agent: AgentId)
    requires Agree(g, id, agent) && Kept(g, Start(g, id, m, None, None, None), id)
    ensures Agree(Start(g, id, m, None, None, None), id, agent)
  {
    StartKeepsBubbles(g, id, m);
    hide Pruned, OpenText;
    PrunedSame(Started(g, id, m), id);
  }

  lemma UsageAgrees(g: Group, id: Id, a: AgentId, detail: nat, agent: AgentId)
    requires Agree(g, id, agent)
    ensures Agree(NextEvents(g, UsageOf(id, a, detail)), id, agent)
  {
    EditSpeaks(RunOf(g, id).events, Usage(a, detail), agent);
    hide OpenText, Apply;
  }

  lemma DoneAgrees(h: Hook, stream: Id, id: Id, agent: AgentId)
    requires Agree(h.g, id, agent) && Kept(h.g, OnDone(h, stream).g, id)
    ensures Agree(OnDone(h, stream).g, id, agent)
  {
    EndKeepsBubbles(h.g, MarkDone(stream));
    if stream != id {
      EndElsewhere(h.g, MarkDone(stream), id);
      hide NextEnd, OpenText;
    } else if id in h.g.runs {
      var run := h.g.runs[id];
      EditSpeaks(run.events, Mark(DONE), agent);
      hide OpenText, Apply, Pruned, HasDone;
      PrunedSame(h.g.(runs := h.g.runs[id := DoneRun(run)]), id);
    }
  }

  lemma GoneAgrees(h: Hook, h1: Hook, stream: Id, id: Id, agent: AgentId)
    requires Agree(h.g, id, agent) && h1.g.bubbles == h.g.bubbles
    requires id !in h.g.runs && id !in OnDone(h1, stream).g.runs
    ensures Agree(OnDone(h1, stream).g, id, agent)
  {
    EndKeepsBubbles(h1.g, MarkDone(stream));
    hide NextEnd;
  }

  lemma EditsAreMute(e: StreamEvent)
    ensures EditOf(e).Some? ==> Mute(EditOf(e).value)
  {
  }

  lemma SchedulerAgrees(h: Hook, stream: Id, update: Update, id: Id, agent: AgentId)
    requires Agree(h.g, id, agent) && Kept(h.g, OnScheduler(h, stream, update).g, id)
    ensures Agree(OnScheduler(h, stream, update).g, id, agent)
  {
    if AcceptsUpdate(h.g, stream, update) {
      var h1 := h.(g := NextTurn(h.g, Scheduler(stream, update)));
      TurnKeepsBubbles(h.g, Scheduler(stream, update));
      hide OnDone, OpenText, AcceptsUpdate;
      if stream != id {
        assert Kept(h.g, h1.g, id) && (id in h1.g.runs ==> id in h.g.runs && h1.g.runs[id] == h.g.runs[id]);
      } else {
        assert RunOf(h1.g, id).events == RunOf(h.g, id).events;
      }
      assert Agree(h1.g, id, agent);
      hide Agree;
      if update.kind.DoneKind? {
        hide Updated;
        if id in OnDone(h1, stream).g.runs {
          DoneAgrees(h1, stream, id, agent);
        } else {
          GoneAgrees(h, h1, stream, id, agent);
        }
      }
    }
  }

  lemma OwnAgrees(h: Hook, e: StreamEvent, id: Id, agent: AgentId)
    requires Agree(h.g, id, agent) && Kept(h.g, Dispatch(h, id, e).g, id)
    requires id !in h.g.retired && !Nameless(h.g, e, agent) && !e.StreamError?
    ensures Agree(Dispatch(h, id, e).g, id, agent)
  {
    hide Agree, NextEvents, NextTurn, Start, EditOf, Nameless;
    match e
    case UserMessage(m) => StartAgrees(h.g, id, m, agent);
    case ContextUsage(a, detail) => UsageAgrees(h.g, id, a, detail, agent);
    case Token(a, delta) => TokenAgrees(h, id, a, delta, agent);
    case AgentMessage(sender, m, content) => MessageAgrees(h, id, sender, m, content, agent);
    case SilentAgent(a, time) => SilentAgrees(h, id, a, time, agent);
    case StreamError(time) =>
    case _ =>
      if EditOf(e).Some? {
        EditsAreMute(e);
        MuteAgrees(h.g, id, EditOf(e).value, agent);
        WaitingAgrees(NextEvents(h.g, Touch(id, EditOf(e).value)), id, agent);
      }
  }

  lemma ElsewhereAgrees(h: Hook, stream: Id, e: StreamEvent, id: Id, agent: AgentId)
    requires Agree(h.g, id, agent) && stream != id && Kept(h.g, Dispatch(h, stream, e).g, id)
    ensures Agree(Dispatch(h, stream, e).g, id, agent)
  {
    DispatchElsewhere(h, stream, e, id);
    ElsewhereBubbles(h, stream, e, id, agent);
    hide Dispatch, OpenText, Bubble;
  }

  // ---- Exactly when they stop agreeing ----

  /** The table when the run of the stream has just become done. */
  function MarkedDone(g: Group, stream: Id): Group
    requires stream in g.runs
  {
    g.(runs := g.runs[stream := DoneRun(g.runs[stream])])
  }

  function MarkedErrored(g: Group, stream: Id, time: Timestamp): Group
    requires stream in g.runs
  {
    var run := g.runs[stream];
    g.(runs := g.runs[stream := run.(status := Errored, events := Apply(run.events, Mark(ErrorEvent(time))))])
  }

  predicate DonePrunes(h: Hook, stream: Id, id: Id) {
    stream !in h.errored && stream in h.g.runs && id in Removed(MarkedDone(h.g, stream))
  }

  predicate ErrorPrunes(g: Group, stream: Id, time: Timestamp, id: Id) {
    stream in g.runs && id in Removed(MarkedErrored(g, stream, time))
  }

  /** The event is about to prune the run: some run becomes done, errored or active
      again, and with it this one is among the finished runs past the latest twelve. */
  predicate Prunes(h: Hook, stream: Id, e: StreamEvent, id: Id) {
    && id in h.g.runs
    && match e
       case Done => DonePrunes(h, stream, id)
       case SchedulerEvent(update) =>
         && AcceptsUpdate(h.g, stream, update) && update.kind.DoneKind?
         && DonePrunes(h.(g := NextTurn(h.g, Scheduler(stream, update))), stream, id)
       case UserMessage(m) => AcceptsEvent(h.g, stream) && id in Removed(Started(h.g, stream, m))
       case StreamError(time) => AcceptsEvent(h.g, stream) && ErrorPrunes(h.g, stream, time, id)
       case _ => false
  }

  /** What takes away only one of the two while something is open: pruning leaves
      the bubble, an error leaves the segments, a nameless message closes one and
      drops the other. */
  predicate Disturbs(h: Hook, stream: Id, e: StreamEvent, id: Id, agent: AgentId) {
    && OpenText(RunOf(h.g, id).events, agent) != ""
    && (if stream == id && e.StreamError? && AcceptsEvent(h.g, id) then !Prunes(h, stream, e, id)
        else Prunes(h, stream, e, id) || (stream == id && AcceptsEvent(h.g, id) && Nameless(h.g, e, agent)))
  }

  lemma PrunedGone(g: Group, id: Id)
    ensures id in Pruned(g).runs <==> id in g.runs && id !in Removed(g)
  {
    hide Removed;
  }

  lemma DonePrunesIff(h: Hook, stream: Id, id: Id)
    requires id in h.g.runs
    ensures DonePrunes(h, stream, id) <==> id !in OnDone(h, stream).g.runs
  {
    hide Pruned, Removed, DoneRun;
    if stream in h.g.runs {
      PrunedGone(MarkedDone(h.g, stream), id);
    }
  }

  lemma ErrorPrunesIff(h: Hook, stream: Id, time: Timestamp, id: Id)
    requires id in h.g.runs
    ensures ErrorPrunes(h.g, stream, time, id) <==> id !in Dispatch(h, stream, StreamError(time)).g.runs
  {
    hide Pruned, Removed, Apply;
    if stream in h.g.runs {
      PrunedGone(MarkedErrored(h.g, stream, time), id);
    }
  }

  lemma StartPrunesIff(g: Group, stream: Id, m: Id, id: Id)
    requires id in g.runs
    ensures id in Removed(Started(g, stream, m)) <==> id !in Start(g, stream, m, None, None, None).runs
  {
    hide Pruned, Removed;
    PrunedGone(Started(g, stream, m), id);
  }

  lemma UpdateKeepsRuns(g: Group, stream: Id, update: Update, id: Id)
    requires id in g.runs
    ensures id in NextTurn(g, Scheduler(stream, update)).runs
  {
    hide Updated, AcceptsUpdate, RunOf;
  }

  lemma OthersPruneNothing(h: Hook, stream: Id, e: StreamEvent, id: Id)
    requires id in h.g.runs && !e.StreamError? && !e.UserMessage?
    ensures id in Dispatch(h, stream, e).g.runs
  {
    hide Touched, RunOf, EditOf, Updated, CanWait;
  }

  /** The guard is exact: these events prune the run, and no others. */
  lemma PrunesIff(h: Hook, stream: Id, e: StreamEvent, id: Id)
    requires id in h.g.runs
    ensures Prunes(h, stream, e, id) <==> id !in OnEvent(h, stream, e).g.runs
  {
    hide DonePrunes, ErrorPrunes, Removed, Start, NextTurn, NextEnd, OnDone, AcceptsUpdate, Started;
    match e
    case Done => DonePrunesIff(h, stream, id);
    case SchedulerEvent(update) =>
      UpdateKeepsRuns(h.g, stream, update, id);
      DonePrunesIff(h.(g := NextTurn(h.g, Scheduler(stream, update))), stream, id);
    case UserMessage(m) => StartPrunesIff(h.g, stream, m, id);
    case StreamError(time) => ErrorPrunesIff(h, stream, time, id);
    case _ =>
      OthersPruneNothing(h, stream, e, id);
      hide Dispatch;
  }

  /** The event has pruned the run. */
  predicate IsPruned(h: Hook, stream: Id, e: StreamEvent, id: Id) {
    id in h.g.runs && id !in OnEvent(h, stream, e).g.runs
  }

  lemma PrunedKeepsBubble(h: Hook, stream: Id, e: StreamEvent, id: Id, agent: AgentId)
    requires IsPruned(h, stream, e, id) && !(stream == id && e.StreamError?)
    ensures Bubble(OnEvent(h, stream, e).g, id, agent) == Bubble(h.g, id, agent)
  {
    hide Dispatch, NextEnd, NextTurn, Start, Bubble;
    if e.SchedulerEvent? {
      TurnKeepsBubbles(h.g, Scheduler(stream, e.update));
      EndKeepsBubbles(NextTurn(h.g, Scheduler(stream, e.update)), MarkDone(stream));
      SameBubbles(h.g, OnEvent(h, stream, e).g, id, agent);
    } else if e.Done? {
      EndKeepsBubbles(h.g, MarkDone(stream));
      SameBubbles(h.g, OnEvent(h, stream, e).g, id, agent);
    } else if stream != id {
      ElsewhereBubbles(h, stream, e, id, agent);
    } else {
      if !e.UserMessage? {
        OthersPruneNothing(h, id, e, id);
      }
      StartedBubbles(h, e, id, agent);
    }
  }

  lemma StartedBubbles(h: Hook, e: StreamEvent, id: Id, agent: AgentId)
    ensures e.UserMessage? ==> Bubble(Dispatch(h, id, e).g, id, agent) == Bubble(h.g, id, agent)
  {
    if e.UserMessage? {
      StartKeepsBubbles(h.g, id, e.message);
    }
  }

  lemma SameBubbles(g: Group, h: Group, id: Id, agent: AgentId)
    requires g.bubbles == h.bubbles
    ensures Bubble(g, id, agent) == Bubble(h, id, agent)
  {
  }

  lemma PruningDisturbsIff(h: Hook, stream: Id, e: StreamEvent, id: Id, agent: AgentId)
    requires Agree(h.g, id, agent) && Prunes(h, stream, e, id) && !(stream == id && e.StreamError?)
    ensures Agree(OnEvent(h, stream, e).g, id, agent) <==> OpenText(h.g.runs[id].events, agent) == ""
  {
    PrunesIff(h, stream, e, id);
    hide Prunes;
    PrunedKeepsBubble(h, stream, e, id, agent);
    hide OnEvent, Bubble;
  }

  lemma ErrorDropsBubble(h: Hook, id: Id, time: Timestamp, agent: AgentId)
    ensures Bubble(Dispatch(h, id, StreamError(time)).g, id, agent) == ""
  {
    hide NextEnd;
  }

  /** A stream error drops the bubble and leaves the segments: they still agree only
      when nothing was open or the error prunes the run itself. */
  lemma ErrorDisturbsIff(h: Hook, id: Id, time: Timestamp, agent: AgentId)
    ensures Agree(Dispatch(h, id, StreamError(time)).g, id, agent)
      <==> OpenText(RunOf(h.g, id).events, agent) == "" || ErrorPrunes(h.g, id, time, id)
  {
    ErrorDropsBubble(h, id, time, agent);
    if id in h.g.runs {
      ErrorPrunesIff(h, id, time, id);
      hide ErrorPrunes;
      var run := h.g.runs[id];
      EditSpeaks(run.events, Mark(ErrorEvent(time)), agent);
      hide OpenText, Apply, Pruned, Bubble;
      assert OpenText([], agent) == "" by { NothingOpen(agent); }
      PrunedSame(h.g.(runs := h.g.runs[id := run.(status := Errored,
        events := Apply(run.events, Mark(ErrorEvent(time))))]), id);
    }
  }

  lemma NothingOpen(agent: AgentId)
    ensures OpenText([], agent) == ""
  {
  }

  /** A message without a sender: of the two fallback names one loses its segments
      and the other its bubble. */
  lemma NamelessDisturbsIff(h: Hook, id: Id, e: StreamEvent, agent: AgentId)
    requires Agree(h.g, id, agent) && id !in h.g.retired && Nameless(h.g, e, agent)
    ensures Agree(Dispatch(h, id, e).g, id, agent) <==> OpenText(RunOf(h.g, id).events, agent) == ""
  {
    EditSpeaks(RunOf(h.g, id).events, Complete(UNKNOWN_AGENT, e.message, e.content), agent);
    EventsKeepBubbles(h.g, FinalizeDraft(id, e.message, None, e.content));
    hide OpenText, Apply;
  }

  lemma EventAgreesIff(h: Hook, stream: Id, e: StreamEvent, id: Id, agent: AgentId)
    requires Agree(h.g, id, agent)
    ensures Agree(OnEvent(h, stream, e).g, id, agent) <==> !Disturbs(h, stream, e, id, agent)
  {
    if stream == id && e.StreamError? {
      OwnErrorIff(h, id, e, agent);
    } else if Prunes(h, stream, e, id) {
      PruningDisturbsIff(h, stream, e, id, agent);
      hide OnEvent, Agree, OpenText, AcceptsEvent;
    } else {
      KeptAgreesIff(h, stream, e, id, agent);
      hide OnEvent, Agree, OpenText, AcceptsEvent;
    }
  }

  lemma OwnErrorIff(h: Hook, id: Id, e: StreamEvent, agent: AgentId)
    requires Agree(h.g, id, agent) && e.StreamError?
    ensures Agree(OnEvent(h, id, e).g, id, agent) <==> !Disturbs(h, id, e, id, agent)
  {
    ErrorDisturbsIff(h, id, e.time, agent);
    assert id !in h.g.runs ==> OpenText(RunOf(h.g, id).events, agent) == "" by { NothingOpen(agent); }
    hide Agree, OpenText, AcceptsEvent, Dispatch;
  }

  lemma KeptAgreesIff(h: Hook, stream: Id, e: StreamEvent, id: Id, agent: AgentId)
    requires Agree(h.g, id, agent) && !Prunes(h, stream, e, id) && !(stream == id && e.StreamError?)
    ensures Agree(OnEvent(h, stream, e).g, id, agent)
      <==> !(OpenText(RunOf(h.g, id).events, agent) != ""
             && stream == id && AcceptsEvent(h.g, id) && Nameless(h.g, e, agent))
  {
    NotPrunedIsKept(h, stream, e, id);
    hide Agree, OnScheduler, OnDone, Dispatch, Nameless, OpenText, Prunes;
    if e.SchedulerEvent? {
      SchedulerAgrees(h, stream, e.update, id, agent);
      NotNameless(h.g, e, agent);
    } else if e.Done? {
      DoneAgrees(h, stream, id, agent);
      NotNameless(h.g, e, agent);
    } else if AcceptsEvent(h.g, stream) {
      if stream != id {
        ElsewhereAgrees(h, stream, e, id, agent);
      } else if Nameless(h.g, e, agent) {
        NamelessDisturbsIff(h, id, e, agent);
      } else {
        OwnAgrees(h, e, id, agent);
      }
    }
  }

  lemma NotPrunedIsKept(h: Hook, stream: Id, e: StreamEvent, id: Id)
    requires !Prunes(h, stream, e, id)
    ensures Kept(h.g, OnEvent(h, stream, e).g, id)
  {
    hide OnEvent;
    if id in h.g.runs {
      PrunesIff(h, stream, e, id);
      hide Prunes;
    }
  }

  lemma NotNameless(g: Group, e: StreamEvent, agent: AgentId)
    ensures Nameless(g, e, agent) ==> e.AgentMessage?
  {
  }

  ghost predicate Undisturbed(h: Hook, events: seq<(Id, StreamEvent)>, id: Id, agent: AgentId) {
    events != [] ==>
      (var n := |events| - 1;
       Undisturbed(h, events[..n], id, agent)
       && !Disturbs(OnEvents(h, events[..n]), events[n].0, events[n].1, id, agent))
  }

  ghost predicate AgreesThroughout(h: Hook, events: seq<(Id, StreamEvent)>, id: Id, agent: AgentId) {
    && Agree(OnEvents(h, events).g, id, agent)
    && (events != [] ==> AgreesThroughout(h, events[..|events| - 1], id, agent))
  }

  /** Whatever events, agents and streams interleave: an agent's in-flight bubble is
      its open timeline segments, joined, at every moment of a run exactly when none
      of its events disturbs them. */
  lemma {:induction false} BubbleIsSegments(h: Hook, events: seq<(Id, StreamEvent)>, id: Id, agent: AgentId)
    requires Agree(h.g, id, agent)
    ensures AgreesThroughout(h, events, id, agent) <==> Undisturbed(h, events, id, agent)
  {
    if events != [] {
      var n := |events| - 1;
      BubbleIsSegments(h, events[..n], id, agent);
      hide OnEvent, Agree, Disturbs;
      if AgreesThroughout(h, events[..n], id, agent) {
        assert Agree(OnEvents(h, events[..n]).g, id, agent);
        EventAgreesIff(OnEvents(h, events[..n]), events[n].0, events[n].1, id, agent);
      }
    }
  }

  /** A pruned run is the subtle one: the bubble it leaves behind grows when a late
      token brings the run back with an empty timeline. */
  lemma RevivedRunDisagrees(h: Hook, id: Id, agent: AgentId, delta: Text)
    requires id !in h.g.runs && id !in h.g.retired && delta != "" && Bubble(h.g, id, agent) != ""
    ensures var g := OnEvent(h, id, Token(agent, delta)).g;
      && OpenText(RunOf(g, id).events, agent) == delta
      && Bubble(g, id, agent) == Bubble(h.g, id, agent) + delta != delta
  {
    TouchSpeaks(h.g, id, Say(agent, delta), agent);
    NothingOpen(agent);
    EventsKeepBubbles(h.g, Touch(id, Say(agent, delta)));
    hide NextEvents, OpenText;
    assert "" + delta == delta;
  }
}
