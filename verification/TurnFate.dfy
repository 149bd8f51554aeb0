/**
 What the scheduler's updates and the stream's events do to a run: what it shows,
 when a turn is over for good, and what still reaches it.
 */
module TurnFate {
  import opened Prelude
  import opened Timeline
  import opened RunTable
  import opened StreamHook

  // ---- Scheduler updates ----

  /** A turn with this status goes on. */
  predicate Open(status: TurnStatus) {
    status == Pending || status == Running || status == Waiting
  }

  /** The run may be told by this update: its stream, its turn, not retired. */
  predicate Concerns(g: Group, stream: Id, update: Update) {
    && stream !in g.retired && update.stream == stream
    && (stream in g.runs && g.runs[stream].turn.Some? ==>
      g.runs[stream].turn.value == update.turn || g.runs[stream].turn.value == NO_TURN)
  }

  /** An update is accepted exactly when it concerns the run and the turn goes on, or it
      is `done`, or it repeats how the turn was completed. */
  lemma AcceptedIff(g: Group, stream: Id, update: Update)
    ensures AcceptsUpdate(g, stream, update) <==>
      && Concerns(g, stream, update)
      && (stream in g.runs && g.runs[stream].scheduler.Some? && !Open(g.runs[stream].scheduler.value) ==>
        || update.kind == DoneKind
        || update.kind == Ended(true, g.runs[stream].scheduler.value, g.runs[stream].reason))
  {
  }

  /** What the status of a run shows of its turn. */
  predicate Shows(run: RunStatus, turn: TurnStatus) {
    && (run == Active <==> turn == Queued || Open(turn))
    && (run == Aborted <==> turn == TurnCancelled)
    && (run == Errored <==> turn == TurnFailed)
  }

  /** The end of a turn is recorded, with its reason, whatever the run was before. */
  lemma EndIsRecorded(g: Group, stream: Id, update: Update)
    requires AcceptsUpdate(g, stream, update) && update.kind.Ended?
    ensures var h := NextTurn(g, Scheduler(stream, update));
      && stream in h.runs
      && h.runs[stream].scheduler == Some(update.kind.status) && h.runs[stream].reason == update.kind.reason
      && h.runs[stream].turn == Some(update.turn) && !h.runs[stream].moderator
      && Shows(h.runs[stream].status, update.kind.status)
      && h.runs[stream].events == RunOf(g, stream).events
      && (forall id :: id != stream ==> (id in h.runs <==> id in g.runs) && (id in g.runs ==> h.runs[id] == g.runs[id]))
  {
  }

  /** After the end of a turn nothing but `done` and its repetition is accepted for the
      run, and no event of the stream passes the gate. */
  lemma EndedTurnIsClosed(g: Group, stream: Id, update: Update, later: Update)
    requires AcceptsUpdate(g, stream, update) && update.kind.Ended? && !Open(update.kind.status)
    ensures var h := NextTurn(g, Scheduler(stream, update));
      && !AcceptsEvent(h, stream)
      && (AcceptsUpdate(h, stream, later) <==>
        && Concerns(h, stream, later)
        && (later.kind == DoneKind || later.kind == Ended(true, update.kind.status, update.kind.reason)))
  {
    EndIsRecorded(g, stream, update);
    AcceptedIff(NextTurn(g, Scheduler(stream, update)), stream, later);
  }

  /** The run is kept at every moment of the run of actions. */
  ghost predicate KeptBy(g: Group, actions: seq<Action>, id: Id) {
    id in All(g, actions).runs && (actions != [] ==> KeptBy(g, actions[..|actions| - 1], id))
  }

  function All(g: Group, actions: seq<Action>): Group {
    if actions == [] then g else Next(All(g, actions[..|actions| - 1]), actions[|actions| - 1])
  }

  /** A turn that has ended stays as it ended, under every run of actions that leaves
      reconciliation with the server out, for as long as its run is kept. */
  lemma {:induction false} EndedTurnStays(g: Group, stream: Id, update: Update, actions: seq<Action>)
    requires AcceptsUpdate(g, stream, update) && update.kind.Ended? && !Open(update.kind.status)
    requires KeptBy(NextTurn(g, Scheduler(stream, update)), actions, stream)
    requires forall a <- actions :: !(a.OfTurn? && a.t.Reconcile?)
    ensures var h := All(NextTurn(g, Scheduler(stream, update)), actions);
      && h.runs[stream].scheduler == Some(update.kind.status)
      && !AcceptsEvent(h, stream)
  {
    EndIsRecorded(g, stream, update);
    var h := NextTurn(g, Scheduler(stream, update));
    if actions != [] {
      var n := |actions| - 1;
      assert actions[n] in actions && forall a <- actions[..n] :: a in actions;
      EndedTurnStays(g, stream, update, actions[..n]);
      hide NextTurn, Next, AcceptsUpdate, Shows;
      FrozenStatusKept(All(h, actions[..n]), actions[n], stream);
    }
  }

  /** The start of a turn makes its run active; it is then open to all its events. */
  lemma StartIsRecorded(g: Group, stream: Id, update: Update)
    requires AcceptsUpdate(g, stream, update) && update.kind == Started
    ensures var h := NextTurn(g, Scheduler(stream, update));
      && stream in h.runs && h.runs[stream].scheduler == Some(Running) && h.runs[stream].reason == None
      && h.runs[stream].turn == Some(update.turn) && AcceptsEvent(h, stream)
  {
  }

  /** A moderator's progress and `done` change no status. */
  lemma ProgressKeepsStatus(g: Group, stream: Id, update: Update)
    requires AcceptsUpdate(g, stream, update) && (update.kind.Progress? || update.kind.DoneKind?)
    ensures var h, run := NextTurn(g, Scheduler(stream, update)), RunOf(g, stream);
      && stream in h.runs
      && h.runs[stream] == run.(turn := Some(update.turn), moderator := update.kind == Progress(true))
  {
  }

  /** Reconciliation brings exactly the runs of the turn to the server's status. */
  lemma ReconciledIff(g: Group, turn: TurnId, status: TurnStatus, reason: Option<Reason>, id: Id)
    requires id in g.runs
    ensures var h := NextTurn(g, Reconcile(turn, status, reason));
      && h.runs.Keys == g.runs.Keys
      && (g.runs[id].turn != Some(turn) ==> h.runs[id] == g.runs[id])
      && (g.runs[id].turn == Some(turn) ==>
        && h.runs[id].scheduler == Some(status) && h.runs[id].reason == reason && !h.runs[id].moderator
        && Shows(h.runs[id].status, status) && h.runs[id].events == g.runs[id].events)
  {
  }

  /** A turn waits for the user only while it goes on, and then says so. */
  lemma WaitsIff(g: Group, stream: Id)
    requires stream in g.runs
    ensures var run, h := g.runs[stream], NextTurn(g, MarkWaiting(stream));
      && stream in h.runs
      && (run.turn.Some? && run.turn.value != NO_TURN && (run.scheduler.Some? ==> Open(run.scheduler.value)) ==>
        h.runs[stream] == run.(scheduler := Some(Waiting), reason := Some(WAITING_REASON)))
      && (run.scheduler.Some? && !Open(run.scheduler.value) ==> h == g)
      && (run.turn.None? || run.turn.value == NO_TURN ==> h == g)
  {
  }

  // ---- The end of a stream ----

  /** `done` finishes an active run and no other; it leaves one marker. */
  lemma DoneFinishes(run: Run)
    ensures var d := DoneRun(run);
      && d.status == (if run.status == Active then Finished else run.status)
      && (exists e <- d.events :: e.id == DoneId)
      && d == run.(status := d.status, events := d.events)
      && (d.events == run.events || d.events == run.events + [DONE])
  {
    assert HasDone(run.events + [DONE]) by { assert (run.events + [DONE])[|run.events|] == DONE; }
  }

  /** An error and a cancellation end the run and say so last; a cancellation leaves a
      turn that is over alone, and ends one that goes on. */
  lemma EndsAreRecorded(g: Group, stream: Id, time: Timestamp, run: Run)
    requires stream in g.runs
    ensures var h := NextEnd(g, MarkError(stream, time));
      stream in h.runs ==>
        h.runs[stream] == g.runs[stream].(status := Errored, events := g.runs[stream].events + [ErrorEvent(time)])
    ensures run.turn.Some? && run.turn.value != NO_TURN && run.scheduler.Some? && !Open(run.scheduler.value) ==>
      CancelRun(run, time) == run
    ensures run.turn.Some? && run.turn.value != NO_TURN && (run.scheduler.Some? ==> Open(run.scheduler.value)) ==>
      CancelRun(run, time) == run.(status := Aborted, scheduler := Some(TurnCancelled), reason := Some(CANCEL_REASON),
                                   events := run.events + [CancelEvent(time)])
    ensures run.turn.None? || run.turn.value == NO_TURN ==>
      CancelRun(run, time) == run.(status := Aborted, events := run.events + [CancelEvent(time)])
  {
    var errored := g.runs[stream].(status := Errored, events := g.runs[stream].events + [ErrorEvent(time)]);
    PrunedSame(g.(runs := g.runs[stream := errored]), stream);
    hide Pruned;
  }

  /** Each named run is cancelled once, however often it is named, and no other is. */
  lemma {:induction false} CancelsNamed(runs: map<Id, Run>, streams: seq<Id>, time: Timestamp, id: Id)
    requires id in runs && Distinct(streams)
    ensures CancelRuns(runs, streams, time)[id] == if id in streams then CancelRun(runs[id], time) else runs[id]
  {
    hide CancelRun;
    if streams != [] {
      var front, last := streams[..|streams| - 1], streams[|streams| - 1];
      assert streams == front + [last];
      CancelsNamed(runs, front, time, id);
    }
  }

  lemma {:induction false} ActiveOnes(runs: map<Id, Run>, order: seq<Id>)
    ensures forall id :: id in ActiveIds(runs, order) <==> id in order && id in runs && runs[id].status == Active
  {
    if order != [] {
      ActiveOnes(runs, order[1..]);
    }
  }

  // ---- Messages and runs ----

  /** A removed message takes its run with it; no event reaches that stream any more. */
  lemma RemovalSilences(g: Group, m: Id, update: Update)
    requires m in g.index
    ensures var h, stream := NextGroup(g, RemoveMessage(m)), g.index[m];
      && m !in h.index && m in h.deleted && stream !in h.runs
      && !AcceptsEvent(h, stream) && !AcceptsUpdate(h, stream, update)
      && (forall id <- g.runs :: id != stream ==> id in h.runs && h.runs[id] == g.runs[id])
  {
  }

  /** Clearing and retiring silence every stream there was. */
  lemma RetirementSilences(g: Group, shown: set<Id>, stream: Id, update: Update)
    requires stream in g.runs || stream in g.retired
    ensures forall a :: a == RetireStreams || a == ClearMessages(shown) ==>
      var h := NextGroup(g, a);
      && !AcceptsEvent(h, stream) && !AcceptsUpdate(h, stream, update)
      && h.bubbles == map[] && h.deleted == (if a.RetireStreams? then g.deleted else g.deleted + shown)
      && (if a.RetireStreams? then h.runs == g.runs else h.runs == map[] && h.order == [] && h.index == map[])
  {
  }

  /** A settled optimistic message hands its run over to the real one. */
  lemma SettledIsLinked(g: Group, optimistic: Id, m: Id)
    requires optimistic in g.index && optimistic != m
    ensures var h, stream := NextGroup(g, SettleOptimistic(optimistic, m)), g.index[optimistic];
      && m in h.index && h.index[m] == stream && optimistic !in h.index
      && (stream in g.runs ==> stream in h.runs && h.runs[stream] == g.runs[stream].(userMessage := m))
  {
  }

  /** Linking files the run under the message as well. */
  lemma LinkedRun(g: Group, stream: Id, m: Id)
    requires stream in g.runs
    ensures var h := NextGroup(g, LinkRun(stream, m));
      && h.index == g.index[m := stream] && h.runs == g.runs[stream := g.runs[stream].(userMessage := m)]
  {
  }

  /** A started run keeps what it already knew of its turn and takes the rest. */
  lemma StartedKnows(g: Group, stream: Id, m: Id, turn: Option<TurnId>, scheduler: Option<TurnStatus>,
      reason: Option<Reason>)
    requires Coherent(g)
    ensures var h, old' := Start(g, stream, m, turn, scheduler, reason), RunOf(g, stream);
      && stream in h.runs && h.runs[stream].userMessage == m && h.runs[stream].events == old'.events
      && h.runs[stream].turn == (if old'.turn == None then turn else old'.turn)
      && h.runs[stream].scheduler == (if old'.scheduler == None then scheduler else old'.scheduler)
      && h.runs[stream].reason == (if old'.reason == None then reason else old'.reason)
  {
    StartedIsKept(g, stream, m, turn, scheduler, reason);
    var old' := RunOf(g, stream);
    PrunedSame(File(g, stream, old'.(userMessage := m, status := Active, turn := Or(old'.turn, turn),
      scheduler := Or(old'.scheduler, scheduler), reason := Or(old'.reason, reason))), stream);
    hide Pruned, Coherent, FinishedIds;
  }

  // ---- The gate and the timeline ----

  /** A stream that is not retired listens while its run, if there is one, is active and
      its turn, if it has a status, goes on. */
  predicate Listens(g: Group, stream: Id) {
    && stream !in g.retired
    && (stream in g.runs ==>
      g.runs[stream].status == Active && (g.runs[stream].scheduler.Some? ==> Open(g.runs[stream].scheduler.value)))
  }

  /** Output of a run that had ended makes it active again. */
  lemma OutputActivates(g: Group, stream: Id, edit: Edit)
    ensures var h := NextEvents(g, Touch(stream, edit));
      && stream in h.runs && h.runs[stream].events == Apply(RunOf(g, stream).events, edit)
      && (edit.Say? || edit.Think? || edit.Put? ==> h.runs[stream].status == Active)
      && (edit.Note? || edit.Mark? ==> h.runs[stream].status == RunOf(g, stream).status)
  {
    hide Apply;
  }

  /** Which streams count as failed: from an error that its stream listened to until its
      next `done`. */
  lemma FailedIff(h: Hook, stream: Id, e: StreamEvent, id: Id)
    ensures id in OnEvent(h, stream, e).errored <==>
      if stream != id then id in h.errored
      else if e.Done? || (e.SchedulerEvent? && e.update.kind == DoneKind && AcceptsUpdate(h.g, id, e.update)) then false
      else id in h.errored || (e.StreamError? && Listens(h.g, id))
  {
    hide NextGroup, NextEvents, NextTurn, NextEnd, AcceptsUpdate, EditOf;
    ListensIff(h.g, id);
  }

  /** The event says that the turn waits for the user. */
  predicate SaysWaiting(e: StreamEvent) {
    e.Notice? && (e.kind == WaitingForUser || e.kind == ApprovalRequired)
  }

  /** How one event of its stream moves the status of a run's turn. */
  function StatusAfter(h: Hook, e: StreamEvent, id: Id): Option<TurnStatus> {
    var run := RunOf(h.g, id);
    if e.SchedulerEvent? then
      if !AcceptsUpdate(h.g, id, e.update) then run.scheduler
      else if e.update.kind == Started then Some(Running)
      else if e.update.kind.Ended? then Some(e.update.kind.status)
      else run.scheduler
    else if SaysWaiting(e) && Listens(h.g, id) && run.turn.Some? && run.turn.value != NO_TURN then Some(Waiting)
    else run.scheduler
  }

  /** The status of a turn moves with the scheduler's updates and with a notice that it
      waits, and with no other event. */
  lemma StatusMoves(h: Hook, stream: Id, e: StreamEvent, id: Id)
    requires id in OnEvent(h, stream, e).g.runs
    ensures OnEvent(h, stream, e).g.runs[id].scheduler
      == if stream == id then StatusAfter(h, e, id) else RunOf(h.g, id).scheduler
  {
    if stream != id {
      ElsewhereStays(h, stream, e, id);
      hide OnEvent;
    } else if e.SchedulerEvent? {
      hide Pruned, HasDone, AcceptsUpdate;
      PrunedSame(MarkedDone(NextTurn(h.g, Scheduler(id, e.update)), id), id);
    } else if e.Done? {
      hide Pruned, HasDone;
      PrunedSame(MarkedDone(h.g, id), id);
    } else {
      ListensIff(h.g, id);
      hide Listens, AcceptsEvent, Dispatch;
      if Listens(h.g, id) {
        DispatchStatus(h, e, id);
      }
    }
  }

  lemma DispatchStatus(h: Hook, e: StreamEvent, id: Id)
    requires !e.SchedulerEvent? && !e.Done? && id in Dispatch(h, id, e).g.runs && Listens(h.g, id)
    ensures Dispatch(h, id, e).g.runs[id].scheduler == StatusAfter(h, e, id)
  {
    hide Listens, Pruned, Apply, EditOf;
    match e
    case UserMessage(m) => PrunedSame(StreamHook.Started(h.g, id, m), id);
    case StreamError(time) =>
      if id in h.g.runs {
        PrunedSame(MarkedErrored(h.g, id, time), id);
      }
    case ContextUsage(_, _) =>
    case Token(_, _) =>
    case AgentMessage(_, _, _) =>
    case SilentAgent(_, _) =>
    case _ =>
      hide Dispatch, StatusAfter;
      EditStatus(h, e, id);
  }

  lemma EditStatus(h: Hook, e: StreamEvent, id: Id)
    requires !e.SchedulerEvent? && !e.Done? && !e.UserMessage? && !e.StreamError? && !e.ContextUsage?
    requires !e.Token? && !e.AgentMessage? && !e.SilentAgent?
    requires id in Dispatch(h, id, e).g.runs && Listens(h.g, id)
    ensures Dispatch(h, id, e).g.runs[id].scheduler == StatusAfter(h, e, id)
  {
    hide Apply;
  }

  /** A completed or silent agent has no bubble of the stream any more, nor one that is
      still without a stream. */
  lemma BubbleGoes(h: Hook, stream: Id, e: StreamEvent, agent: AgentId)
    requires Listens(h.g, stream)
    requires (e.SilentAgent? && e.agent == agent)
      || (e.AgentMessage? && e.message !in h.g.deleted && (if e.sender.Some? then e.sender.value else "") == agent)
    ensures var b, c := OnEvent(h, stream, e).g.bubbles, h.g.bubbles;
      && BubbleKey(Some(stream), agent) !in b && BubbleKey(None, agent) !in b
      && (forall key :: key != BubbleKey(Some(stream), agent) && key != BubbleKey(None, agent) ==>
           (key in b <==> key in c) && (key in b ==> b[key] == c[key]))
  {
    ListensIff(h.g, stream);
    hide Listens, AcceptsEvent, Touched, RunOf;
  }

  function Plain(id: EventId, agent: AgentId, detail: nat): (e: OtherEvent)
    requires !id.DraftId? && !id.ReasoningId?
  {
    Event(id, Some(agent), "", false, None, detail)
  }

  /** What an event that its stream listens to does to the timeline. */
  function Edits(h: Hook, e: StreamEvent, id: Id): seq<Edit> {
    match e
    case Token(agent, delta) => if delta == "" then [] else [Say(agent, delta)]
    case ReasoningToken(agent, delta) => if delta == "" then [] else [Think(agent, delta)]
    case AgentMessage(sender, m, content) =>
      if m in h.g.deleted then [] else [Complete(if sender.Some? then sender.value else UNKNOWN_AGENT, m, content)]
    case SilentAgent(agent, time) => [Clear(agent), Note(AgentSilent, Some(agent), time, 0)]
    case AgentStart(agent, detail) => [Put(Plain(StartId(agent, 0, 0), agent, detail), None)]
    case ContextUsage(agent, detail) => [Usage(agent, detail)]
    case ToolCall(agent, call, detail) => [Put(Plain(ToolId(call), agent, detail), Some(agent))]
    case ExternalRun(agent, run, detail) => [Put(Plain(ExternalId(run), agent, detail), Some(agent))]
    case TodoUpdate(agent, detail) => [Put(Plain(TodoId(agent), agent, detail), None)]
    case Notice(kind, from, time, detail) => [Note(kind, from, time, detail)]
    case StreamError(time) => if id in h.g.runs then [Mark(ErrorEvent(time))] else []
    case _ => []
  }

  /** The marker of a stream that ends without an error, once. */
  function Marker(g: Group, errored: set<Id>, id: Id): seq<Edit> {
    if id !in errored && !(id in g.runs && HasDone(g.runs[id].events)) then [Mark(DONE)] else []
  }

  /** The timeline of a run after one event, from the one before it. */
  function Written(h: Hook, stream: Id, e: StreamEvent, id: Id, before: Events): Events {
    if Prunes(h, stream, e, id) then []
    else if stream != id then before
    else if e.Done? then if id in h.g.runs then ApplyAll(before, Marker(h.g, h.errored, id)) else before
    else if e.SchedulerEvent? then
      if AcceptsUpdate(h.g, id, e.update) && e.update.kind == DoneKind
      then ApplyAll(before, Marker(h.g, h.errored, id)) else before
    else if Listens(h.g, id) then ApplyAll(before, Edits(h, e, id))
    else before
  }

  /** The timeline as the stream's events write it. */
  function WrittenBy(h: Hook, events: seq<(Id, StreamEvent)>, id: Id): Events {
    if events == [] then RunOf(h.g, id).events
    else
      var n := |events| - 1;
      Written(OnEvents(h, events[..n]), events[n].0, events[n].1, id, WrittenBy(h, events[..n], id))
  }

  lemma AppliesOne(events: Events, edit: Edit)
    ensures ApplyAll(events, [edit]) == Apply(events, edit) && ApplyAll(events, []) == events
  {
    assert [edit][..0] == [];
  }

  lemma AppliesTwo(events: Events, a: Edit, b: Edit)
    ensures ApplyAll(events, [a, b]) == Apply(Apply(events, a), b)
  {
    assert [a, b][..1] == [a];
    AppliesOne(events, a);
  }

  /** A run that has just become finished and is the newest is not pruned. */
  lemma NewestStays(g: Group, stream: Id)
    requires Coherent(g) && g.order != [] && g.order[|g.order| - 1] == stream
    ensures stream !in Removed(g)
  {
    var finished := FinishedIds(g.runs, g.order);
    FinishedKeeps(g.runs, g.order);
    NewestIsLast(g.runs, g.order);
    if |finished| > MAX_COMPLETED {
      forall i | 0 <= i < |finished| - MAX_COMPLETED ensures finished[i] != stream {
        assert finished[i] != finished[|finished| - 1] && finished[i] in finished;
      }
    }
  }

  lemma {:induction false} NewestIsLast(runs: map<Id, Run>, order: seq<Id>)
    requires order != []
    ensures var last := order[|order| - 1]; var f := FinishedIds(runs, order);
      last in f ==> f[|f| - 1] == last
  {
    if |order| > 1 {
      NewestIsLast(runs, order[1..]);
      FinishedKeeps(runs, order[1..]);
      FinishedKeeps(runs, order);
      assert order[1..][|order| - 2] == order[|order| - 1];
      if order[|order| - 1] in runs && !runs[order[|order| - 1]].status.Active? {
        assert order[|order| - 1] in order[1..];
      }
    }
  }

  lemma DoneWrites(h: Hook, id: Id)
    requires id in h.g.runs && !DonePrunes(h, id, id)
    ensures RunOf(OnDone(h, id).g, id).events
      == ApplyAll(RunOf(h.g, id).events, Marker(h.g, h.errored, id))
  {
    AppliesOne(h.g.runs[id].events, Mark(DONE));
    DonePrunesIff(h, id, id);
    PrunedSame(MarkedDone(h.g, id), id);
    hide Pruned, HasDone, DonePrunes;
  }

  lemma SchedulerWrites(h: Hook, update: Update, id: Id)
    requires Coherent(h.g) && !Prunes(h, id, SchedulerEvent(update), id)
    ensures RunOf(OnScheduler(h, id, update).g, id).events
      == Written(h, id, SchedulerEvent(update), id, RunOf(h.g, id).events)
  {
    if AcceptsUpdate(h.g, id, update) {
      var h1 := h.(g := NextTurn(h.g, Scheduler(id, update)));
      assert id in h1.g.runs && RunOf(h1.g, id).events == RunOf(h.g, id).events;
      if update.kind.DoneKind? {
        if id !in h.g.runs {
          NewFinished(h, update, id);
        }
        hide NextTurn, OnDone, DonePrunes, Coherent, Updated;
        DoneWrites(h1, id);
        assert Marker(h1.g, h1.errored, id) == Marker(h.g, h.errored, id) by { EmptyHasNone(id); }
      }
    }
  }

  lemma EmptyHasNone(id: Id)
    ensures !HasDone(EmptyRun(id).events)
  {
  }

  lemma NewFinished(h: Hook, update: Update, id: Id)
    requires Coherent(h.g) && id !in h.g.runs && AcceptsUpdate(h.g, id, update)
    ensures !DonePrunes(h.(g := NextTurn(h.g, Scheduler(id, update))), id, id)
  {
    var g1 := NextTurn(h.g, Scheduler(id, update));
    FileCoherent(h.g, id, Updated(RunOf(h.g, id), update));
    assert g1.order == h.g.order + [id];
    SameKeysCoherent(g1, MarkedDone(g1, id));
    hide Removed, DoneRun, Updated, Coherent;
    NewestStays(MarkedDone(g1, id), id);
  }

  lemma ElsewhereStays(h: Hook, stream: Id, e: StreamEvent, id: Id)
    requires stream != id
    ensures Untouched(h.g, OnEvent(h, stream, e).g, id)
  {
    hide Dispatch, NextTurn, NextEnd;
    if e.SchedulerEvent? {
      TurnElsewhere(h.g, Scheduler(stream, e.update), id);
      EndElsewhere(NextTurn(h.g, Scheduler(stream, e.update)), MarkDone(stream), id);
    } else if e.Done? {
      EndElsewhere(h.g, MarkDone(stream), id);
    } else {
      DispatchElsewhere(h, stream, e, id);
    }
  }

  lemma StartWrites(g: Group, id: Id, m: Id)
    requires id in g.runs ==> id !in Removed(StreamHook.Started(g, id, m))
    ensures RunOf(Start(g, id, m, None, None, None), id).events == RunOf(g, id).events
  {
    PrunedGone(StreamHook.Started(g, id, m), id);
    PrunedSame(StreamHook.Started(g, id, m), id);
    hide Pruned, Removed;
  }

  lemma ErrorWrites(h: Hook, time: Timestamp, id: Id)
    requires id in h.g.runs ==> !ErrorPrunes(h.g, id, time, id)
    ensures RunOf(Dispatch(h, id, StreamError(time)).g, id).events
      == ApplyAll(RunOf(h.g, id).events, Edits(h, StreamError(time), id))
  {
    AppliesOne(RunOf(h.g, id).events, Mark(ErrorEvent(time)));
    if id in h.g.runs {
      PrunedGone(MarkedErrored(h.g, id, time), id);
      PrunedSame(MarkedErrored(h.g, id, time), id);
      hide Pruned, Removed;
    }
  }

  lemma SilenceWrites(h: Hook, agent: AgentId, time: Timestamp, id: Id)
    ensures RunOf(Dispatch(h, id, SilentAgent(agent, time)).g, id).events
      == ApplyAll(RunOf(h.g, id).events, Edits(h, SilentAgent(agent, time), id))
  {
    AppliesTwo(RunOf(h.g, id).events, Clear(agent), Note(AgentSilent, Some(agent), time, 0));
    assert ClearDraft([], agent) == [];
    hide ClearDraft, AppendNotice;
  }

  lemma EditWrites(h: Hook, e: StreamEvent, id: Id)
    requires !e.StreamError? && !e.UserMessage? && !e.SilentAgent? && id !in h.g.retired
    requires !e.SchedulerEvent? && !e.Done?
    ensures RunOf(Dispatch(h, id, e).g, id).events == ApplyAll(RunOf(h.g, id).events, Edits(h, e, id))
  {
    var edits, before := Edits(h, e, id), RunOf(h.g, id).events;
    if edits != [] { AppliesOne(before, edits[0]); }
    assert ApplyAll(before, []) == before;
    assert e.ContextUsage? ==> SetUsage([], e.agent, e.detail) == [];
    hide ApplyAll, Apply, CanWait, Touched;
    TouchWrites(h.g, id, if edits != [] then edits[0] else Clear(""));
    WaitingWrites(NextEvents(h.g, Touch(id, if edits != [] then edits[0] else Clear(""))), id);
  }

  lemma TouchWrites(g: Group, id: Id, edit: Edit)
    ensures RunOf(NextEvents(g, Touch(id, edit)), id).events == Apply(RunOf(g, id).events, edit)
    ensures Touched(RunOf(g, id), edit).events == Apply(RunOf(g, id).events, edit)
  {
    hide Apply;
  }

  lemma WaitingWrites(g: Group, id: Id)
    ensures RunOf(NextTurn(g, MarkWaiting(id)), id).events == RunOf(g, id).events
  {
  }

  lemma OwnEventWrites(h: Hook, e: StreamEvent, id: Id)
    requires Coherent(h.g) && !Prunes(h, id, e, id)
    ensures RunOf(OnEvent(h, id, e).g, id).events == Written(h, id, e, id, RunOf(h.g, id).events)
  {
    ListensIff(h.g, id);
    hide Listens, AcceptsEvent, ApplyAll, Edits, Marker, Dispatch, RunOf, Coherent;
    if e.SchedulerEvent? {
      SchedulerWrites(h, e.update, id);
    } else if e.Done? {
      DoneOrNot(h, id);
    } else if Listens(h.g, id) {
      DispatchWrites(h, e, id);
    }
  }

  lemma DoneOrNot(h: Hook, id: Id)
    ensures id !in h.g.runs ==> OnDone(h, id).g == h.g
    ensures id in h.g.runs && !DonePrunes(h, id, id) ==>
      RunOf(OnDone(h, id).g, id).events == ApplyAll(RunOf(h.g, id).events, Marker(h.g, h.errored, id))
  {
    if id in h.g.runs && !DonePrunes(h, id, id) {
      hide OnDone, DonePrunes;
      DoneWrites(h, id);
    }
  }

  lemma ListensIff(g: Group, id: Id)
    ensures Listens(g, id) <==> AcceptsEvent(g, id)
    ensures Listens(g, id) ==> id !in g.retired
  {
  }

  lemma DispatchWrites(h: Hook, e: StreamEvent, id: Id)
    requires AcceptsEvent(h.g, id) && id !in h.g.retired && !Prunes(h, id, e, id)
    requires !e.SchedulerEvent? && !e.Done?
    ensures RunOf(Dispatch(h, id, e).g, id).events == ApplyAll(RunOf(h.g, id).events, Edits(h, e, id))
  {
    hide ApplyAll, AcceptsEvent, ErrorPrunes, Removed, StreamHook.Started;
    match e
    case UserMessage(m) => StartWrites(h.g, id, m); NothingApplies(RunOf(h.g, id).events); hide Start;
    case StreamError(time) => ErrorWrites(h, time, id);
    case SilentAgent(agent, time) => SilenceWrites(h, agent, time, id);
    case _ => EditWrites(h, e, id);
  }

  lemma NothingApplies(events: Events)
    ensures ApplyAll(events, []) == events
  {
  }

  lemma EventWrites(h: Hook, stream: Id, e: StreamEvent, id: Id)
    requires Coherent(h.g)
    ensures RunOf(OnEvent(h, stream, e).g, id).events == Written(h, stream, e, id, RunOf(h.g, id).events)
  {
    hide OnEvent, Prunes, Coherent;
    if Prunes(h, stream, e, id) {
      PrunedIsThere(h, stream, e, id);
      PrunesIff(h, stream, e, id);
    } else if stream != id {
      ElsewhereStays(h, stream, e, id);
      NotPrunedIsKept(h, stream, e, id);
    } else {
      OwnEventWrites(h, e, id);
    }
  }

  lemma PrunedIsThere(h: Hook, stream: Id, e: StreamEvent, id: Id)
    requires Prunes(h, stream, e, id)
    ensures id in h.g.runs
  {
  }

  lemma DispatchCoherent(h: Hook, stream: Id, e: StreamEvent)
    requires Coherent(h.g)
    ensures Coherent(Dispatch(h, stream, e).g)
  {
    hide Coherent, NextGroup, NextEvents, NextTurn, NextEnd, EditOf;
    match e
    case UserMessage(m) => GroupCoherent(h.g, StartRun(stream, m, None, None, None));
    case ContextUsage(a, detail) => EventsCoherent(h.g, UsageOf(stream, a, detail));
    case Token(a, delta) =>
      if delta != "" {
        EventsCoherent(h.g, Touch(stream, Say(a, delta)));
        BubblesCoherent(NextEvents(h.g, Touch(stream, Say(a, delta))), Dispatch(h, stream, e).g);
      }
    case AgentMessage(sender, m, content) =>
      EventsCoherent(h.g, FinalizeDraft(stream, m, sender, content));
      var g1 := NextEvents(h.g, FinalizeDraft(stream, m, sender, content));
      BubblesCoherent(g1, FinalizeInFlight(g1, stream, sender, m));
    case SilentAgent(a, time) =>
      var g1 := NextEvents(h.g, ClearDraftOf(stream, a));
      EventsCoherent(h.g, ClearDraftOf(stream, a));
      EventsCoherent(g1, Touch(stream, Note(AgentSilent, Some(a), time, 0)));
      BubblesCoherent(NextEvents(g1, Touch(stream, Note(AgentSilent, Some(a), time, 0))), Dispatch(h, stream, e).g);
    case StreamError(time) =>
      EndCoherent(h.g, MarkError(stream, time));
      BubblesCoherent(NextEnd(h.g, MarkError(stream, time)), Dispatch(h, stream, e).g);
    case _ =>
      if EditOf(e).Some? {
        EventsCoherent(h.g, Touch(stream, EditOf(e).value));
        TurnCoherent(NextEvents(h.g, Touch(stream, EditOf(e).value)), MarkWaiting(stream));
      }
  }

  lemma BubblesCoherent(g: Group, h: Group)
    requires Coherent(g) && h.runs == g.runs && h.order == g.order
    ensures Coherent(h)
  {
  }

  lemma EventCoherent(h: Hook, stream: Id, e: StreamEvent)
    requires Coherent(h.g)
    ensures Coherent(OnEvent(h, stream, e).g)
  {
    hide Coherent, NextTurn, NextEnd, Dispatch, AcceptsEvent, AcceptsUpdate;
    if e.SchedulerEvent? {
      TurnCoherent(h.g, Scheduler(stream, e.update));
      EndCoherent(NextTurn(h.g, Scheduler(stream, e.update)), MarkDone(stream));
    } else if e.Done? {
      EndCoherent(h.g, MarkDone(stream));
    } else {
      DispatchCoherent(h, stream, e);
    }
  }

  lemma {:induction false} StaysCoherent(h: Hook, events: seq<(Id, StreamEvent)>)
    requires Coherent(h.g)
    ensures Coherent(OnEvents(h, events).g)
  {
    if events != [] {
      var n := |events| - 1;
      StaysCoherent(h, events[..n]);
      hide Coherent, OnEvent;
      EventCoherent(OnEvents(h, events[..n]), events[n].0, events[n].1);
    }
  }

  /** Over any events of any streams, the timeline of every run is exactly what the
      events its stream listened to have written since it was last pruned. */
  lemma {:induction false} TimelineIsWritten(h: Hook, events: seq<(Id, StreamEvent)>, id: Id)
    requires Coherent(h.g)
    ensures RunOf(OnEvents(h, events).g, id).events == WrittenBy(h, events, id)
  {
    if events != [] {
      var n := |events| - 1;
      TimelineIsWritten(h, events[..n], id);
      StaysCoherent(h, events[..n]);
      hide Coherent, OnEvent, Written, RunOf;
      EventWrites(OnEvents(h, events[..n]), events[n].0, events[n].1, id);
    }
  }
}
