/** The stream runs of one conversation: the run table, its order, the message index. */
module RunTable {
  import opened Prelude
  import opened Timeline

  /** Stream ids and message ids; a run is first filed under its own id as message. */
  type Id = nat

  /** Turn ids; the empty string is `NO_TURN`, which JavaScript takes for false. */
  type TurnId = nat

  const NO_TURN: TurnId := 0

  datatype RunStatus = Active | Finished | Errored | Aborted

  datatype TurnStatus =
    | Queued | Pending | Running | Waiting
    | TurnCompleted | TurnCancelled | Superseded | BudgetExhausted | FailureBudgetExhausted | Silence | TurnFailed

  type Reason = nat

  datatype Run = Run(
    userMessage: Id,
    status: RunStatus,
    turn: Option<TurnId>,
    scheduler: Option<TurnStatus>,
    moderator: bool,
    reason: Option<Reason>,
    events: Events)

  datatype BubbleKey = BubbleKey(stream: Option<Id>, agent: AgentId)

  datatype Group = Group(
    runs: map<Id, Run>,
    order: seq<Id>,
    index: map<Id, Id>,
    retired: set<Id>,
    deleted: set<Id>,
    bubbles: map<BubbleKey, Text>)

  const MAX_COMPLETED := 12
  const WAITING_REASON: Reason := 1
  const CANCEL_REASON: Reason := 2

  predicate Accepts(status: Option<TurnStatus>) {
    status.None? || status.value.Pending? || status.value.Running? || status.value.Waiting?
  }

  function StatusOf(status: TurnStatus): (s: RunStatus)
  {
    match status
    case TurnCancelled => Aborted
    case TurnFailed => Errored
    case Queued | Pending | Running | Waiting => Active
    case _ => Finished
  }

  /** A turn id that JavaScript takes for true. */
  predicate HasTurn(run: Run) {
    run.turn.Some? && run.turn.value != NO_TURN
  }

  function EmptyRun(stream: Id): Run {
    Run(stream, Active, None, None, false, None, [])
  }

  function RunOf(g: Group, stream: Id): Run {
    if stream in g.runs then g.runs[stream] else EmptyRun(stream)
  }

  /** Files a run, at the end of the order when it is new there. */
  function File(g: Group, stream: Id, run: Run): Group {
    g.(runs := g.runs[stream := run], order := if stream in g.order then g.order else g.order + [stream])
  }

  // ---- Pruning ----

  /** The finished runs, oldest first. */
  function FinishedIds(runs: map<Id, Run>, order: seq<Id>): (ids: seq<Id>)
  {
    if order == [] then []
    else
      var rest := FinishedIds(runs, order[1..]);
      if order[0] in runs && !runs[order[0]].status.Active? then [order[0]] + rest else rest
  }

  function Without(order: seq<Id>, removed: set<Id>): (r: seq<Id>)
  {
    if order == [] then []
    else if order[0] in removed then Without(order[1..], removed)
    else [order[0]] + Without(order[1..], removed)
  }

  /** `pruneStreamRuns`: the oldest finished runs beyond the latest twelve. */
  function Removed(g: Group): (ids: set<Id>)
  {
    var finished := FinishedIds(g.runs, g.order);
    if |finished| <= MAX_COMPLETED then {} else Elements(finished[..|finished| - MAX_COMPLETED])
  }

  function Remove(g: Group, removed: set<Id>): Group {
    g.(runs := map id | id in g.runs && id !in removed :: g.runs[id],
       order := Without(g.order, removed),
       index := map m | m in g.index && g.index[m] !in removed :: g.index[m])
  }

  function Pruned(g: Group): Group {
    if Removed(g) == {} then g else Remove(g, Removed(g))
  }

  // ---- Store actions ----

  datatype GroupAction =
    | RetireStreams
    | ClearMessages(shown: set<Id>)
    | RemoveMessage(message: Id)
    | SettleOptimistic(optimistic: Id, message: Id)
    | StartRun(stream: Id, message: Id, turn: Option<TurnId>, scheduler: Option<TurnStatus>, reason: Option<Reason>)
    | LinkRun(stream: Id, message: Id)

  datatype EventAction =
    | Touch(stream: Id, edit: Edit)
    | ClearDraftOf(stream: Id, agent: AgentId)
    | UsageOf(stream: Id, agent: AgentId, detail: nat)
    | FinalizeDraft(stream: Id, message: Id, sender: Option<AgentId>, content: Text)

  datatype Kind =
    | Started
    | Ended(completed: bool, status: TurnStatus, reason: Option<Reason>)
    | Progress(moderatorStarted: bool)
    | DoneKind

  datatype Update = Update(stream: Id, turn: TurnId, kind: Kind)

  datatype TurnAction =
    | Scheduler(stream: Id, update: Update)
    | Reconcile(turn: TurnId, status: TurnStatus, reason: Option<Reason>)
    | MarkWaiting(stream: Id)

  datatype EndAction =
    | MarkDone(stream: Id)
    | MarkError(stream: Id, time: Timestamp)
    | MarkCancelled(streams: Option<seq<Id>>, time: Timestamp)

  datatype Action = OfGroup(g: GroupAction) | OfEvents(e: EventAction) | OfTurn(t: TurnAction) | OfEnd(d: EndAction)

  function DropMessage(g: Group, m: Id): Group {
    var g1 := g.(deleted := g.deleted + {m});
    if m !in g.index then g1
    else
      var stream := g.index[m];
      g1.(retired := g.retired + {stream}, index := g.index - {m}, runs := g.runs - {stream},
          order := Without(g.order, {stream}))
  }

  function Settle(g: Group, optimistic: Id, m: Id): Group {
    if optimistic !in g.index then g
    else
      var stream := g.index[optimistic];
      var g1 := g.(index := (g.index - {optimistic})[m := stream]);
      if stream in g.runs then g1.(runs := g.runs[stream := g.runs[stream].(userMessage := m)]) else g1
  }

  function Or<T>(first: Option<T>, second: Option<T>): Option<T> {
    if first.Some? then first else second
  }

  function Start(g: Group, stream: Id, m: Id, turn: Option<TurnId>, scheduler: Option<TurnStatus>,
      reason: Option<Reason>): Group {
    var old' := RunOf(g, stream);
    var run := old'.(userMessage := m, status := Active, turn := Or(old'.turn, turn),
                     scheduler := Or(old'.scheduler, scheduler), reason := Or(old'.reason, reason));
    var pruned := Pruned(File(g, stream, run));
    pruned.(index := pruned.index[m := stream])
  }

  function Link(g: Group, stream: Id, m: Id): Group {
    if stream !in g.runs then g
    else g.(runs := g.runs[stream := g.runs[stream].(userMessage := m)], index := g.index[m := stream])
  }

  function NextGroup(g: Group, a: GroupAction): Group {
    match a
    case RetireStreams => g.(retired := g.retired + g.runs.Keys, bubbles := map[])
    case ClearMessages(shown) =>
      g.(deleted := g.deleted + shown, retired := g.retired + g.runs.Keys,
         runs := map[], order := [], index := map[], bubbles := map[])
    case RemoveMessage(m) => DropMessage(g, m)
    case SettleOptimistic(optimistic, m) => Settle(g, optimistic, m)
    case StartRun(stream, m, turn, scheduler, reason) => Start(g, stream, m, turn, scheduler, reason)
    case LinkRun(stream, m) => Link(g, stream, m)
  }

  /** The run after an edit of its timeline; output makes it active again, a notice does not. */
  function Touched(run: Run, edit: Edit): Run {
    run.(events := Apply(run.events, edit),
         status := if edit.Say? || edit.Think? || edit.Put? then Active else run.status)
  }

  function Sender(sender: Option<AgentId>): AgentId {
    if sender.Some? then sender.value else UNKNOWN_AGENT
  }

  function NextEvents(g: Group, a: EventAction): Group {
    match a
    case Touch(stream, edit) => File(g, stream, Touched(RunOf(g, stream), edit))
    case ClearDraftOf(stream, agent) =>
      if stream in g.runs then g.(runs := g.runs[stream := Touched(g.runs[stream], Clear(agent))]) else g
    case UsageOf(stream, agent, detail) =>
      if stream in g.runs then g.(runs := g.runs[stream := Touched(g.runs[stream], Usage(agent, detail))]) else g
    case FinalizeDraft(stream, m, sender, content) =>
      if m in g.deleted || stream in g.retired then g
      else File(g, stream, Touched(RunOf(g, stream), Complete(Sender(sender), m, content)))
  }

  /** `applySchedulerEvent`: whether the update is accepted. */
  predicate AcceptsUpdate(g: Group, stream: Id, update: Update) {
    && stream !in g.retired && update.stream == stream
    && (stream in g.runs ==>
      var run := g.runs[stream];
      && (HasTurn(run) ==> run.turn.value == update.turn)
      && (Accepts(run.scheduler) || update.kind.DoneKind?
          || (update.kind.Ended? && update.kind.completed
              && run.scheduler == Some(update.kind.status) && run.reason == update.kind.reason)))
  }

  function TerminalStatus(kind: Kind): Option<TurnStatus> {
    match kind
    case Started => Some(Running)
    case Ended(_, status, _) => Some(status)
    case _ => None
  }

  function Updated(run: Run, update: Update): Run {
    var terminal := TerminalStatus(update.kind);
    run.(turn := Some(update.turn),
         status := if terminal.None? then run.status else StatusOf(terminal.value),
         scheduler := Or(terminal, run.scheduler),
         moderator := update.kind == Progress(true),
         reason := if terminal.None? then run.reason else if update.kind.Ended? then update.kind.reason else None)
  }

  function Reconciled(run: Run, turn: TurnId, status: TurnStatus, reason: Option<Reason>): Run {
    if run.turn == Some(turn) then
      run.(status := StatusOf(status), scheduler := Some(status), moderator := false, reason := reason)
    else run
  }

  predicate CanWait(g: Group, stream: Id) {
    stream in g.runs && HasTurn(g.runs[stream]) && Accepts(g.runs[stream].scheduler)
  }

  function NextTurn(g: Group, a: TurnAction): Group {
    match a
    case Scheduler(stream, update) =>
      if AcceptsUpdate(g, stream, update) then File(g, stream, Updated(RunOf(g, stream), update)) else g
    case Reconcile(turn, status, reason) =>
      g.(runs := map id | id in g.runs :: Reconciled(g.runs[id], turn, status, reason))
    case MarkWaiting(stream) =>
      if !CanWait(g, stream) then g
      else g.(runs := g.runs[stream := g.runs[stream].(scheduler := Some(Waiting), reason := Some(WAITING_REASON))])
  }

  const DONE: OtherEvent := Event(DoneId, None, "", false, None, 0)

  function ErrorEvent(time: Timestamp): OtherEvent {
    Event(ErrorId(time), None, "", false, None, 0)
  }

  function CancelEvent(time: Timestamp): OtherEvent {
    Event(CancelledId(time), None, "", false, None, 0)
  }

  predicate HasDone(events: Events) {
    exists e <- events :: e.id.DoneId?
  }

  function DoneRun(run: Run): Run {
    run.(status := if run.status.Active? then Finished else run.status,
         events := if HasDone(run.events) then run.events else Apply(run.events, Mark(DONE)))
  }

  function CancelRun(run: Run, time: Timestamp): Run {
    if HasTurn(run) && !Accepts(run.scheduler) then run
    else
      run.(status := Aborted,
           scheduler := if HasTurn(run) then Some(TurnCancelled) else run.scheduler,
           reason := if HasTurn(run) then Some(CANCEL_REASON) else run.reason,
           events := Apply(run.events, Mark(CancelEvent(time))))
  }

  function CancelRuns(runs: map<Id, Run>, streams: seq<Id>, time: Timestamp): (r: map<Id, Run>)
    ensures r.Keys == runs.Keys
  {
    if streams == [] then runs
    else
      var before := CancelRuns(runs, streams[..|streams| - 1], time);
      var stream := streams[|streams| - 1];
      if stream in before then before[stream := CancelRun(before[stream], time)] else before
  }

  function ActiveIds(runs: map<Id, Run>, order: seq<Id>): (ids: seq<Id>)
  {
    if order == [] then []
    else
      var rest := ActiveIds(runs, order[1..]);
      if order[0] in runs && runs[order[0]].status.Active? then [order[0]] + rest else rest
  }

  function NextEnd(g: Group, a: EndAction): Group {
    match a
    case MarkDone(stream) =>
      if stream in g.runs then Pruned(g.(runs := g.runs[stream := DoneRun(g.runs[stream])])) else g
    case MarkError(stream, time) =>
      if stream in g.runs then
        var run := g.runs[stream];
        Pruned(g.(runs := g.runs[stream := run.(status := Errored,
          events := Apply(run.events, Mark(ErrorEvent(time))))]))
      else g
    case MarkCancelled(streams, time) =>
      var ids := if streams.Some? then streams.value else ActiveIds(g.runs, g.order);
      if ids == [] then g else Pruned(g.(runs := CancelRuns(g.runs, ids, time)))
  }

  function Next(g: Group, a: Action): Group {
    match a
    case OfGroup(b) => NextGroup(g, b)
    case OfEvents(b) => NextEvents(g, b)
    case OfTurn(b) => NextTurn(g, b)
    case OfEnd(b) => NextEnd(g, b)
  }

  // ---- The order list enumerates the runs ----

  ghost predicate Coherent(g: Group) {
    Distinct(g.order) && forall id :: id in g.order <==> id in g.runs
  }

  lemma {:induction false} WithoutKeeps(order: seq<Id>, removed: set<Id>)
    ensures forall id :: id in Without(order, removed) <==> id in order && id !in removed
    ensures Distinct(order) ==> Distinct(Without(order, removed))
  {
    if order != [] {
      assert forall i :: 0 <= i < |order[1..]| ==> order[1..][i] == order[i + 1];
      WithoutKeeps(order[1..], removed);
      assert Distinct(order) ==> order[0] !in order[1..];
    }
  }

  lemma {:induction false} FinishedKeeps(runs: map<Id, Run>, order: seq<Id>)
    ensures forall id :: id in FinishedIds(runs, order) <==> id in order && id in runs && !runs[id].status.Active?
    ensures Distinct(order) ==> Distinct(FinishedIds(runs, order))
  {
    if order != [] {
      assert forall i :: 0 <= i < |order[1..]| ==> order[1..][i] == order[i + 1];
      FinishedKeeps(runs, order[1..]);
      assert Distinct(order) ==> order[0] !in order[1..];
    }
  }

  lemma FileCoherent(g: Group, stream: Id, run: Run)
    requires Coherent(g)
    ensures Coherent(File(g, stream, run))
  {
  }

  lemma PrunedCoherent(g: Group)
    requires Coherent(g)
    ensures Coherent(Pruned(g))
  {
    WithoutKeeps(g.order, Removed(g));
    hide Removed, Without;
  }

  lemma SameKeysCoherent(g: Group, h: Group)
    requires Coherent(g) && h.order == g.order && h.runs.Keys == g.runs.Keys
    ensures Coherent(h)
  {
    assert forall id :: id in h.runs <==> id in h.runs.Keys;
  }

  /** Every action keeps the order list a duplicate-free enumeration of the runs. */
  lemma NextCoherent(g: Group, a: Action)
    requires Coherent(g)
    ensures Coherent(Next(g, a))
  {
    hide Coherent, NextGroup, NextEvents, NextTurn, NextEnd;
    match a
    case OfGroup(b) => GroupCoherent(g, b);
    case OfEvents(b) => EventsCoherent(g, b);
    case OfTurn(b) => TurnCoherent(g, b);
    case OfEnd(b) => EndCoherent(g, b);
  }

  lemma GroupCoherent(g: Group, a: GroupAction)
    requires Coherent(g)
    ensures Coherent(NextGroup(g, a))
  {
    hide Pruned;
    match a
    case RemoveMessage(m) =>
      if m in g.index { WithoutKeeps(g.order, {g.index[m]}); }
    case StartRun(stream, m, turn, scheduler, reason) =>
      var old' := RunOf(g, stream);
      var run := old'.(userMessage := m, status := Active, turn := Or(old'.turn, turn),
                       scheduler := Or(old'.scheduler, scheduler), reason := Or(old'.reason, reason));
      FileCoherent(g, stream, run);
      PrunedCoherent(File(g, stream, run));
    case _ =>
  }

  lemma EventsCoherent(g: Group, a: EventAction)
    requires Coherent(g)
    ensures Coherent(NextEvents(g, a))
  {
    hide Touched, RunOf, Coherent;
    match a
    case Touch(stream, edit) => FileCoherent(g, stream, Touched(RunOf(g, stream), edit));
    case FinalizeDraft(stream, m, sender, content) =>
      FileCoherent(g, stream, Touched(RunOf(g, stream), Complete(Sender(sender), m, content)));
    case ClearDraftOf(_, _) => SameKeysCoherent(g, NextEvents(g, a));
    case UsageOf(_, _, _) => SameKeysCoherent(g, NextEvents(g, a));
  }

  lemma TurnCoherent(g: Group, a: TurnAction)
    requires Coherent(g)
    ensures Coherent(NextTurn(g, a))
  {
    hide Updated, Reconciled, AcceptsUpdate, CanWait, RunOf, Coherent;
    match a
    case Scheduler(stream, update) => FileCoherent(g, stream, Updated(RunOf(g, stream), update));
    case Reconcile(_, _, _) => SameKeysCoherent(g, NextTurn(g, a));
    case MarkWaiting(stream) =>
      assert CanWait(g, stream) ==> stream in g.runs by { CanWaitHasRun(g, stream); }
      SameKeysCoherent(g, NextTurn(g, a));
  }

  lemma CanWaitHasRun(g: Group, stream: Id)
    ensures CanWait(g, stream) ==> stream in g.runs
  {
  }

  lemma EndCoherent(g: Group, a: EndAction)
    requires Coherent(g)
    ensures Coherent(NextEnd(g, a))
  {
    hide Pruned, DoneRun, Apply;
    match a
    case MarkDone(stream) =>
      if stream in g.runs {
        var h := g.(runs := g.runs[stream := DoneRun(g.runs[stream])]);
        SameKeysCoherent(g, h);
        PrunedCoherent(h);
      }
    case MarkError(stream, time) =>
      if stream in g.runs {
        var run := g.runs[stream];
        var h := g.(runs := g.runs[stream := run.(status := Errored,
          events := Apply(run.events, Mark(ErrorEvent(time))))]);
        SameKeysCoherent(g, h);
        PrunedCoherent(h);
      }
    case MarkCancelled(streams, time) =>
      var ids := if streams.Some? then streams.value else ActiveIds(g.runs, g.order);
      var h := g.(runs := CancelRuns(g.runs, ids, time));
      SameKeysCoherent(g, h);
      PrunedCoherent(h);
  }

  // ---- Pruning keeps the latest ----

  lemma {:induction false} FinishedWithout(runs: map<Id, Run>, order: seq<Id>, k: nat, removed: set<Id>,
      kept: map<Id, Run>)
    requires Distinct(order) && k <= |FinishedIds(runs, order)|
    requires forall id <- order :: id in removed <==> id in FinishedIds(runs, order)[..k]
    requires forall id <- order :: id !in removed ==>
      (id in runs <==> id in kept) && (id in runs ==> kept[id] == runs[id])
    ensures FinishedIds(kept, Without(order, removed)) == FinishedIds(runs, order)[k..]
  {
    if order != [] {
      var rest := order[1..];
      assert forall i :: 0 <= i < |rest| ==> rest[i] == order[i + 1];
      assert order[0] !in rest;
      FinishedKeeps(runs, rest);
      var all := FinishedIds(runs, order);
      if order[0] in runs && !runs[order[0]].status.Active? {
        assert all == [order[0]] + FinishedIds(runs, rest);
        if k > 0 {
          assert all[..k] == [order[0]] + FinishedIds(runs, rest)[..k - 1];
          FinishedWithout(runs, rest, k - 1, removed, kept);
          assert all[k..] == FinishedIds(runs, rest)[k - 1..];
        } else {
          FinishedWithout(runs, rest, 0, removed, kept);
          assert ([order[0]] + Without(rest, removed))[1..] == Without(rest, removed);
        }
      } else {
        assert order[0] !in all[..k];
        FinishedWithout(runs, rest, k, removed, kept);
        assert ([order[0]] + Without(rest, removed))[1..] == Without(rest, removed);
      }
    }
  }

  /** Pruning keeps every active run, and of the finished ones exactly the latest
      twelve, in their order; runs it keeps are unchanged, and no message stays
      linked to a run it removed. */
  lemma PrunedKeepsLatest(g: Group)
    requires Coherent(g)
    ensures var p := Pruned(g);
      var finished := FinishedIds(g.runs, g.order);
      && FinishedIds(p.runs, p.order)
        == finished[if |finished| <= MAX_COMPLETED then 0 else |finished| - MAX_COMPLETED..]
      && p.order == Without(g.order, g.runs.Keys - p.runs.Keys)
      && (forall id <- g.runs :: g.runs[id].status.Active? ==> id in p.runs)
      && (forall id <- p.runs :: id in g.runs && p.runs[id] == g.runs[id])
      && (forall m <- p.index :: m in g.index && p.index[m] == g.index[m])
      && (forall m <- g.index :: m in p.index <==> !(g.index[m] in g.runs && g.index[m] !in p.runs))
  {
    var finished := FinishedIds(g.runs, g.order);
    RemovedAreFinished(g);
    WithoutNothing(g.order, {});
    if |finished| > MAX_COMPLETED {
      var k := |finished| - MAX_COMPLETED;
      var removed := Removed(g);
      assert finished[0] in removed by { assert finished[..k][0] == finished[0]; }
      var p := Remove(g, removed);
      hide Removed, Without;
      FinishedWithout(g.runs, g.order, k, removed, p.runs);
      hide FinishedIds, Coherent;
      assert g.runs.Keys - p.runs.Keys == removed;
    } else {
      assert Removed(g) == {} && g.runs.Keys - g.runs.Keys == {};
      assert finished[0..] == finished;
    }
  }

  lemma RemovedAreFinished(g: Group)
    requires Coherent(g)
    ensures forall id <- Removed(g) :: id in g.runs && !g.runs[id].status.Active?
    ensures |FinishedIds(g.runs, g.order)| > MAX_COMPLETED ==>
      forall id :: id in Removed(g)
        <==> id in FinishedIds(g.runs, g.order)[..|FinishedIds(g.runs, g.order)| - MAX_COMPLETED]
  {
    var finished := FinishedIds(g.runs, g.order);
    FinishedKeeps(g.runs, g.order);
    if |finished| > MAX_COMPLETED {
      assert forall id <- finished[..|finished| - MAX_COMPLETED] :: id in finished;
    }
  }

  lemma {:induction false} WithoutNothing(order: seq<Id>, removed: set<Id>)
    requires removed == {}
    ensures Without(order, removed) == order
  {
    if order != [] {
      WithoutNothing(order[1..], removed);
    }
  }

  // ---- Finished turns are frozen, turn ids are fixed ----

  /** The run was deleted or its scheduler status is the same. */
  predicate StatusKept(g: Group, h: Group, id: Id) {
    id in g.runs && id in h.runs ==> h.runs[id].scheduler == g.runs[id].scheduler
  }

  predicate TurnKept(g: Group, h: Group, id: Id) {
    id in g.runs && id in h.runs ==> h.runs[id].turn == g.runs[id].turn
  }

  lemma PrunedSame(g: Group, id: Id)
    ensures id in Pruned(g).runs ==> id in g.runs && Pruned(g).runs[id] == g.runs[id]
  {
    hide Removed;
  }

  predicate FrozenTurn(run: Run) {
    !Accepts(run.scheduler)
  }

  lemma {:induction false} CancelKeeps(runs: map<Id, Run>, streams: seq<Id>, time: Timestamp, id: Id)
    requires id in runs
    ensures var r := CancelRuns(runs, streams, time)[id];
      r.turn == runs[id].turn && (FrozenTurn(runs[id]) ==> r.scheduler == runs[id].scheduler)
  {
    if streams != [] {
      CancelKeeps(runs, streams[..|streams| - 1], time, id);
    }
  }

  lemma EndKeeps(g: Group, a: EndAction, id: Id)
    requires id in g.runs
    ensures TurnKept(g, NextEnd(g, a), id)
    ensures FrozenTurn(g.runs[id]) ==> StatusKept(g, NextEnd(g, a), id)
  {
    hide Pruned, Apply, FrozenTurn;
    match a
    case MarkDone(stream) =>
      if stream in g.runs { PrunedSame(g.(runs := g.runs[stream := DoneRun(g.runs[stream])]), id); }
    case MarkError(stream, time) =>
      if stream in g.runs {
        var run := g.runs[stream];
        PrunedSame(g.(runs := g.runs[stream := run.(status := Errored,
          events := Apply(run.events, Mark(ErrorEvent(time))))]), id);
      }
    case MarkCancelled(streams, time) =>
      var ids := if streams.Some? then streams.value else ActiveIds(g.runs, g.order);
      CancelKeeps(g.runs, ids, time, id);
      PrunedSame(g.(runs := CancelRuns(g.runs, ids, time)), id);
  }

  lemma TurnActionKeeps(g: Group, a: TurnAction, id: Id)
    requires id in g.runs
    ensures HasTurn(g.runs[id]) ==> TurnKept(g, NextTurn(g, a), id)
    ensures FrozenTurn(g.runs[id]) && !a.Reconcile? ==> StatusKept(g, NextTurn(g, a), id)
  {
  }

  lemma EventsKeep(g: Group, a: EventAction, id: Id)
    requires id in g.runs
    ensures TurnKept(g, NextEvents(g, a), id) && StatusKept(g, NextEvents(g, a), id)
  {
    hide Apply;
  }

  lemma GroupKeeps(g: Group, a: GroupAction, id: Id)
    requires id in g.runs
    ensures g.runs[id].turn.Some? ==> TurnKept(g, NextGroup(g, a), id)
    ensures FrozenTurn(g.runs[id]) ==> StatusKept(g, NextGroup(g, a), id)
  {
    hide Pruned;
    if a.StartRun? {
      var old' := RunOf(g, a.stream);
      var run := old'.(userMessage := a.message, status := Active, turn := Or(old'.turn, a.turn),
                       scheduler := Or(old'.scheduler, a.scheduler), reason := Or(old'.reason, a.reason));
      PrunedSame(File(g, a.stream, run), id);
    }
  }

  /** Once a run's scheduler status takes no more events, only reconciliation with
      the server changes it while the run is kept. */
  lemma FrozenStatusKept(g: Group, a: Action, id: Id)
    requires id in g.runs && FrozenTurn(g.runs[id])
    requires !(a.OfTurn? && a.t.Reconcile?)
    ensures StatusKept(g, Next(g, a), id)
  {
    hide StatusKept, FrozenTurn, NextGroup, NextEvents, NextTurn, NextEnd;
    match a
    case OfGroup(b) => GroupKeeps(g, b, id);
    case OfEvents(b) => EventsKeep(g, b, id);
    case OfTurn(b) => TurnActionKeeps(g, b, id);
    case OfEnd(b) => EndKeeps(g, b, id);
  }

  lemma SetTurnKept(g: Group, a: Action, id: Id)
    requires id in g.runs && HasTurn(g.runs[id])
    ensures TurnKept(g, Next(g, a), id)
  {
    hide TurnKept, NextGroup, NextEvents, NextTurn, NextEnd;
    match a
    case OfGroup(b) => GroupKeeps(g, b, id);
    case OfEvents(b) => EventsKeep(g, b, id);
    case OfTurn(b) => TurnActionKeeps(g, b, id);
    case OfEnd(b) => EndKeeps(g, b, id);
  }

  /** No action changes the turn id of a run that has one, exactly when the id is
      not the empty string or the run is retired: a scheduler `done` of another
      turn replaces an empty id. */
  lemma TurnFixedIff(g: Group, id: Id)
    requires id in g.runs && g.runs[id].turn.Some?
    ensures (forall a :: TurnKept(g, Next(g, a), id)) <==> HasTurn(g.runs[id]) || id in g.retired
  {
    if HasTurn(g.runs[id]) {
      forall a ensures TurnKept(g, Next(g, a), id) {
        SetTurnKept(g, a, id);
      }
    } else if id in g.retired {
      forall a ensures TurnKept(g, Next(g, a), id) {
        RetiredTurnKept(g, a, id);
      }
    } else {
      var update := Update(id, NO_TURN + 1, DoneKind);
      var h := NextTurn(g, Scheduler(id, update));
      assert AcceptsUpdate(g, id, update);
      assert h.runs[id].turn == Some(NO_TURN + 1);
      assert !TurnKept(g, Next(g, OfTurn(Scheduler(id, update))), id);
    }
  }

  lemma RetiredTurnKept(g: Group, a: Action, id: Id)
    requires id in g.runs && g.runs[id].turn.Some? && id in g.retired
    ensures TurnKept(g, Next(g, a), id)
  {
    hide NextGroup, NextEvents, NextEnd;
    match a
    case OfGroup(b) => GroupKeeps(g, b, id);
    case OfEvents(b) => EventsKeep(g, b, id);
    case OfTurn(b) =>
    case OfEnd(b) => EndKeeps(g, b, id);
  }

  /** Starting a run never prunes that run, and its message is linked to it. */
  lemma StartedIsKept(g: Group, stream: Id, m: Id, turn: Option<TurnId>, scheduler: Option<TurnStatus>,
      reason: Option<Reason>)
    requires Coherent(g)
    ensures var h := Start(g, stream, m, turn, scheduler, reason);
      && stream in h.runs && h.runs[stream].status.Active? && h.index[m] == stream
      && |FinishedIds(h.runs, h.order)| <= MAX_COMPLETED
      && forall x <- h.index ::
        h.index[x] in h.runs || (x in g.index && h.index[x] == g.index[x] && g.index[x] !in g.runs)
  {
    var old' := RunOf(g, stream);
    var run := old'.(userMessage := m, status := Active, turn := Or(old'.turn, turn),
                     scheduler := Or(old'.scheduler, scheduler), reason := Or(old'.reason, reason));
    FileCoherent(g, stream, run);
    PrunedKeepsLatest(File(g, stream, run));
    hide Pruned, FinishedIds, Coherent;
  }
}
