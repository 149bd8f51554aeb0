/** The store's tables, changed in place by its actions; each is proved to perform its step. */
module RunStore {
  import opened Prelude
  import opened Timeline
  import opened RunTable

  /** Seen from `index`, the walk either ends there or goes on in front of it. */
  lemma MarkStep(events: Events, agent: AgentId, index: nat)
    requires index < |events|
    ensures var e := events[index];
      MarkReasoningDone(events[..index + 1], agent) + events[index + 1..]
      == if e.id.ReasoningId? && e.agent == Some(agent) then events[index := e.(streaming := false)]
         else MarkReasoningDone(events[..index], agent) + events[index..]
  {
    assert events[..index + 1][..index] == events[..index];
    assert events[index..] == [events[index]] + events[index + 1..];
  }

  /** Walks back to the agent's latest reasoning block. */
  method CloseReasoning(events: Events, agent: AgentId) returns (r: Events)
    ensures r == MarkReasoningDone(events, agent)
  {
    assert MarkReasoningDone([], agent) == [];
    hide MarkReasoningDone;
    var index := |events|;
    assert events[..index] == events;
    while index > 0
      invariant 0 <= index <= |events|
      invariant MarkReasoningDone(events, agent) == MarkReasoningDone(events[..index], agent) + events[index..]
    {
      index := index - 1;
      MarkStep(events, agent, index);
      var event := events[index];
      if event.id.ReasoningId? && event.agent == Some(agent) {
        if event.streaming {
          return events[index := event.(streaming := false)];
        }
        assert event == event.(streaming := false) && events[index := event] == events;
        return events;
      }
    }
    return events;
  }

  /** The loop of `markStreamRunCancelled`: cancels the named runs one after another. */
  method CancelEach(runs: map<Id, Run>, ids: seq<Id>, time: Timestamp) returns (nextRuns: map<Id, Run>)
    ensures nextRuns == CancelRuns(runs, ids, time)
  {
    hide CancelRun;
    nextRuns := runs;
    for k := 0 to |ids|
      invariant nextRuns == CancelRuns(runs, ids[..k], time)
    {
      assert ids[..k + 1][..k] == ids[..k];
      if ids[k] in nextRuns {
        var run := CancelOne(nextRuns[ids[k]], time);
        nextRuns := nextRuns[ids[k] := run];
      }
    }
    assert ids[..|ids|] == ids;
  }

  method CancelOne(run: Run, time: Timestamp) returns (r: Run)
    ensures r == CancelRun(run, time)
  {
    if HasTurn(run) && !Accepts(run.scheduler) {
      return run;
    }
    r := run.(status := Aborted, events := run.events + [CancelEvent(time)]);
    if HasTurn(run) {
      r := r.(scheduler := Some(TurnCancelled), reason := Some(CANCEL_REASON));
    }
  }

  class RunStore {
    var runs: map<Id, Run>
    var order: seq<Id>
    var index: map<Id, Id>
    var retired: set<Id>
    var deleted: set<Id>
    var bubbles: map<BubbleKey, Text>

    ghost function Abs(): (g: Group)
      reads this
    {
      Group(runs, order, index, retired, deleted, bubbles)
    }

    constructor ()
      ensures Abs() == Group(map[], [], map[], {}, {}, map[]) && Coherent(Abs())
    {
      runs, order, index, retired, deleted, bubbles := map[], [], map[], {}, {}, map[];
    }

    /** `pruneStreamRuns` and `pruneStreamRunIdMap`, written back. */
    method Prune()
      modifies this
      ensures Abs() == Pruned(old(Abs()))
    {
      var finished := FinishedIds(runs, order);
      if |finished| <= MAX_COMPLETED {
        return;
      }
      var oldest := finished[..|finished| - MAX_COMPLETED];
      var removed := set id | id in oldest;
      assert finished[0] in removed by { assert oldest[0] == finished[0]; }
      runs := map id | id in runs && id !in removed :: runs[id];
      order := Without(order, removed);
      index := map m | m in index && index[m] !in removed :: index[m];
    }

    method StartStreamRun(stream: Id, m: Id, turn: Option<TurnId>, scheduler: Option<TurnStatus>,
        reason: Option<Reason>)
      requires Coherent(Abs())
      modifies this
      ensures Abs() == Next(old(Abs()), OfGroup(StartRun(stream, m, turn, scheduler, reason)))
      ensures Coherent(Abs())
    {
      GroupCoherent(Abs(), StartRun(stream, m, turn, scheduler, reason));
      hide Coherent;
      var existing := if stream in runs then runs[stream] else EmptyRun(stream);
      var run := existing.(
        userMessage := m,
        status := Active,
        turn := Or(existing.turn, turn),
        scheduler := Or(existing.scheduler, scheduler),
        reason := Or(existing.reason, reason));
      runs := runs[stream := run];
      if stream !in order {
        order := order + [stream];
      }
      Prune();
      index := index[m := stream];
    }

    /** `applySchedulerEvent`. */
    method ApplySchedulerEvent(stream: Id, update: Update) returns (accepted: bool)
      requires Coherent(Abs())
      modifies this
      ensures accepted == AcceptsUpdate(old(Abs()), stream, update)
      ensures Abs() == Next(old(Abs()), OfTurn(Scheduler(stream, update)))
      ensures Coherent(Abs())
    {
      TurnCoherent(Abs(), Scheduler(stream, update));
      hide Coherent;
      if stream in retired || update.stream != stream {
        return false;
      }
      if stream in runs && HasTurn(runs[stream]) && runs[stream].turn.value != update.turn {
        return false;
      }
      var equivalent := update.kind.Ended? && update.kind.completed && stream in runs
        && runs[stream].scheduler == Some(update.kind.status) && runs[stream].reason == update.kind.reason;
      if stream in runs && !Accepts(runs[stream].scheduler) && !update.kind.DoneKind? && !equivalent {
        return false;
      }
      var run := if stream in runs then runs[stream] else EmptyRun(stream);
      runs := runs[stream := Updated(run, update)];
      if stream !in order {
        order := order + [stream];
      }
      return true;
    }

    method MarkStreamRunDone(stream: Id)
      requires Coherent(Abs())
      modifies this
      ensures Abs() == Next(old(Abs()), OfEnd(MarkDone(stream)))
      ensures Coherent(Abs())
    {
      EndCoherent(Abs(), MarkDone(stream));
      hide Coherent, HasDone;
      if stream !in runs {
        return;
      }
      var run := runs[stream];
      var doneExists := HasDone(run.events);
      runs := runs[stream := run.(
        status := if run.status.Active? then Finished else run.status,
        events := if doneExists then run.events else run.events + [DONE])];
      Prune();
    }

    method MarkStreamRunCancelled(streams: Option<seq<Id>>, time: Timestamp)
      requires Coherent(Abs())
      modifies this
      ensures Abs() == Next(old(Abs()), OfEnd(MarkCancelled(streams, time)))
      ensures Coherent(Abs())
    {
      EndCoherent(Abs(), MarkCancelled(streams, time));
      hide Coherent;
      var ids := if streams.Some? then streams.value else ActiveIds(runs, order);
      if ids == [] {
        return;
      }
      runs := CancelEach(runs, ids, time);
      Prune();
    }

    method RemoveStreamMessage(m: Id)
      requires Coherent(Abs())
      modifies this
      ensures Abs() == Next(old(Abs()), OfGroup(RemoveMessage(m)))
      ensures Coherent(Abs())
    {
      GroupCoherent(Abs(), RemoveMessage(m));
      hide Coherent;
      deleted := deleted + {m};
      if m !in index {
        return;
      }
      var stream := index[m];
      retired := retired + {stream};
      index := index - {m};
      runs := runs - {stream};
      order := Without(order, {stream});
    }
  }
}
