/**
 The provider's mutable state: one field per ref of the source, changed by one
 method per stretch of code between two awaits. Each method is proved to move
 the fields exactly as the matching step of the state machine.
 */
module TerminalRuntime {
  import opened Prelude
  import opened TerminalState
  import OutputChannel
  import TerminalSafety

  class Runtime {
    var heap: Heap
    var runtime: TerminalState.Runtime
    var generations: Generations
    var starts: Starts
    var closes: Closes
    var closed: set<Handle>
    var restarts: Restarts
    var tokens: map<TabId, Handle>
    var convs: Convs
    var all: AllPhase
    var output: Logs
    var nextHandle: Handle
    // The server's side.
    var made: set<SessionId>
    var open: set<SessionId>
    var abandoned: set<SessionId>
    var spared: set<SessionId>

    ghost function Abs(): State
      reads this
    {
      State(heap, runtime, generations, starts, closes, closed, restarts, tokens, convs, all, output, nextHandle,
            made, open, abandoned, spared)
    }

    constructor ()
      ensures Abs() == INITIAL
    {
      heap, runtime, generations, starts, closes := map[], map[], map[], map[], map[];
      closed, restarts, tokens, convs, all, output, nextHandle := {}, map[], map[], map[], AllIdle, map[], 0;
      made, open, abandoned, spared := {}, {}, {}, {};
    }

    function IsBlocked(tab: TabId, conv: ConvId): (b: bool)
      reads this
      ensures b == Blocked(Abs(), tab, conv)
    {
      !all.AllIdle? || tab in closes || conv in convs
    }

    function IsCurrent(tab: TabId, generation: nat): (b: bool)
      reads this
      ensures b == Current(Abs(), tab, generation)
    {
      tab in runtime && runtime[tab] in heap && heap[runtime[tab]].generation == generation
    }

    method InvalidateGeneration(tab: TabId)
      modifies this`generations, this`heap
      ensures Abs() == Invalidate(old(Abs()), tab)
    {
      var g := GenerationIn(generations, tab) + 1;
      generations := generations[tab := g];
      if tab in runtime && runtime[tab] in heap {
        heap := heap[runtime[tab] := heap[runtime[tab]].(generation := g)];
      }
    }

    method PutEntry(tab: TabId, entry: Entry)
      modifies this`heap, this`runtime
      ensures Abs() == old(Abs()).(heap := old(heap)[nextHandle := entry], runtime := old(runtime)[tab := nextHandle])
    {
      heap := heap[nextHandle := entry];
      runtime := runtime[tab := nextHandle];
    }

    /** `startRuntimeTab` up to its first await, for callers whose guard has passed. */
    method BeginStart(tab: TabId, conv: ConvId, mayFallback: bool) returns (op: Handle)
      modifies this`generations, this`heap, this`runtime, this`starts, this`nextHandle
      ensures op == old(nextHandle) + 1
      ensures Abs() == Begin(old(Abs()), tab, conv, mayFallback)
    {
      ghost var s := Abs();
      BeginIs(s, tab, conv, mayFallback);
      hide GenerationIn, ChannelOf, Begin;
      var channel := ChannelOf(heap, runtime, tab, nextHandle + 2);
      var g := GenerationIn(generations, tab) + 1;
      op := nextHandle + 1;
      generations := generations[tab := g];
      PutEntry(tab, Entry(tab, conv, None, Starting, g, channel));
      starts := starts[op := Start(tab, conv, g, mayFallback, Queued)];
      nextHandle := nextHandle + 3;
    }

    method DoOpenTab(tab: TabId, conv: ConvId)
      modifies this
      ensures Abs() == OpenTab(old(Abs()), tab, conv)
    {
      if tab in runtime || IsBlocked(tab, conv) { return; }
      var _ := BeginStart(tab, conv, true);
    }

    method DoRunStart(op: Handle)
      modifies this`starts
      ensures Abs() == RunStart(old(Abs()), op)
    {
      if op !in starts || !starts[op].phase.Queued? { return; }
      var start := starts[op];
      if IsBlocked(start.tab, start.conv) || !IsCurrent(start.tab, start.generation) {
        starts := starts - {op};
        return;
      }
      starts := starts[op := start.(phase := Creating(None))];
    }

    /** `transport.create` resolved with a descriptor. */
    method DoCreateReturns(op: Handle)
      modifies this`starts, this`heap
      ensures Abs() == CreateReturns(old(Abs()), op)
    {
      if op !in starts || !starts[op].phase.Creating? || starts[op].phase.made.None? { return; }
      var start := starts[op];
      var session := start.phase.made.value;
      if IsBlocked(start.tab, start.conv) || !IsCurrent(start.tab, start.generation) {
        starts := starts[op := start.(phase := LateClose(session))];
        return;
      }
      var h := runtime[start.tab];
      heap := heap[h := heap[h].(session := Some(session))];
      if heap[h].status == Starting {
        heap := heap[h := heap[h].(status := Running)];
      }
      starts := starts - {op};
    }

    /** Nobody hears of the session of a rejected call. */
    method AbandonSession(op: Handle)
      modifies this`starts, this`abandoned
      ensures Abs() == Abandon(old(Abs()), op)
    {
      if op in starts && starts[op].phase.Creating? && starts[op].phase.made.Some? {
        abandoned := abandoned + {starts[op].phase.made.value};
        starts := starts[op := starts[op].(phase := Creating(None))];
      }
    }

    method LogOutput(channel: Handle, op: OutputChannel.Op)
      modifies this`output
      ensures Abs() == old(Abs()).(output := Logged(old(output), channel, op))
    {
      output := output[channel := LogOf(output, channel) + [op]];
    }

    /** `transport.create` rejected. */
    method DoCreateFails(op: Handle, elsewhere: bool)
      requires op < nextHandle
      modifies this
      ensures Abs() == CreateFails(old(Abs()), op, elsewhere)
    {
      AbandonSession(op);
      if op !in starts || starts[op].phase != Creating(None) { return; }
      var start := starts[op];
      if IsBlocked(start.tab, start.conv) || !IsCurrent(start.tab, start.generation) {
        starts := starts - {op};
        return;
      }
      if start.mayFallback && elsewhere {
        DoFallBack(op);
        return;
      }
      var h := runtime[start.tab];
      heap := heap[h := heap[h].(status := Failed)];
      starts := starts - {op};
    }

    method DoFallBack(op: Handle)
      requires op in starts && !Stale(Abs(), starts[op]) && op < nextHandle
      modifies this
      ensures Abs() == FallBack(old(Abs()), op)
    {
      var start := starts[op];
      LogOutput(heap[runtime[start.tab]].channel, OutputChannel.Drop);
      var inner := BeginStart(start.tab, start.conv, false);
      starts := starts[op := start.(phase := FellBack(inner))];
    }

    /** A close call on one session has returned, and its owner goes. */
    method EndSession(session: SessionId, gone: bool)
      modifies this`open, this`spared
      ensures Abs() == Closed(old(Abs()), session, gone)
    {
      if gone {
        open := open - {session};
      }
      spared := spared + {session} * open;
    }

    /** The close of a session that arrived too late has returned. */
    method DoLateCloseReturns(op: Handle, gone: bool)
      modifies this`starts, this`open, this`spared
      ensures Abs() == LateCloseReturns(old(Abs()), op, gone)
    {
      if op !in starts || !starts[op].phase.LateClose? { return; }
      EndSession(starts[op].phase.late, gone);
      starts := starts - {op};
    }

    method DoEvent(tab: TabId, conv: ConvId, generation: nat, event: TerminalEvent)
      modifies this`heap, this`output
      ensures Abs() == Event(old(Abs()), tab, conv, generation, event)
    {
      if IsBlocked(tab, conv) { return; }
      if !IsCurrent(tab, generation) { return; }
      var h := runtime[tab];
      match event
      case Bytes(bytes) =>
        LogOutput(heap[h].channel, OutputChannel.Output(bytes));
      case Control(_) =>
      case Exit => heap := heap[h := heap[h].(status := Exited)];
      case Fault => heap := heap[h := heap[h].(status := Failed)];
    }

    method DoCloseTab(tab: TabId)
      modifies this
      ensures Abs() == CloseTab(old(Abs()), tab)
    {
      tokens := tokens - {tab};
      if tab in closes { return; }
      var entry := if tab in runtime then Some(runtime[tab]) else None;
      InvalidateGeneration(tab);
      closes := closes[tab := CloseOp(nextHandle, entry, Settling)];
      nextHandle := nextHandle + 1;
    }

    /** The `finally` block of a tab closing. */
    method EndClose(tab: TabId)
      requires tab in closes
      modifies this`closes, this`closed, this`runtime, this`output
      ensures Abs() == FinishClose(old(Abs()), tab)
    {
      var op := closes[tab];
      if op.entry.Some? && op.entry.value in heap {
        LogOutput(heap[op.entry.value].channel, OutputChannel.Reset);
      }
      if op.entry.Some? && tab in runtime && runtime[tab] == op.entry.value {
        runtime := runtime - {tab};
      }
      closes := closes[tab := op.(phase := CloseDone)];
      closed := closed + {op.id};
    }

    method DoCloseProceeds(tab: TabId)
      modifies this`closes, this`closed, this`runtime, this`output
      ensures Abs() == CloseProceeds(old(Abs()), tab)
    {
      if tab !in closes || !closes[tab].phase.Settled? { return; }
      var entry := closes[tab].entry;
      if entry.Some? && entry.value in heap && heap[entry.value].session.Some? {
        closes := closes[tab := closes[tab].(phase := ClosingSession(heap[entry.value].session.value))];
      } else {
        EndClose(tab);
      }
    }

    method DoCloseReturns(tab: TabId, gone: bool)
      modifies this
      ensures Abs() == CloseReturns(old(Abs()), tab, gone)
    {
      if tab !in closes || !closes[tab].phase.ClosingSession? { return; }
      EndSession(closes[tab].phase.session, gone);
      EndClose(tab);
    }

    method ReplaceEntry(entry: Handle)
      requires entry in heap
      modifies this`spared
      ensures Abs() == Released(old(Abs()), heap[entry].session)
    {
      if heap[entry].session.Some? {
        spared := spared + {heap[entry].session.value} * open;
      }
    }

    method ContinueRestart(tab: TabId, entry: Handle, token: Handle, saved: bool)
      requires entry in heap
      modifies this
      ensures Abs() == RestartContinues(old(Abs()), tab, entry, token, saved)
    {
      var conv := heap[entry].conv;
      if IsBlocked(tab, conv) || tab !in tokens || tokens[tab] != token
         || tab !in runtime || runtime[tab] != entry || !saved {
        restarts := restarts[tab := RestartOp(entry, token, RestartDone)];
        return;
      }
      ReplaceEntry(entry);
      var op := BeginStart(tab, conv, true);
      restarts := restarts[tab := RestartOp(entry, token, RestartStarting(op))];
    }

    /** Outdates the tab and takes its token. */
    method NewToken(tab: TabId) returns (token: Handle)
      modifies this`generations, this`heap, this`tokens, this`nextHandle
      ensures token == old(nextHandle) && Abs() == TakeToken(old(Abs()), tab)
    {
      InvalidateGeneration(tab);
      token := nextHandle;
      nextHandle := nextHandle + 1;
      tokens := tokens[tab := token];
    }

    method DoRestartTab(tab: TabId, saved: bool)
      modifies this
      ensures Abs() == RestartTab(old(Abs()), tab, saved)
    {
      if !all.AllIdle? || tab in closes || tab in restarts || tab !in runtime { return; }
      var h := runtime[tab];
      if h !in heap || heap[h].conv in convs || !saved { return; }
      var session := heap[h].session;
      var token := NewToken(tab);
      if session.Some? {
        restarts := restarts[tab := RestartOp(h, token, RestartClosing(session.value))];
      } else {
        ContinueRestart(tab, h, token, saved);
      }
    }

    method DoRestartCloseReturns(tab: TabId, ok: bool, gone: bool, saved: bool)
      modifies this
      ensures Abs() == RestartCloseReturns(old(Abs()), tab, ok, gone, saved)
    {
      if tab !in restarts || !restarts[tab].phase.RestartClosing? || restarts[tab].entry !in heap { return; }
      var op := restarts[tab];
      if gone {
        open := open - {op.phase.session};
      }
      if ok {
        ContinueRestart(tab, op.entry, op.token, saved);
        return;
      }
      restarts := restarts[tab := op.(phase := RestartDone)];
      if tab in tokens && tokens[tab] == op.token && tab in runtime && runtime[tab] == op.entry {
        heap := heap[op.entry := heap[op.entry].(status := Failed)];
      }
    }

    /** `closeConversation` once its microtask runs: close every listed tab in turn. */
    method DoConversationRuns(conv: ConvId, tabs: seq<TabId>)
      requires conv in convs && convs[conv].ConvQueued? && ListsTabsOf(Abs(), conv, tabs)
      modifies this
      ensures Abs() == ConversationRuns(old(Abs()), conv, tabs)
    {
      var i := 0;
      while i < |tabs|
        invariant 0 <= i <= |tabs|
        invariant Abs() == CloseTabs(old(Abs()), tabs[..i])
      {
        assert tabs[..i + 1][..i] == tabs[..i];
        DoCloseTab(tabs[i]);
        i := i + 1;
      }
      assert tabs[..i] == tabs;
      convs := convs[conv := ConvWaiting(AwaitedBy(closes, tabs))];
    }

    /** `closeAll` up to its first await: a new generation for every live entry. */
    method DoCloseAll()
      requires TerminalSafety.EntriesCurrent(heap, runtime, generations)
      modifies this
      ensures Abs() == CloseAll(old(Abs()))
    {
      if !all.AllIdle? { return; }
      tokens := map[];
      InvalidateEntries();
      all := AllFirst;
    }

    /** One of the two `transport.closeAll` calls returns, having closed `gone`. */
    method DoAllReturns(gone: set<SessionId>)
      modifies this`open, this`spared, this`all, this`runtime, this`starts, this`output
      ensures Abs() == AllReturns(old(Abs()), gone)
    {
      if all.AllFirst? {
        open := open - gone;
        all := AllSettling;
      } else if all.AllSecond? {
        open := open - gone;
        EndAll();
      }
    }

    /** The `finally` block of `closeAll`. */
    method EndAll()
      modifies this`all, this`spared, this`runtime, this`starts, this`output
      ensures Abs() == EndedAll(old(Abs()))
    {
      ClearOutputs();
      ForgetAll();
    }

    method ForgetAll()
      modifies this`all, this`spared, this`runtime, this`starts
      ensures Abs() == old(Abs()).(all := AllDone, runtime := map[], starts := map[],
                                   spared := old(spared + (open - abandoned)))
    {
      all := AllDone;
      spared := spared + (open - abandoned);
      runtime, starts := map[], map[];
    }

    /** `clearOutputChannel` for every live entry. */
    method ClearOutputs()
      modifies this`output
      ensures output == ClearedChannels(old(output), LiveChannels(heap, runtime))
    {
      var channels := LiveChannels(heap, runtime);
      var pending := channels;
      assert channels - pending == {};
      ClearedNone(output);
      while pending != {}
        invariant pending <= channels
        invariant output == ClearedChannels(old(output), channels - pending)
        decreases pending
      {
        var channel :| channel in pending;
        ClearedOneMore(old(output), channels - pending, channel);
        LogOutput(channel, OutputChannel.Reset);
        assert channels - (pending - {channel}) == (channels - pending) + {channel};
        pending := pending - {channel};
      }
      assert channels - pending == channels;
    }

    method InvalidateEntries()
      requires TerminalSafety.EntriesCurrent(heap, runtime, generations)
      modifies this`heap, this`generations
      ensures Abs() == InvalidateAll(old(Abs()))
    {
      hide TerminalSafety.EntriesCurrent, InvalidateSome, Invalidate;
      var pending := runtime.Keys;
      InvalidateNone(Abs());
      assert runtime.Keys - pending == {};
      while pending != {}
        invariant pending <= runtime.Keys && runtime == old(runtime)
        invariant Abs() == InvalidateSome(old(Abs()), runtime.Keys - pending)
        decreases pending
      {
        var tab :| tab in pending;
        ghost var done := runtime.Keys - pending;
        InvalidateOneMore(old(Abs()), done, tab);
        InvalidateGeneration(tab);
        pending := pending - {tab};
        assert runtime.Keys - pending == done + {tab};
      }
      assert runtime.Keys - pending == runtime.Keys;
    }
  }

  lemma BeginIs(s: State, tab: TabId, conv: ConvId, mayFallback: bool)
    ensures var g := GenerationIn(s.generations, tab) + 1;
      Begin(s, tab, conv, mayFallback) == s.(
        generations := s.generations[tab := g],
        heap := s.heap[s.nextHandle :=
          Entry(tab, conv, None, Starting, g, ChannelOf(s.heap, s.runtime, tab, s.nextHandle + 2))],
        runtime := s.runtime[tab := s.nextHandle],
        starts := s.starts[s.nextHandle + 1 := Start(tab, conv, g, mayFallback, Queued)],
        nextHandle := s.nextHandle + 3)
  {
  }

  lemma ClearedNone(output: Logs)
    ensures ClearedChannels(output, {}) == output
  {
    assert forall c :: c in output ==> output[c] + [] == output[c];
  }

  lemma ClearedOneMore(output: Logs, channels: set<Handle>, channel: Handle)
    requires channel !in channels
    ensures Logged(ClearedChannels(output, channels), channel, OutputChannel.Reset)
         == ClearedChannels(output, channels + {channel})
  {
    assert LogOf(output, channel) + [] == LogOf(output, channel);
  }

  lemma InvalidateNone(s: State)
    ensures InvalidateSome(s, {}) == s
  {
    assert BumpedHeap(s.heap, s.runtime, s.generations, {}) == s.heap;
    assert BumpedGenerations(s.generations, {}) == s.generations;
  }

  lemma OneMoreHeap(heap: Heap, runtime: TerminalState.Runtime, generations: Generations, tabs: set<TabId>, tab: TabId)
    requires TerminalSafety.EntriesCurrent(heap, runtime, generations)
    requires tab in runtime && tab !in tabs
    ensures var h := runtime[tab];
            var some := BumpedHeap(heap, runtime, generations, tabs);
            some[h := some[h].(generation := GenerationIn(generations, tab) + 1)]
              == BumpedHeap(heap, runtime, generations, tabs + {tab})
  {
  }

  lemma OneMoreGeneration(generations: Generations, tabs: set<TabId>, tab: TabId)
    requires tab !in tabs
    ensures var some := BumpedGenerations(generations, tabs);
            && GenerationIn(some, tab) == GenerationIn(generations, tab)
            && some[tab := GenerationIn(generations, tab) + 1] == BumpedGenerations(generations, tabs + {tab})
  {
  }

  lemma InvalidateOneMore(s: State, tabs: set<TabId>, tab: TabId)
    requires TerminalSafety.EntriesCurrent(s.heap, s.runtime, s.generations)
    requires tab in s.runtime && tab !in tabs
    ensures Invalidate(InvalidateSome(s, tabs), tab) == InvalidateSome(s, tabs + {tab})
  {
    hide *;
    LiveEntry(s, tab);
    OneMoreHeap(s.heap, s.runtime, s.generations, tabs, tab);
    OneMoreGeneration(s.generations, tabs, tab);
    BumpedKeys(s.heap, s.runtime, s.generations, tabs);
    var some := InvalidateSome(s, tabs);
    SomeIs(s, tabs);
    SomeIs(s, tabs + {tab});
    InvalidateLive(some, tab);
  }

  lemma LiveEntry(s: State, tab: TabId)
    requires TerminalSafety.EntriesCurrent(s.heap, s.runtime, s.generations) && tab in s.runtime
    ensures s.runtime[tab] in s.heap
  {
  }

  lemma SomeIs(s: State, tabs: set<TabId>)
    ensures InvalidateSome(s, tabs) == s.(generations := BumpedGenerations(s.generations, tabs),
                                          heap := BumpedHeap(s.heap, s.runtime, s.generations, tabs))
  {
  }

  lemma BumpedKeys(heap: Heap, runtime: TerminalState.Runtime, generations: Generations, tabs: set<TabId>)
    ensures BumpedHeap(heap, runtime, generations, tabs).Keys == heap.Keys
  {
  }

  lemma InvalidateLive(s: State, tab: TabId)
    requires tab in s.runtime && s.runtime[tab] in s.heap
    ensures var g := GenerationIn(s.generations, tab) + 1;
      Invalidate(s, tab) == s.(generations := s.generations[tab := g],
                               heap := s.heap[s.runtime[tab] := s.heap[s.runtime[tab]].(generation := g)])
  {
  }
}
