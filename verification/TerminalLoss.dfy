/**
 Which open sessions still have an owner, over every run: all but those a rejected
 create abandoned and those a close call left open when their owner went.
 */
module TerminalLoss {
  import opened Prelude
  import opened TerminalState
  import opened TerminalSafety

  /** No live entry and no start knows the session. */
  ghost predicate Unowned(s: State, session: SessionId) {
    && (forall t :: !OwnedByTab(s.heap, s.runtime, session, t))
    && (forall op :: !OwnedByStart(s.starts, session, op))
  }

  /** Entries and starts may go and forget, but none comes and none learns. */
  ghost predicate Narrows(s: State, n: State) {
    && (forall t :: t in n.runtime ==> t in s.runtime && n.runtime[t] == s.runtime[t])
    && (forall h :: h in n.heap ==> h in s.heap && n.heap[h].session == s.heap[h].session)
    && (forall op :: op in n.starts ==> op in s.starts)
    && (forall op :: op in n.starts ==> Held(n.starts[op]).None? || Held(n.starts[op]) == Held(s.starts[op]))
  }

  lemma NarrowerIsUnowned(s: State, n: State, session: SessionId)
    requires Unowned(s, session) && Narrows(s, n)
    ensures Unowned(n, session)
  {
    forall t ensures !OwnedByTab(n.heap, n.runtime, session, t) {
      assert !OwnedByTab(s.heap, s.runtime, session, t);
    }
    forall op ensures !OwnedByStart(n.starts, session, op) {
      assert !OwnedByStart(s.starts, session, op);
    }
  }

  lemma SameNarrows(s: State, n: State)
    requires n.heap == s.heap && n.runtime == s.runtime && n.starts == s.starts
    ensures Narrows(s, n)
  {
  }

  lemma NarrowsChain(s: State, m: State, n: State)
    requires Narrows(s, m) && Narrows(m, n)
    ensures Narrows(s, n)
  {
  }

  // The three ways to get an owner: a new entry has none, a new session is another one,
  // and an entry takes over from a start.

  lemma BeginIsUnowned(s: State, tab: TabId, conv: ConvId, mayFallback: bool, session: SessionId)
    requires HandlesFresh(s.heap, s.starts, s.closes, s.closed, s.convs, s.nextHandle)
    requires EntriesCurrent(s.heap, s.runtime, s.generations) && Unowned(s, session)
    ensures Unowned(Begin(s, tab, conv, mayFallback), session)
  {
    var n := Begin(s, tab, conv, mayFallback);
    forall t ensures !OwnedByTab(n.heap, n.runtime, session, t) {
      assert !OwnedByTab(s.heap, s.runtime, session, t);
    }
    forall op ensures !OwnedByStart(n.starts, session, op) {
      assert !OwnedByStart(s.starts, session, op);
    }
  }

  lemma CreatedIsUnowned(s: State, op: Handle, other: SessionId, session: SessionId)
    requires Unowned(s, session) && session in s.made
    ensures Unowned(ServerCreates(s, op, other), session)
  {
    var n := ServerCreates(s, op, other);
    forall t ensures !OwnedByTab(n.heap, n.runtime, session, t) {
      assert !OwnedByTab(s.heap, s.runtime, session, t);
    }
    forall p ensures !OwnedByStart(n.starts, session, p) {
      assert !OwnedByStart(s.starts, session, p);
    }
  }

  lemma AdoptedIsUnowned(s: State, op: Handle, h: Handle, other: SessionId, session: SessionId)
    requires Unowned(s, session) && h in s.heap && other != session
    ensures Unowned(EndStart(s, op).(heap := s.heap[h := Adopt(s.heap[h], other)]), session)
  {
    var heap := s.heap[h := Adopt(s.heap[h], other)];
    forall t ensures !OwnedByTab(heap, s.runtime, session, t) {
      assert !OwnedByTab(s.heap, s.runtime, session, t);
    }
    forall p ensures !OwnedByStart(s.starts - {op}, session, p) {
      assert !OwnedByStart(s.starts, session, p);
    }
  }

  lemma HeldIsOther(s: State, op: Handle, session: SessionId)
    requires Unowned(s, session) && op in s.starts
    ensures Held(s.starts[op]) != Some(session)
  {
    assert !OwnedByStart(s.starts, session, op);
  }

  lemma ReturnedIsUnowned(s: State, op: Handle, session: SessionId)
    requires Unowned(s, session)
    ensures Unowned(CreateReturns(s, op), session)
  {
    hide Blocked, Unowned, Narrows, EndStart, SetStart, Adopt;
    if op in s.starts && s.starts[op].phase.Creating? && s.starts[op].phase.made.Some? {
      var other := s.starts[op].phase.made.value;
      HeldIsOther(s, op, session);
      if Stale(s, s.starts[op]) {
        SetNarrows(s, op, LateClose(other));
        NarrowerIsUnowned(s, SetStart(s, op, LateClose(other)), session);
      } else {
        AdoptedIsUnowned(s, op, s.runtime[s.starts[op].tab], other, session);
      }
    }
  }

  // Everything else narrows.

  lemma EndNarrows(s: State, op: Handle)
    ensures Narrows(s, EndStart(s, op)) && Narrows(s, s)
  {
  }

  lemma SetNarrows(s: State, op: Handle, phase: StartPhase)
    requires op in s.starts
    requires Held(s.starts[op].(phase := phase)).None? || Held(s.starts[op].(phase := phase)) == Held(s.starts[op])
    ensures Narrows(s, SetStart(s, op, phase))
  {
  }

  lemma StatusNarrows(s: State, h: Handle, status: Status)
    requires h in s.heap
    ensures Narrows(s, s.(heap := s.heap[h := s.heap[h].(status := status)]))
  {
  }

  lemma RunNarrows(s: State, op: Handle)
    ensures Narrows(s, RunStart(s, op))
  {
    hide Stale, EndStart, SetStart, Narrows;
    EndNarrows(s, op);
    if op in s.starts {
      SetNarrows(s, op, Creating(None));
    }
  }

  lemma AbandonNarrows(s: State, op: Handle)
    ensures Narrows(s, Abandon(s, op))
  {
    hide Narrows, SetStart;
    SameNarrows(s, s);
    if op in s.starts && s.starts[op].phase.Creating? && s.starts[op].phase.made.Some? {
      var m := s.(abandoned := s.abandoned + {s.starts[op].phase.made.value});
      SameNarrows(s, m);
      SetNarrows(m, op, Creating(None));
      NarrowsChain(s, m, SetStart(m, op, Creating(None)));
    }
  }

  lemma RejectIsUnowned(s: State, op: Handle, elsewhere: bool, session: SessionId)
    requires Inv(s) && Unowned(s, session)
    ensures Unowned(CreateRejects(s, op, elsewhere), session)
  {
    hide Inv, Blocked, FallBack, Unowned, Narrows;
    if op in s.starts && s.starts[op].phase == Creating(None) {
      EndNarrows(s, op);
      NarrowerIsUnowned(s, EndStart(s, op), session);
      if !Stale(s, s.starts[op]) {
        if s.starts[op].mayFallback && elsewhere {
          FallBackIsUnowned(s, op, session);
        } else {
          var h := s.runtime[s.starts[op].tab];
          StatusNarrows(EndStart(s, op), h, Failed);
          var n := EndStart(s, op).(heap := s.heap[h := s.heap[h].(status := Failed)]);
          NarrowerIsUnowned(EndStart(s, op), n, session);
        }
      }
    }
  }

  lemma FallBackIsUnowned(s: State, op: Handle, session: SessionId)
    requires Inv(s) && op in s.starts && !Stale(s, s.starts[op]) && Unowned(s, session)
    ensures Unowned(FallBack(s, op), session)
  {
    hide Inv, Blocked, Unowned, Narrows, Begin;
    var start := s.starts[op];
    var dropped := DropKept(s, start.tab);
    SameNarrows(s, dropped);
    NarrowerIsUnowned(s, dropped, session);
    DropKeeps(s, start.tab);
    BegunIsUnowned(dropped, start.tab, start.conv, false, session);
    StartIsOld(s, op);
    BeginStarts(dropped, start.tab, start.conv, false, op);
    SetNarrows(FallenBack(s, op), op, FellBack(s.nextHandle + 1));
    NarrowerIsUnowned(FallenBack(s, op), FallBack(s, op), session);
  }

  lemma BegunIsUnowned(s: State, tab: TabId, conv: ConvId, mayFallback: bool, session: SessionId)
    requires Inv(s) && Unowned(s, session)
    ensures Unowned(Begin(s, tab, conv, mayFallback), session)
  {
    BeginIsUnowned(s, tab, conv, mayFallback, session);
  }

  lemma FailedIsUnowned(s: State, op: Handle, elsewhere: bool, session: SessionId)
    requires Inv(s) && Unowned(s, session)
    ensures Unowned(CreateFails(s, op, elsewhere), session)
  {
    hide Inv, Unowned, Narrows, Abandon, CreateRejects;
    AbandonKeeps(s, op);
    AbandonNarrows(s, op);
    NarrowerIsUnowned(s, Abandon(s, op), session);
    RejectIsUnowned(Abandon(s, op), op, elsewhere, session);
  }

  lemma LateNarrows(s: State, op: Handle, gone: bool)
    ensures Narrows(s, LateCloseReturns(s, op, gone))
  {
    hide Narrows, EndStart;
    SameNarrows(s, s);
    if op in s.starts && s.starts[op].phase.LateClose? {
      var m := Closed(s, s.starts[op].phase.late, gone);
      SameNarrows(s, m);
      EndNarrows(m, op);
      NarrowsChain(s, m, EndStart(m, op));
    }
  }

  lemma EventNarrows(s: State, tab: TabId, conv: ConvId, generation: nat, event: TerminalEvent)
    ensures Narrows(s, Event(s, tab, conv, generation, event))
  {
    hide Blocked;
  }

  lemma CloseTabNarrows(s: State, tab: TabId)
    ensures Narrows(s, CloseTab(s, tab))
  {
    hide Narrows, Invalidate;
    var s1 := s.(tokens := s.tokens - {tab});
    SameNarrows(s, s1);
    InvalidateNarrows(s1, tab);
    NarrowsChain(s, s1, Invalidate(s1, tab));
    if tab !in s.closes {
      SameNarrows(Invalidate(s1, tab), CloseTab(s, tab));
      NarrowsChain(s, Invalidate(s1, tab), CloseTab(s, tab));
    }
  }

  lemma InvalidateNarrows(s: State, tab: TabId)
    ensures Narrows(s, Invalidate(s, tab))
  {
  }

  lemma FinishNarrows(s: State, tab: TabId)
    requires tab in s.closes
    ensures Narrows(s, FinishClose(s, tab))
  {
  }

  lemma ProceedNarrows(s: State, tab: TabId)
    ensures Narrows(s, CloseProceeds(s, tab))
  {
    hide FinishClose, Narrows;
    SameNarrows(s, s);
    if tab in s.closes {
      FinishNarrows(s, tab);
      var entry := s.closes[tab].entry;
      if entry.Some? && entry.value in s.heap && s.heap[entry.value].session.Some? {
        SameNarrows(s, SetClose(s, tab, ClosingSession(s.heap[entry.value].session.value)));
      }
    }
  }

  lemma CloseReturnNarrows(s: State, tab: TabId, gone: bool)
    ensures Narrows(s, CloseReturns(s, tab, gone))
  {
    hide FinishClose, Narrows;
    SameNarrows(s, s);
    if tab in s.closes && s.closes[tab].phase.ClosingSession? {
      var m := Closed(s, s.closes[tab].phase.session, gone);
      SameNarrows(s, m);
      FinishNarrows(m, tab);
      NarrowsChain(s, m, FinishClose(m, tab));
    }
  }

  lemma TokenNarrows(s: State, tab: TabId)
    ensures Narrows(s, TakeToken(s, tab))
  {
  }

  lemma ContinuedIsUnowned(s: State, tab: TabId, entry: Handle, token: Handle, saved: bool, session: SessionId)
    requires Inv(s) && entry in s.heap && Unowned(s, session)
    ensures Unowned(RestartContinues(s, tab, entry, token, saved), session)
  {
    hide Inv, Begin, Released, Unowned, Narrows, Blocked;
    var n := RestartContinues(s, tab, entry, token, saved);
    ReleasedKeeps(s, s.heap[entry].session);
    var m := Released(s, s.heap[entry].session);
    SameNarrows(s, m);
    NarrowerIsUnowned(s, m, session);
    BegunIsUnowned(m, tab, s.heap[entry].conv, true, session);
    SameNarrows(s, s.(restarts := n.restarts));
    NarrowerIsUnowned(s, s.(restarts := n.restarts), session);
    var b := Begin(m, tab, s.heap[entry].conv, true);
    SameNarrows(b, b.(restarts := n.restarts));
    NarrowerIsUnowned(b, b.(restarts := n.restarts), session);
  }

  lemma RestartedIsUnowned(s: State, tab: TabId, saved: bool, session: SessionId)
    requires Inv(s) && Unowned(s, session)
    ensures Unowned(RestartTab(s, tab, saved), session)
  {
    hide Inv, RestartContinues, TakeToken, Unowned, Narrows;
    if tab in s.runtime {
      BeginRestartKeeps(s, tab);
      TokenNarrows(s, tab);
      var m := TakeToken(s, tab);
      NarrowerIsUnowned(s, m, session);
      var h := s.runtime[tab];
      match s.heap[h].session
      case Some(old') =>
        var n := m.(restarts := s.restarts[tab := RestartOp(h, s.nextHandle, RestartClosing(old'))]);
        SameNarrows(m, n);
        NarrowerIsUnowned(m, n, session);
      case None => ContinuedIsUnowned(m, tab, h, s.nextHandle, saved, session);
    }
  }

  lemma RestartReturnIsUnowned(s: State, tab: TabId, ok: bool, gone: bool, saved: bool, session: SessionId)
    requires Inv(s) && Unowned(s, session)
    ensures Unowned(RestartCloseReturns(s, tab, ok, gone, saved), session)
  {
    hide Inv, RestartContinues, Unowned, Narrows;
    if tab in s.restarts && s.restarts[tab].phase.RestartClosing? && s.restarts[tab].entry in s.heap {
      var op := s.restarts[tab];
      var m := Shut(s, op.phase.session, gone);
      ShutKeeps(s, op.phase.session, gone);
      SameNarrows(s, m);
      NarrowerIsUnowned(s, m, session);
      if ok {
        ContinuedIsUnowned(m, tab, op.entry, op.token, saved, session);
      } else {
        var n := m.(restarts := s.restarts[tab := op.(phase := RestartDone)]);
        SameNarrows(m, n);
        NarrowerIsUnowned(m, n, session);
        StatusNarrows(n, op.entry, Failed);
        NarrowerIsUnowned(n, n.(heap := n.heap[op.entry := n.heap[op.entry].(status := Failed)]), session);
      }
    }
  }

  lemma {:induction false} CloseTabsNarrows(s: State, tabs: seq<TabId>)
    ensures Narrows(s, CloseTabs(s, tabs))
  {
    hide CloseTab, Narrows;
    SameNarrows(s, s);
    if tabs != [] {
      var m := CloseTabs(s, tabs[..|tabs| - 1]);
      CloseTabsNarrows(s, tabs[..|tabs| - 1]);
      CloseTabNarrows(m, tabs[|tabs| - 1]);
      NarrowsChain(s, m, CloseTab(m, tabs[|tabs| - 1]));
    }
  }

  lemma ConversationNarrows(s: State, conv: ConvId, tabs: seq<TabId>)
    ensures Narrows(s, ConversationRuns(s, conv, tabs))
  {
    hide CloseTabs, ListsTabsOf, Narrows;
    CloseTabsNarrows(s, tabs);
    SameNarrows(s, s);
    var m, n := CloseTabs(s, tabs), ConversationRuns(s, conv, tabs);
    if conv in s.convs && s.convs[conv].ConvQueued? && ListsTabsOf(s, conv, tabs) {
      SameNarrows(m, n);
      NarrowsChain(s, m, n);
    }
  }

  lemma BumpsNarrow(s: State)
    ensures Narrows(s, InvalidateAll(s))
  {
    hide BumpedGenerations;
    var n := InvalidateAll(s);
    assert n.runtime == s.runtime && n.starts == s.starts;
  }

  lemma CloseAllNarrows(s: State)
    ensures Narrows(s, CloseAll(s))
  {
    hide Narrows, InvalidateAll;
    SameNarrows(s, s);
    var m := s.(tokens := map[]);
    SameNarrows(s, m);
    BumpsNarrow(m);
    NarrowsChain(s, m, InvalidateAll(m));
    SameNarrows(InvalidateAll(m), InvalidateAll(m).(all := AllFirst));
    NarrowsChain(s, InvalidateAll(m), InvalidateAll(m).(all := AllFirst));
  }

  lemma EndedNarrows(s: State)
    ensures Narrows(s, EndedAll(s))
  {
    hide ClearedChannels, LiveChannels;
    var n := EndedAll(s);
    assert n.heap == s.heap && n.runtime == map[] && n.starts == map[];
  }

  lemma AllReturnsNarrows(s: State, gone: set<SessionId>)
    ensures Narrows(s, AllReturns(s, gone))
  {
    hide Narrows, EndedAll;
    SameNarrows(s, s);
    SameNarrows(s, s.(all := AllSettling, open := s.open - gone));
    var m := s.(open := s.open - gone);
    SameNarrows(s, m);
    EndedNarrows(m);
    NarrowsChain(s, m, EndedAll(m));
  }

  lemma AllStepsNarrow(s: State)
    ensures Narrows(s, AllSettles(s)) && Narrows(s, AllProceeds(s)) && Narrows(s, AllFinally(s))
  {
    hide Narrows;
    SameNarrows(s, s);
    SameNarrows(s, s.(all := AllSettled));
    SameNarrows(s, s.(all := AllSecond));
    SameNarrows(s, s.(all := AllIdle));
  }

  // Once without an owner, always without an owner.

  lemma StartLeavesUnowned(s: State, a: StartAction, session: SessionId)
    requires Inv(s) && session in s.made && Unowned(s, session)
    ensures Unowned(NextStart(s, a), session)
  {
    hide Inv, Unowned, Narrows;
    hide Begin, Blocked, RunStart, ServerCreates, CreateReturns, CreateFails, LateCloseReturns, Event;
    match a
    case Opens(tab, conv) => BegunIsUnowned(s, tab, conv, true, session);
    case Runs(op) => RunNarrows(s, op); NarrowerIsUnowned(s, RunStart(s, op), session);
    case IsCreated(op, other) => CreatedIsUnowned(s, op, other, session);
    case Returns(op) => ReturnedIsUnowned(s, op, session);
    case Fails(op, elsewhere) => FailedIsUnowned(s, op, elsewhere, session);
    case LateCloses(op, gone) => LateNarrows(s, op, gone); NarrowerIsUnowned(s, LateCloseReturns(s, op, gone), session);
    case FallbackEnds(op) => EndNarrows(s, op); NarrowerIsUnowned(s, EndStart(s, op), session);
    case Emits(tab, conv, generation, event) =>
      EventNarrows(s, tab, conv, generation, event);
      NarrowerIsUnowned(s, Event(s, tab, conv, generation, event), session);
  }

  lemma CloseNarrows(s: State, tab: TabId, a: CloseAction)
    ensures Narrows(s, NextClose(s, tab, a))
  {
    hide Narrows, CloseTab, CloseProceeds, CloseReturns, StartsOf;
    match a
    case Begins => CloseTabNarrows(s, tab);
    case Settles => SameNarrows(s, CloseSettles(s, tab));
    case Proceeds => ProceedNarrows(s, tab);
    case CallReturns(gone) => CloseReturnNarrows(s, tab, gone);
    case Ends => SameNarrows(s, CloseFinally(s, tab));
  }

  lemma RestartLeavesUnowned(s: State, tab: TabId, a: RestartAction, session: SessionId)
    requires Inv(s) && Unowned(s, session)
    ensures Unowned(NextRestart(s, tab, a), session)
  {
    hide Inv, Unowned, Narrows, RestartTab, RestartCloseReturns;
    match a
    case RestartBegins(saved) => RestartedIsUnowned(s, tab, saved, session);
    case RestartCallReturns(ok, gone, saved) => RestartReturnIsUnowned(s, tab, ok, gone, saved, session);
    case RestartEnds =>
      SameNarrows(s, RestartFinally(s, tab));
      NarrowerIsUnowned(s, RestartFinally(s, tab), session);
  }

  lemma ConvNarrows(s: State, conv: ConvId, a: ConvAction)
    ensures Narrows(s, NextConv(s, conv, a))
  {
    hide Narrows, ConversationRuns;
    match a
    case ConvBegins => SameNarrows(s, CloseConversation(s, conv));
    case ConvRuns(tabs) => ConversationNarrows(s, conv, tabs);
    case ConvSettles => SameNarrows(s, ConversationSettles(s, conv));
    case ConvEnds => SameNarrows(s, ConversationFinally(s, conv));
  }

  lemma AllNarrows(s: State, a: AllAction)
    ensures Narrows(s, NextAll(s, a))
  {
    hide Narrows, CloseAll, AllReturns, AllSettles, AllProceeds, AllFinally;
    match a
    case AllBegins => CloseAllNarrows(s);
    case AllCallReturns(gone) => AllReturnsNarrows(s, gone);
    case _ => AllStepsNarrow(s);
  }

  lemma NextLeavesUnowned(s: State, a: Action, session: SessionId)
    requires Inv(s) && session in s.made && Unowned(s, session)
    ensures Unowned(Next(s, a), session)
  {
    hide Inv, Unowned, Narrows, NextStart, NextClose, NextRestart, NextConv, NextAll;
    match a
    case OfStart(start) => StartLeavesUnowned(s, start, session);
    case OfClose(tab, close) =>
      CloseNarrows(s, tab, close);
      NarrowerIsUnowned(s, NextClose(s, tab, close), session);
    case OfRestart(tab, restart) => RestartLeavesUnowned(s, tab, restart, session);
    case OfConv(conv, closeConv) =>
      ConvNarrows(s, conv, closeConv);
      NarrowerIsUnowned(s, NextConv(s, conv, closeConv), session);
    case OfAll(closeAll) =>
      AllNarrows(s, closeAll);
      NarrowerIsUnowned(s, NextAll(s, closeAll), session);
  }

  // ---- Whoever is on record as lost has no owner ----

  ghost predicate LostUnowned(s: State) {
    Lost(s) <= s.made && forall session :: session in Lost(s) ==> Unowned(s, session)
  }

  /** The step puts nobody on record but sessions without an owner. */
  ghost predicate LosesOnlyUnowned(s: State, n: State) {
    && s.made <= n.made
    && Lost(s) <= Lost(n)
    && forall session :: session in Lost(n) && session !in Lost(s) ==> session in n.made && Unowned(n, session)
  }

  predicate SameRecord(s: State, n: State) {
    n.abandoned == s.abandoned && n.spared == s.spared && s.made <= n.made
  }

  lemma SameLost(s: State, n: State)
    requires SameRecord(s, n)
    ensures LosesOnlyUnowned(s, n)
  {
  }

  lemma FailedLoses(s: State, op: Handle, elsewhere: bool)
    requires Inv(s)
    ensures LosesOnlyUnowned(s, CreateFails(s, op, elsewhere))
  {
    hide Inv, CreateRejects, LosesOnlyUnowned, Unowned;
    RejectKeepsServer(Abandon(s, op), op, elsewhere);
    AbandonKeeps(s, op);
    if op in s.starts && s.starts[op].phase.Creating? && s.starts[op].phase.made.Some? {
      var session := s.starts[op].phase.made.value;
      AbandonedIsUnowned(s, op);
      RejectIsUnowned(Abandon(s, op), op, elsewhere, session);
      OneMoreLost(s, CreateFails(s, op, elsewhere), session);
    } else {
      SameLost(s, CreateFails(s, op, elsewhere));
    }
  }

  lemma OneMoreLost(s: State, n: State, session: SessionId)
    requires s.made <= n.made && Lost(s) <= Lost(n) <= Lost(s) + {session}
    requires session in n.made && Unowned(n, session)
    ensures LosesOnlyUnowned(s, n)
  {
  }

  predicate SameServer(s: State, n: State) {
    n.made == s.made && n.open == s.open && n.abandoned == s.abandoned && n.spared == s.spared
  }

  lemma StepsKeepServer(s: State, op: Handle)
    ensures SameServer(s, s) && SameServer(s, EndStart(s, op))
  {
  }

  lemma SetKeepsServer(s: State, op: Handle, phase: StartPhase)
    requires op in s.starts
    ensures SameServer(s, SetStart(s, op, phase))
  {
  }

  lemma BeginKeepsServer(s: State, tab: TabId, conv: ConvId, mayFallback: bool)
    ensures SameServer(s, Begin(s, tab, conv, mayFallback))
  {
  }

  lemma FallBackKeepsServer(s: State, op: Handle)
    requires op in s.starts && !Stale(s, s.starts[op])
    ensures SameServer(s, FallBack(s, op))
  {
    hide Begin;
    BeginKeepsServer(DropKept(s, s.starts[op].tab), s.starts[op].tab, s.starts[op].conv, false);
  }

  lemma RejectKeepsServer(s: State, op: Handle, elsewhere: bool)
    ensures SameServer(s, CreateRejects(s, op, elsewhere))
  {
    hide Blocked, FallBack, EndStart, SameServer;
    StepsKeepServer(s, op);
    if op in s.starts && s.starts[op].phase == Creating(None) {
      if !Stale(s, s.starts[op]) {
        if s.starts[op].mayFallback && elsewhere {
          FallBackKeepsServer(s, op);
        } else {
          var h := s.runtime[s.starts[op].tab];
          StatusKeepsServer(s, EndStart(s, op), s.heap[h := s.heap[h].(status := Failed)]);
        }
      }
    }
  }

  lemma StatusKeepsServer(s: State, n: State, heap: Heap)
    requires SameServer(s, n)
    ensures SameServer(s, n.(heap := heap))
  {
  }

  lemma AbandonedIsUnowned(s: State, op: Handle)
    requires Inv(s) && op in s.starts && s.starts[op].phase.Creating? && s.starts[op].phase.made.Some?
    ensures Unowned(Abandon(s, op), s.starts[op].phase.made.value)
    ensures s.starts[op].phase.made.value in s.made && Abandon(s, op).made == s.made && Abandon(s, op).open == s.open
    ensures Abandon(s, op).spared == s.spared
    ensures Abandon(s, op).abandoned == s.abandoned + {s.starts[op].phase.made.value}
  {
    hide HandlesFresh, StartsTracked, StartsDistinct, ClosesSound, ClosesWaited, ClosesDistinct, RestartsSound;
    hide AllSound, ConvsSound, NothingLost, EntriesCurrent;
  }

  lemma LateLoses(s: State, op: Handle, gone: bool)
    requires Inv(s)
    ensures LosesOnlyUnowned(s, LateCloseReturns(s, op, gone))
  {
    hide HandlesFresh, StartsTracked, StartsDistinct, ClosesSound, ClosesWaited, ClosesDistinct, RestartsSound;
    hide AllSound, ConvsSound, NothingLost, EntriesCurrent, LosesOnlyUnowned;
    SameLost(s, s);
    if op in s.starts && s.starts[op].phase.LateClose? {
      OneMoreLost(s, LateCloseReturns(s, op, gone), s.starts[op].phase.late);
    }
  }

  lemma CloseLoses(s: State, tab: TabId, gone: bool)
    requires Inv(s)
    ensures LosesOnlyUnowned(s, CloseReturns(s, tab, gone))
  {
    hide Inv, LosesOnlyUnowned, Unowned, FinishClose;
    SameLost(s, s);
    if tab in s.closes && s.closes[tab].phase.ClosingSession? {
      var session := s.closes[tab].phase.session;
      ClosedIsUnowned(s, tab, gone);
      OneMoreLost(s, CloseReturns(s, tab, gone), session);
    }
  }

  lemma ClosedIsUnowned(s: State, tab: TabId, gone: bool)
    requires Inv(s) && tab in s.closes && s.closes[tab].phase.ClosingSession?
    ensures var n := CloseReturns(s, tab, gone);
      && Unowned(n, s.closes[tab].phase.session)
      && s.closes[tab].phase.session in n.made
      && s.made == n.made && Lost(s) <= Lost(n) <= Lost(s) + {s.closes[tab].phase.session}
  {
    CloseIsSound(s, tab);
    HolderIsUnique(s, tab);
    hide Inv, FinishClose, SameServer, Unowned, Closed, Lost, CloseSound;
    hide OwnedByTab, OwnedByStart;
    var session := s.closes[tab].phase.session;
    var m := Closed(s, session, gone);
    ClosedRecord(s, session, gone);
    FinishTables(m, tab);
    SameServerLost(m, FinishClose(m, tab));
    UnownedBy(FinishClose(m, tab), s, tab, session);
  }

  lemma SameServerLost(s: State, n: State)
    requires SameServer(s, n)
    ensures Lost(n) == Lost(s) && n.made == s.made
  {
  }

  lemma ClosedRecord(s: State, session: SessionId, gone: bool)
    ensures var m := Closed(s, session, gone);
      && m.made == s.made && Lost(s) <= Lost(m) <= Lost(s) + {session}
      && m.heap == s.heap && m.runtime == s.runtime && m.starts == s.starts && m.closes == s.closes
  {
  }

  lemma FinishTables(s: State, tab: TabId)
    requires tab in s.closes
    ensures var n := FinishClose(s, tab);
      && SameServer(s, n) && n.heap == s.heap && n.starts == s.starts
      && (forall t :: t in n.runtime ==> t in s.runtime && n.runtime[t] == s.runtime[t])
      && (tab in n.runtime ==> s.closes[tab].entry != Some(s.runtime[tab]))
  {
    hide ClearedCaptured;
  }

  /** The entry a close captured is the only holder of the session it closes. */
  lemma HolderIsUnique(s: State, tab: TabId)
    requires Inv(s) && tab in s.closes && s.closes[tab].phase.ClosingSession?
    ensures var session := s.closes[tab].phase.session;
      && session in s.made
      && (forall t :: OwnedByTab(s.heap, s.runtime, session, t) ==> t == tab)
      && (forall op :: !OwnedByStart(s.starts, session, op))
      && (tab in s.runtime ==> s.closes[tab].entry == Some(s.runtime[tab]))
  {
    CloseIsSound(s, tab);
    hide HandlesFresh, StartsTracked, StartsDistinct, ClosesSound, ClosesWaited, ClosesDistinct, RestartsSound;
    hide AllSound, ConvsSound, NothingLost;
  }

  lemma UnownedBy(n: State, s: State, tab: TabId, session: SessionId)
    requires n.heap == s.heap && n.starts == s.starts && tab !in n.runtime
    requires forall t :: t in n.runtime ==> t in s.runtime && n.runtime[t] == s.runtime[t]
    requires forall t :: OwnedByTab(s.heap, s.runtime, session, t) ==> t == tab
    requires forall op :: !OwnedByStart(s.starts, session, op)
    ensures Unowned(n, session)
  {
    forall t ensures !OwnedByTab(n.heap, n.runtime, session, t) {
      if OwnedByTab(n.heap, n.runtime, session, t) {
        assert OwnedByTab(s.heap, s.runtime, session, t);
      }
    }
  }

  lemma ContinueLoses(s: State, tab: TabId, entry: Handle, token: Handle, saved: bool)
    requires Inv(s) && entry in s.heap && s.heap[entry].tab == tab
    ensures LosesOnlyUnowned(s, RestartContinues(s, tab, entry, token, saved))
  {
    hide Inv, LosesOnlyUnowned, Unowned, Begin, Released, Blocked;
    var conv := s.heap[entry].conv;
    var n := RestartContinues(s, tab, entry, token, saved);
    if Blocked(s, tab, conv) || tab !in s.tokens || s.tokens[tab] != token
       || tab !in s.runtime || s.runtime[tab] != entry || !saved {
      SameLost(s, n);
    } else {
      var b := Begin(Released(s, s.heap[entry].session), tab, conv, true);
      ReplacedLoses(s, tab, entry);
      SameNarrows(b, n);
      if s.heap[entry].session.Some? {
        var session := s.heap[entry].session.value;
        NarrowerIsUnowned(b, n, session);
        OneMoreLost(s, n, session);
      } else {
        SameLost(s, n);
      }
    }
  }

  lemma ReplacedLoses(s: State, tab: TabId, entry: Handle)
    requires Inv(s) && entry in s.heap && s.heap[entry].tab == tab && tab in s.runtime && s.runtime[tab] == entry
    ensures var b := Begin(Released(s, s.heap[entry].session), tab, s.heap[entry].conv, true);
      && b.abandoned == s.abandoned && b.made == s.made && s.spared <= b.spared
      && (s.heap[entry].session.None? ==> b.spared == s.spared)
      && (s.heap[entry].session.Some? ==>
        && b.spared <= s.spared + {s.heap[entry].session.value}
        && s.heap[entry].session.value in b.made
        && Unowned(b, s.heap[entry].session.value))
  {
    hide StartsTracked, StartsDistinct, ClosesSound, ClosesWaited, ClosesDistinct, RestartsSound;
    hide AllSound, ConvsSound, NothingLost, GenerationIn, ChannelOf;
  }

  lemma RestartLoses(s: State, tab: TabId, saved: bool)
    requires Inv(s)
    ensures LosesOnlyUnowned(s, RestartTab(s, tab, saved))
  {
    hide Inv, LosesOnlyUnowned, RestartContinues, TakeToken;
    SameLost(s, s);
    if tab in s.runtime {
      BeginRestartKeeps(s, tab);
      TokenKeepsLost(s, tab);
      var m, h := TakeToken(s, tab), s.runtime[tab];
      match s.heap[h].session
      case Some(old') =>
        SameLost(s, m.(restarts := s.restarts[tab := RestartOp(h, s.nextHandle, RestartClosing(old'))]));
      case None =>
        ContinueLoses(m, tab, h, s.nextHandle, saved);
        SameLostBefore(s, m, RestartContinues(m, tab, h, s.nextHandle, saved));
    }
  }

  lemma TokenKeepsLost(s: State, tab: TabId)
    ensures SameRecord(s, TakeToken(s, tab))
  {
  }

  lemma SameLostBefore(s: State, m: State, n: State)
    requires SameRecord(s, m) && LosesOnlyUnowned(m, n)
    ensures LosesOnlyUnowned(s, n)
  {
  }

  lemma RestartReturnLoses(s: State, tab: TabId, ok: bool, gone: bool, saved: bool)
    requires Inv(s)
    ensures LosesOnlyUnowned(s, RestartCloseReturns(s, tab, ok, gone, saved))
  {
    hide Inv, LosesOnlyUnowned, RestartContinues;
    SameLost(s, s);
    if tab in s.restarts && s.restarts[tab].phase.RestartClosing? && s.restarts[tab].entry in s.heap {
      var op := s.restarts[tab];
      var m := Shut(s, op.phase.session, gone);
      ShutKeeps(s, op.phase.session, gone);
      RestartIsSound(s, tab);
      if ok {
        ContinueLoses(m, tab, op.entry, op.token, saved);
        SameLostBefore(s, m, RestartContinues(m, tab, op.entry, op.token, saved));
      } else {
        SameLost(s, RestartCloseReturns(s, tab, ok, gone, saved));
      }
    }
  }

  lemma EndedLoses(s: State)
    requires Inv(s)
    ensures LosesOnlyUnowned(s, EndedAll(s))
  {
    hide HandlesFresh, StartsTracked, StartsDistinct, ClosesSound, ClosesWaited, ClosesDistinct, RestartsSound;
    hide AllSound, ConvsSound, NothingLost, EntriesCurrent, ClearedChannels, LiveChannels;
    var n := EndedAll(s);
    assert n.runtime == map[] && n.starts == map[] && s.open <= s.made;
  }

  lemma AllReturnsLoses(s: State, gone: set<SessionId>)
    requires Inv(s)
    ensures LosesOnlyUnowned(s, AllReturns(s, gone))
  {
    hide Inv, LosesOnlyUnowned, EndedAll;
    SameLost(s, s);
    SameLost(s, s.(all := AllSettling, open := s.open - gone));
    SweepKeeps(s, gone);
    EndedLoses(s.(open := s.open - gone));
    SameLostBefore(s, s.(open := s.open - gone), EndedAll(s.(open := s.open - gone)));
  }

  // The other steps leave the record alone.

  lemma BeginRecord(s: State, tab: TabId, conv: ConvId, mayFallback: bool)
    ensures SameRecord(s, Begin(s, tab, conv, mayFallback))
  {
  }

  lemma EventRecord(s: State, tab: TabId, conv: ConvId, generation: nat, event: TerminalEvent)
    ensures SameRecord(s, Event(s, tab, conv, generation, event))
  {
    hide Blocked, Current;
  }

  lemma RunRecord(s: State, op: Handle)
    ensures SameServer(s, RunStart(s, op)) && SameServer(s, FallbackReturns(s, op))
  {
    hide Stale, EndStart, SetStart, SameServer;
    StepsKeepServer(s, op);
    if op in s.starts {
      SetKeepsServer(s, op, Creating(None));
    }
  }

  lemma ReturnRecord(s: State, op: Handle)
    ensures SameServer(s, CreateReturns(s, op))
  {
    hide Blocked, EndStart, SetStart, SameServer, Adopt;
    StepsKeepServer(s, op);
    if op in s.starts && s.starts[op].phase.Creating? && s.starts[op].phase.made.Some? {
      var session := s.starts[op].phase.made.value;
      SetKeepsServer(s, op, LateClose(session));
      if !Stale(s, s.starts[op]) {
        var h := s.runtime[s.starts[op].tab];
        StatusKeepsServer(s, EndStart(s, op), s.heap[h := Adopt(s.heap[h], session)]);
      }
    }
  }

  lemma StartLoses(s: State, a: StartAction)
    requires Inv(s)
    ensures LosesOnlyUnowned(s, NextStart(s, a))
  {
    hide Inv, LosesOnlyUnowned, Begin, Blocked, RunStart, CreateReturns, FallbackReturns, CreateFails;
    hide LateCloseReturns, Event;
    SameLost(s, s);
    match a
    case Opens(tab, conv) => BeginRecord(s, tab, conv, true); SameLost(s, OpenTab(s, tab, conv));
    case Runs(op) => RunRecord(s, op); SameLost(s, RunStart(s, op));
    case IsCreated(op, other) => SameLost(s, ServerCreates(s, op, other));
    case Returns(op) => ReturnRecord(s, op); SameLost(s, CreateReturns(s, op));
    case Fails(op, elsewhere) => FailedLoses(s, op, elsewhere);
    case LateCloses(op, gone) => LateLoses(s, op, gone);
    case FallbackEnds(op) => RunRecord(s, op); SameLost(s, FallbackReturns(s, op));
    case Emits(tab, conv, generation, event) =>
      EventRecord(s, tab, conv, generation, event);
      SameLost(s, Event(s, tab, conv, generation, event));
  }

  lemma CloseTabRecord(s: State, tab: TabId)
    ensures SameServer(s, CloseTab(s, tab))
  {
  }

  lemma ProceedRecord(s: State, tab: TabId)
    ensures SameServer(s, CloseProceeds(s, tab))
  {
    hide FinishClose, SameServer;
    SameServerAs(s, s);
    if tab in s.closes {
      FinishTables(s, tab);
      var entry := s.closes[tab].entry;
      if entry.Some? && entry.value in s.heap && s.heap[entry.value].session.Some? {
        SameServerAs(s, SetClose(s, tab, ClosingSession(s.heap[entry.value].session.value)));
      }
    }
  }

  lemma SameServerAs(s: State, n: State)
    requires n.made == s.made && n.open == s.open && n.abandoned == s.abandoned && n.spared == s.spared
    ensures SameServer(s, n)
  {
  }

  lemma CloseActionLoses(s: State, tab: TabId, a: CloseAction)
    requires Inv(s)
    ensures LosesOnlyUnowned(s, NextClose(s, tab, a))
  {
    hide Inv, LosesOnlyUnowned, CloseTab, CloseProceeds, CloseReturns, StartsOf;
    match a
    case Begins => CloseTabRecord(s, tab); SameLost(s, CloseTab(s, tab));
    case Settles => SameLost(s, CloseSettles(s, tab));
    case Proceeds => ProceedRecord(s, tab); SameLost(s, CloseProceeds(s, tab));
    case CallReturns(gone) => CloseLoses(s, tab, gone);
    case Ends => SameLost(s, CloseFinally(s, tab));
  }

  lemma RestartActionLoses(s: State, tab: TabId, a: RestartAction)
    requires Inv(s)
    ensures LosesOnlyUnowned(s, NextRestart(s, tab, a))
  {
    hide Inv, LosesOnlyUnowned, RestartTab, RestartCloseReturns;
    match a
    case RestartBegins(saved) => RestartLoses(s, tab, saved);
    case RestartCallReturns(ok, gone, saved) => RestartReturnLoses(s, tab, ok, gone, saved);
    case RestartEnds => SameLost(s, RestartFinally(s, tab));
  }

  lemma {:induction false} CloseTabsRecord(s: State, tabs: seq<TabId>)
    ensures SameServer(s, CloseTabs(s, tabs))
  {
    if tabs != [] {
      CloseTabsRecord(s, tabs[..|tabs| - 1]);
      CloseTabRecord(CloseTabs(s, tabs[..|tabs| - 1]), tabs[|tabs| - 1]);
      hide CloseTab;
    }
  }

  lemma ConvLoses(s: State, conv: ConvId, a: ConvAction)
    ensures LosesOnlyUnowned(s, NextConv(s, conv, a))
  {
    hide LosesOnlyUnowned, CloseTabs, ListsTabsOf;
    match a
    case ConvBegins => SameLost(s, CloseConversation(s, conv));
    case ConvRuns(tabs) => CloseTabsRecord(s, tabs); SameLost(s, ConversationRuns(s, conv, tabs));
    case ConvSettles => SameLost(s, ConversationSettles(s, conv));
    case ConvEnds => SameLost(s, ConversationFinally(s, conv));
  }

  lemma CloseAllRecord(s: State)
    ensures SameServer(s, CloseAll(s))
  {
    hide InvalidateAll, SameServer;
    SameServerAs(s, s);
    BumpRecord(s.(tokens := map[]));
    var n := InvalidateAll(s.(tokens := map[]));
    SameServerMoves(s, n, n.(all := AllFirst));
  }

  lemma SameServerMoves(s: State, m: State, n: State)
    requires SameServer(s.(tokens := map[]), m) && n == m.(all := n.all)
    ensures SameServer(s, n)
  {
  }

  lemma BumpRecord(s: State)
    ensures SameServer(s, InvalidateAll(s))
  {
    hide BumpedHeap, BumpedGenerations;
  }

  lemma AllPhasesRecord(s: State)
    ensures SameServer(s, AllSettles(s)) && SameServer(s, AllProceeds(s)) && SameServer(s, AllFinally(s))
  {
    hide SameServer;
    SameServerAs(s, s);
    SameServerAs(s, s.(all := AllSettled));
    SameServerAs(s, s.(all := AllSecond));
    SameServerAs(s, s.(all := AllIdle));
  }

  lemma AllLoses(s: State, a: AllAction)
    requires Inv(s)
    ensures LosesOnlyUnowned(s, NextAll(s, a))
  {
    hide Inv, LosesOnlyUnowned, CloseAll, AllReturns, AllSettles, AllProceeds, AllFinally;
    match a
    case AllBegins => CloseAllRecord(s); SameLost(s, CloseAll(s));
    case AllCallReturns(gone) => AllReturnsLoses(s, gone);
    case _ => AllPhasesRecord(s); SameLost(s, NextAll(s, a));
  }

  lemma NextLoses(s: State, a: Action)
    requires Inv(s)
    ensures LosesOnlyUnowned(s, Next(s, a))
  {
    hide Inv, LosesOnlyUnowned, NextStart, NextClose, NextRestart, NextConv, NextAll;
    match a
    case OfStart(start) => StartLoses(s, start);
    case OfClose(tab, close) => CloseActionLoses(s, tab, close);
    case OfRestart(tab, restart) => RestartActionLoses(s, tab, restart);
    case OfConv(conv, closeConv) => ConvLoses(s, conv, closeConv);
    case OfAll(closeAll) => AllLoses(s, closeAll);
  }

  lemma NextKeepsLost(s: State, a: Action)
    requires Inv(s) && LostUnowned(s)
    ensures LostUnowned(Next(s, a)) && Lost(s) <= Lost(Next(s, a))
  {
    NextLoses(s, a);
    hide Inv, Unowned, Next, Lost;
    forall session | session in Lost(Next(s, a)) ensures Unowned(Next(s, a), session) {
      if session in Lost(s) {
        NextLeavesUnowned(s, a, session);
      }
    }
  }

  lemma {:induction false} RunKeepsLost(s: State, actions: seq<Action>)
    requires Inv(s) && LostUnowned(s)
    ensures LostUnowned(Run(s, actions)) && Lost(s) <= Lost(Run(s, actions))
  {
    hide Inv, LostUnowned, Next, Lost;
    if actions != [] {
      RunKeepsLost(s, actions[..|actions| - 1]);
      RunKeeps(s, actions[..|actions| - 1]);
      NextKeepsLost(Run(s, actions[..|actions| - 1]), actions[|actions| - 1]);
    }
  }

  lemma ReachableLost(actions: seq<Action>)
    ensures var s := Run(INITIAL, actions); Inv(s) && LostUnowned(s)
  {
    InitialHolds();
    assert Lost(INITIAL) == {};
    hide Inv, Run, Lost;
    RunKeeps(INITIAL, actions);
    RunKeepsLost(INITIAL, actions);
  }

  // ---- Exactly which sessions have an owner ----

  lemma UnownedIsNotOwned(s: State, session: SessionId)
    requires Unowned(s, session)
    ensures !OwnedOnce(s, session)
  {
  }

  /** In every reachable state an open session has exactly one owner, a live tab entry
      or a start in flight, exactly when it is not on record as lost: its create did
      not reject after making it, and no close call left it open as its owner went. */
  lemma NoSessionLostOrShared(actions: seq<Action>, session: SessionId)
    requires session in Run(INITIAL, actions).open
    ensures var s := Run(INITIAL, actions); OwnedOnce(s, session) <==> session !in Lost(s)
  {
    ReachableLost(actions);
    hide Inv, Run, OwnedOnce, Lost;
    var s := Run(INITIAL, actions);
    if session in Lost(s) {
      hide Unowned;
      UnownedIsNotOwned(s, session);
    } else {
      OpenMeansOwned(s, session);
    }
  }

  /** Whoever is lost stays lost: no entry and no start ever knows it again. */
  lemma LostForever(before: seq<Action>, after: seq<Action>, session: SessionId)
    requires session in Lost(Run(INITIAL, before))
    ensures var n := Run(Run(INITIAL, before), after); session in Lost(n) && Unowned(n, session)
  {
    ReachableLost(before);
    hide Inv, Run, Unowned, Lost;
    RunKeepsLost(Run(INITIAL, before), after);
  }

  lemma AbandonRecords(s: State, op: Handle, elsewhere: bool)
    requires Inv(s) && op in s.starts && s.starts[op].phase.Creating? && s.starts[op].phase.made.Some?
    ensures var n := CreateFails(s, op, elsewhere);
      n.open == s.open && s.starts[op].phase.made.value in n.abandoned
  {
    AbandonedIsUnowned(s, op);
    RejectKeepsServer(Abandon(s, op), op, elsewhere);
    hide Inv, Abandon, CreateRejects, Unowned;
  }

  /** A create call that rejects once the server has made its session leaves the
      session open, and from then on, in every run, without any owner. */
  lemma RejectedCreateLosesSession(before: seq<Action>, op: Handle, elsewhere: bool, after: seq<Action>)
    requires var s := Run(INITIAL, before);
      op in s.starts && s.starts[op].phase.Creating? && s.starts[op].phase.made.Some?
    ensures var s := Run(INITIAL, before);
      var n := CreateFails(s, op, elsewhere);
      n.open == s.open && Unowned(Run(n, after), s.starts[op].phase.made.value)
  {
    var s, fails := Run(INITIAL, before), OfStart(Fails(op, elsewhere));
    assert Next(s, fails) == CreateFails(s, op, elsewhere);
    ReachableLost(before);
    hide Inv, Run, Next, Unowned, LostUnowned, CreateFails;
    AbandonRecords(s, op, elsewhere);
    NextKeeps(s, fails);
    NextKeepsLost(s, fails);
    RunKeepsLost(Next(s, fails), after);
    LostIsUnowned(Run(Next(s, fails), after), s.starts[op].phase.made.value);
  }

  lemma LostIsUnowned(s: State, session: SessionId)
    requires LostUnowned(s) && session in Lost(s)
    ensures Unowned(s, session)
  {
  }

  // ---- When every close call closes what it was asked to ----

  /** A close call that lets go of its session closed it; the second `closeAll`
      closed every session that still had an owner. */
  predicate Works(s: State, a: Action) {
    match a
    case OfStart(LateCloses(_, gone)) => gone
    case OfClose(_, CallReturns(gone)) => gone
    case OfRestart(_, RestartCallReturns(ok, gone, _)) => ok ==> gone
    case OfAll(AllCallReturns(gone)) => s.all.AllSecond? ==> s.open - Lost(s) <= gone
    case _ => true
  }

  ghost predicate AllWork(actions: seq<Action>) {
    actions != [] ==>
      (var n := |actions| - 1;
       AllWork(actions[..n]) && Works(Run(INITIAL, actions[..n]), actions[n]))
  }

  lemma SpareStart(s: State, a: StartAction)
    requires Works(s, OfStart(a))
    ensures NextStart(s, a).spared == s.spared
  {
    hide Begin, Blocked, RunStart, CreateReturns, FallbackReturns, CreateFails, Event, EndStart;
    match a
    case Opens(tab, conv) => BeginRecord(s, tab, conv, true);
    case Runs(op) => RunRecord(s, op);
    case IsCreated(op, other) =>
    case Returns(op) => ReturnRecord(s, op);
    case Fails(op, elsewhere) => FailSparesNone(s, op, elsewhere);
    case LateCloses(op, gone) => LateSparesNone(s, op);
    case FallbackEnds(op) => RunRecord(s, op);
    case Emits(tab, conv, generation, event) => EventRecord(s, tab, conv, generation, event);
  }

  lemma FailSparesNone(s: State, op: Handle, elsewhere: bool)
    ensures CreateFails(s, op, elsewhere).spared == s.spared
  {
    hide CreateRejects;
    RejectKeepsServer(Abandon(s, op), op, elsewhere);
  }

  lemma LateSparesNone(s: State, op: Handle)
    ensures LateCloseReturns(s, op, true).spared == s.spared
  {
  }

  lemma SpareClose(s: State, tab: TabId, a: CloseAction)
    requires Works(s, OfClose(tab, a))
    ensures NextClose(s, tab, a).spared == s.spared
  {
    hide CloseTab, CloseProceeds, FinishClose, StartsOf;
    match a
    case Begins => CloseTabRecord(s, tab);
    case Settles =>
    case Proceeds => ProceedRecord(s, tab);
    case CallReturns(gone) =>
      if tab in s.closes && s.closes[tab].phase.ClosingSession? {
        FinishTables(Closed(s, s.closes[tab].phase.session, true), tab);
      }
    case Ends =>
  }

  lemma ContinueSparesNone(s: State, tab: TabId, entry: Handle, token: Handle, saved: bool)
    requires entry in s.heap && (s.heap[entry].session.Some? ==> s.heap[entry].session.value !in s.open)
    ensures RestartContinues(s, tab, entry, token, saved).spared == s.spared
  {
    hide Begin, Blocked;
    BeginKeepsServer(Released(s, s.heap[entry].session), tab, s.heap[entry].conv, true);
  }

  lemma SpareRestart(s: State, tab: TabId, a: RestartAction)
    requires Inv(s) && Works(s, OfRestart(tab, a))
    ensures NextRestart(s, tab, a).spared == s.spared
  {
    hide Inv, RestartTab, RestartCloseReturns;
    match a
    case RestartBegins(saved) => BeginsSparesNone(s, tab, saved);
    case RestartCallReturns(ok, gone, saved) => ReturnSparesNone(s, tab, ok, gone, saved);
    case RestartEnds =>
  }

  lemma BeginsSparesNone(s: State, tab: TabId, saved: bool)
    requires Inv(s)
    ensures RestartTab(s, tab, saved).spared == s.spared
  {
    hide Inv, RestartContinues, TakeToken;
    if tab in s.runtime {
      BeginRestartKeeps(s, tab);
      TokenKeepsLost(s, tab);
      if s.heap[s.runtime[tab]].session.None? {
        ContinueSparesNone(TakeToken(s, tab), tab, s.runtime[tab], s.nextHandle, saved);
      }
    }
  }

  lemma ReturnSparesNone(s: State, tab: TabId, ok: bool, gone: bool, saved: bool)
    requires Inv(s) && (ok ==> gone)
    ensures RestartCloseReturns(s, tab, ok, gone, saved).spared == s.spared
  {
    hide Inv, RestartContinues;
    if tab in s.restarts && s.restarts[tab].phase.RestartClosing? && s.restarts[tab].entry in s.heap {
      var op := s.restarts[tab];
      RestartIsSound(s, tab);
      if ok {
        ContinueSparesNone(Shut(s, op.phase.session, gone), tab, op.entry, op.token, saved);
      }
    }
  }

  lemma SpareConv(s: State, conv: ConvId, a: ConvAction)
    ensures NextConv(s, conv, a).spared == s.spared
  {
    hide CloseTabs, ListsTabsOf;
    if a.ConvRuns? {
      CloseTabsRecord(s, a.tabs);
    }
  }

  lemma SpareAll(s: State, a: AllAction)
    requires Works(s, OfAll(a))
    ensures NextAll(s, a).spared == s.spared
  {
    hide CloseAll, AllReturns, AllSettles, AllProceeds, AllFinally;
    match a
    case AllBegins => CloseAllRecord(s);
    case AllCallReturns(gone) => AllSparesNone(s, gone);
    case _ => AllPhasesRecord(s);
  }

  lemma AllSparesNone(s: State, gone: set<SessionId>)
    requires s.all.AllSecond? ==> s.open - Lost(s) <= gone
    ensures AllReturns(s, gone).spared == s.spared
  {
    hide ClearedChannels, LiveChannels;
    if s.all.AllSecond? {
      var m := s.(open := s.open - gone);
      assert m.spared + (m.open - m.abandoned) == s.spared;
      assert AllReturns(s, gone).spared == m.spared + (m.open - m.abandoned);
    }
  }

  lemma SpareNext(s: State, a: Action)
    requires Inv(s) && Works(s, a)
    ensures Next(s, a).spared == s.spared
  {
    hide Inv, Works, NextStart, NextClose, NextRestart, NextConv, NextAll;
    match a
    case OfStart(start) => SpareStart(s, start);
    case OfClose(tab, close) => SpareClose(s, tab, close);
    case OfRestart(tab, restart) => SpareRestart(s, tab, restart);
    case OfConv(conv, closeConv) => SpareConv(s, conv, closeConv);
    case OfAll(closeAll) => SpareAll(s, closeAll);
  }

  lemma {:induction false} NothingSpared(actions: seq<Action>)
    requires AllWork(actions)
    ensures Run(INITIAL, actions).spared == {}
  {
    hide Inv, Next, Works;
    if actions != [] {
      NothingSpared(actions[..|actions| - 1]);
      ReachableLost(actions[..|actions| - 1]);
      SpareNext(Run(INITIAL, actions[..|actions| - 1]), actions[|actions| - 1]);
    }
  }

  /** When the close calls work, an open session has an owner exactly when its create
      call did not reject after the server had made it. */
  lemma OwnedUnlessAbandoned(actions: seq<Action>, session: SessionId)
    requires AllWork(actions) && session in Run(INITIAL, actions).open
    ensures var s := Run(INITIAL, actions); OwnedOnce(s, session) <==> session !in s.abandoned
  {
    NothingSpared(actions);
    NoSessionLostOrShared(actions, session);
    hide Run, OwnedOnce, AllWork;
  }

  lemma DoneMeansUnowned(s: State)
    requires Inv(s) && s.all.AllDone?
    ensures s.runtime == map[] && s.starts == map[] && s.open <= Lost(s)
  {
    forall session | session in s.open && session !in Lost(s) ensures false {
      assert (exists t :: OwnedByTab(s.heap, s.runtime, session, t))
        || (exists op :: OwnedByStart(s.starts, session, op));
    }
  }

  /** When everything has been closed no entry and no start is left. If the close calls
      worked, only sessions of rejected creates are still open: nothing is exactly when
      none of those is. */
  lemma CloseAllLeavesNothingOpen(actions: seq<Action>)
    requires Run(INITIAL, actions).all.AllDone?
    ensures var s := Run(INITIAL, actions);
      && s.runtime == map[] && s.starts == map[] && s.open <= Lost(s)
      && (AllWork(actions) ==> s.open <= s.abandoned && (s.open == {} <==> s.open !! s.abandoned))
  {
    ReachableLost(actions);
    hide Inv, Run, AllWork, LostUnowned;
    DoneMeansUnowned(Run(INITIAL, actions));
    if AllWork(actions) {
      NothingSpared(actions);
    }
  }

  // ---- A run that loses a session ----

  lemma RunSnoc(actions: seq<Action>, a: Action)
    ensures Run(INITIAL, actions + [a]) == Next(Run(INITIAL, actions), a)
    ensures AllWork(actions + [a]) <==> AllWork(actions) && Works(Run(INITIAL, actions), a)
  {
    assert (actions + [a])[..|actions|] == actions;
  }

  /** Nothing is going on but, perhaps, one start of tab 0 and the closing of everything. */
  predicate OneStart(s: State, phase: StartPhase, session: Option<SessionId>) {
    && s.heap == map[0 := Entry(0, 0, None, Starting, 1, 2)] && s.runtime == map[0 := 0]
    && s.starts == map[1 := Start(0, 0, 1, true, phase)]
    && s.closes == map[] && s.convs == map[] && s.all.AllIdle?
    && s.open == s.made == (if session.Some? then {session.value} else {})
    && s.abandoned == {} && s.spared == {}
  }

  predicate OnlyLost(s: State, session: SessionId, all: AllPhase) {
    && s.starts == map[] && s.all == all
    && s.open == {session} && s.abandoned == {session} && s.spared == {}
  }

  lemma TabOpened()
    ensures OneStart(OpenTab(INITIAL, 0, 0), Queued, None)
  {
  }

  lemma StartRan(s: State)
    requires OneStart(s, Queued, None)
    ensures OneStart(RunStart(s, 1), Creating(None), None)
  {
  }

  lemma SessionMade(s: State, session: SessionId)
    requires OneStart(s, Creating(None), None)
    ensures OneStart(ServerCreates(s, 1, session), Creating(Some(session)), Some(session))
  {
  }

  lemma CreateRejected(s: State, session: SessionId)
    requires OneStart(s, Creating(Some(session)), Some(session))
    ensures OnlyLost(CreateFails(s, 1, false), session, AllIdle)
  {
    var m := Abandon(s, 1);
    assert m.starts == map[1 := Start(0, 0, 1, true, Creating(None))];
    assert !Stale(m, m.starts[1]);
    hide Abandon, Stale;
  }

  lemma AllClosing(s: State, session: SessionId)
    requires OnlyLost(s, session, AllIdle)
    ensures OnlyLost(CloseAll(s), session, AllFirst)
  {
    hide BumpedHeap, BumpedGenerations;
  }

  lemma FirstCall(s: State, session: SessionId)
    requires OnlyLost(s, session, AllFirst)
    ensures OnlyLost(AllReturns(s, {}), session, AllSettling)
  {
    assert AllReturns(s, {}) == s.(all := AllSettling, open := s.open - {});
    hide AllReturns;
  }

  lemma SecondCall(s: State, session: SessionId)
    requires OnlyLost(s, session, AllSecond)
    ensures OnlyLost(AllReturns(s, {}), session, AllDone) && Works(s, OfAll(AllCallReturns({})))
  {
    hide ClearedChannels, LiveChannels;
    var m := s.(open := s.open - {});
    assert AllReturns(s, {}) == EndedAll(m);
    assert EndedAll(m).spared == {} && EndedAll(m).starts == map[] && EndedAll(m).all == AllDone;
    hide EndedAll;
  }

  lemma BetweenCalls(s: State, session: SessionId)
    requires OnlyLost(s, session, AllSettling)
    ensures OnlyLost(AllSettles(s), session, AllSettled)
    ensures OnlyLost(AllProceeds(AllSettles(s)), session, AllSecond)
  {
  }

  function Losing(session: SessionId): seq<Action> {
    [OfStart(Opens(0, 0)), OfStart(Runs(1)), OfStart(IsCreated(1, session)), OfStart(Fails(1, false))]
  }

  function Closing(session: SessionId): seq<Action> {
    Losing(session) + [OfAll(AllBegins)] + [OfAll(AllCallReturns({}))] + [OfAll(AllStartsSettle)]
    + [OfAll(AllCallsAgain)] + [OfAll(AllCallReturns({}))]
  }

  lemma LosingRun(session: SessionId)
    ensures AllWork(Losing(session)) && OnlyLost(Run(INITIAL, Losing(session)), session, AllIdle)
  {
    hide Next, OneStart, OnlyLost, Works, AllWork, Run;
    var a, b, c, d := OfStart(Opens(0, 0)), OfStart(Runs(1)), OfStart(IsCreated(1, session)), OfStart(Fails(1, false));
    NothingRan();
    RunSnoc([], a);
    RunSnoc([] + [a], b);
    RunSnoc([] + [a] + [b], c);
    RunSnoc([] + [a] + [b] + [c], d);
    assert Losing(session) == [] + [a] + [b] + [c] + [d];
    TabOpened();
    StepsAre(INITIAL, session);
    StepsAre(Run(INITIAL, [] + [a]), session);
    StartRan(Run(INITIAL, [] + [a]));
    StepsAre(Run(INITIAL, [] + [a] + [b]), session);
    SessionMade(Run(INITIAL, [] + [a] + [b]), session);
    StepsAre(Run(INITIAL, [] + [a] + [b] + [c]), session);
    CreateRejected(Run(INITIAL, [] + [a] + [b] + [c]), session);
  }

  lemma NothingRan()
    ensures Run(INITIAL, []) == INITIAL && AllWork([])
  {
  }

  lemma StepsAre(s: State, session: SessionId)
    ensures Next(s, OfStart(Opens(0, 0))) == OpenTab(s, 0, 0) && Works(s, OfStart(Opens(0, 0)))
    ensures Next(s, OfStart(Runs(1))) == RunStart(s, 1) && Works(s, OfStart(Runs(1)))
    ensures Next(s, OfStart(IsCreated(1, session))) == ServerCreates(s, 1, session)
    ensures Works(s, OfStart(IsCreated(1, session)))
    ensures Next(s, OfStart(Fails(1, false))) == CreateFails(s, 1, false) && Works(s, OfStart(Fails(1, false)))
    ensures Next(s, OfAll(AllBegins)) == CloseAll(s) && Works(s, OfAll(AllBegins))
    ensures Next(s, OfAll(AllCallReturns({}))) == AllReturns(s, {})
    ensures !s.all.AllSecond? ==> Works(s, OfAll(AllCallReturns({})))
    ensures Next(s, OfAll(AllStartsSettle)) == AllSettles(s) && Works(s, OfAll(AllStartsSettle))
    ensures Next(s, OfAll(AllCallsAgain)) == AllProceeds(s) && Works(s, OfAll(AllCallsAgain))
  {
    hide OpenTab, RunStart, ServerCreates, CreateFails, CloseAll, AllReturns, AllSettles, AllProceeds;
  }

  /** A session is lost and stays open although every close call works: its create call
      rejects after the server has made it, and closing everything does not reach it. */
  lemma ClosingMissesLost(session: SessionId)
    ensures AllWork(Closing(session))
    ensures var s := Run(INITIAL, Closing(session)); s.all.AllDone? && s.open == s.abandoned == {session}
  {
    LosingRun(session);
    var l := Losing(session);
    var a, b, c, d := OfAll(AllBegins), OfAll(AllCallReturns({})), OfAll(AllStartsSettle), OfAll(AllCallsAgain);
    RunSnoc(l, a);
    RunSnoc(l + [a], b);
    RunSnoc(l + [a] + [b], c);
    RunSnoc(l + [a] + [b] + [c], d);
    RunSnoc(l + [a] + [b] + [c] + [d], b);
    hide Next, Works, AllWork, Run, Losing, CloseAll, AllReturns, AllSettles, AllProceeds, OnlyLost;
    var s := Run(INITIAL, l);
    StepsAre(s, session);
    AllClosing(s, session);
    var s1 := CloseAll(s);
    StepsAre(s1, session);
    OnlyPhase(s1, session, AllFirst);
    FirstCall(s1, session);
    var s2 := AllReturns(s1, {});
    StepsAre(s2, session);
    BetweenCalls(s2, session);
    StepsAre(AllSettles(s2), session);
    var s4 := AllProceeds(AllSettles(s2));
    StepsAre(s4, session);
    SecondCall(s4, session);
    OnlyPhase(AllReturns(s4, {}), session, AllDone);
  }

  lemma OnlyPhase(s: State, session: SessionId, all: AllPhase)
    requires OnlyLost(s, session, all)
    ensures s.all == all && s.open == s.abandoned == {session}
  {
  }
}
