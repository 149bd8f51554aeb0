/**
 What the terminal runtime does, told from the actions: the operations each output
 channel gets, what each tab shows, and how an undisturbed operation ends.
 */
module TerminalTrace {
  import opened Prelude
  import opened TerminalState
  import opened TerminalSafety
  import OutputChannel

  /** Nothing that concerns the tab is being closed. */
  predicate Undisturbed(s: State, tab: TabId, conv: ConvId) {
    s.all == AllIdle && tab !in s.closes.Keys && conv !in s.convs.Keys
  }

  predicate Live(s: State, tab: TabId, generation: nat) {
    tab in s.runtime && s.runtime[tab] in s.heap && s.heap[s.runtime[tab]].generation == generation
  }

  /** The start is still the one its tab waits for. */
  predicate Wanted(s: State, op: Handle) {
    && op in s.starts
    && Undisturbed(s, s.starts[op].tab, s.starts[op].conv)
    && Live(s, s.starts[op].tab, s.starts[op].generation)
  }

  function EntryOf(s: State, tab: TabId): Option<Entry> {
    if tab in s.runtime && s.runtime[tab] in s.heap then Some(s.heap[s.runtime[tab]]) else None
  }

  predicate WritesTo(entry: Option<Entry>, channel: Handle) {
    entry.Some? && entry.value.channel == channel
  }

  /** The entry the closing of a tab captured. */
  function Captured(s: State, tab: TabId): Option<Entry> {
    if tab in s.closes && s.closes[tab].entry.Some? && s.closes[tab].entry.value in s.heap
    then Some(s.heap[s.closes[tab].entry.value]) else None
  }

  /** The closing of the tab is over with this action. */
  predicate EndsClose(s: State, tab: TabId, a: CloseAction) {
    && tab in s.closes
    && match a
       case Proceeds =>
         s.closes[tab].phase == Settled && (Captured(s, tab).Some? ==> Captured(s, tab).value.session == None)
       case CallReturns(_) => s.closes[tab].phase.ClosingSession?
       case _ => false
  }

  predicate LiveChannel(s: State, channel: Handle) {
    exists t :: t in s.runtime && WritesTo(EntryOf(s, t), channel)
  }

  // ---- The operations of an output channel ----

  /** What an action does to a channel: the bytes of an event of the current start of an
      undisturbed tab, the drop before a fallback, the clearing when its entry is closed. */
  function Ops(s: State, a: Action, channel: Handle): seq<OutputChannel.Op> {
    match a
    case OfStart(Emits(tab, conv, generation, Bytes(bytes))) =>
      if Undisturbed(s, tab, conv) && Live(s, tab, generation) && WritesTo(EntryOf(s, tab), channel)
      then [OutputChannel.Output(bytes)] else []
    case OfStart(Fails(op, elsewhere)) =>
      if Wanted(s, op) && s.starts[op].phase.Creating? && s.starts[op].mayFallback && elsewhere
         && WritesTo(EntryOf(s, s.starts[op].tab), channel)
      then [OutputChannel.Drop] else []
    case OfClose(tab, close) =>
      if EndsClose(s, tab, close) && WritesTo(Captured(s, tab), channel) then [OutputChannel.Reset] else []
    case OfAll(AllCallReturns(_)) =>
      if s.all == AllSecond && LiveChannel(s, channel) then [OutputChannel.Reset] else []
    case _ => []
  }

  function Ledger(actions: seq<Action>, channel: Handle): seq<OutputChannel.Op> {
    if actions == [] then []
    else
      var n := |actions| - 1;
      Ledger(actions[..n], channel) + Ops(Run(INITIAL, actions[..n]), actions[n], channel)
  }

  // ---- What a tab shows ----

  /** The live entry after one action. */
  function Shown(s: State, a: Action, tab: TabId): Option<Entry> {
    var e := EntryOf(s, tab);
    match a
    case OfStart(Opens(t, conv)) =>
      if t == tab && tab !in s.runtime && Undisturbed(s, tab, conv)
      then Some(Entry(tab, conv, None, Starting, Generation(s, tab) + 1, s.nextHandle + 2)) else e
    case OfStart(Returns(op)) =>
      if Wanted(s, op) && s.starts[op].tab == tab && s.starts[op].phase.Creating? && s.starts[op].phase.made.Some?
      then
        Some(e.value.(session := s.starts[op].phase.made,
                      status := if e.value.status == Starting then Running else e.value.status))
      else e
    case OfStart(Fails(op, elsewhere)) =>
      if !Wanted(s, op) || s.starts[op].tab != tab || !s.starts[op].phase.Creating? then e
      else if s.starts[op].mayFallback && elsewhere then Some(Restarted(e.value))
      else Some(e.value.(status := Failed))
    case OfStart(Emits(t, conv, generation, event)) =>
      if t != tab || !Undisturbed(s, tab, conv) || !Live(s, tab, generation) then e
      else if event == Exit then Some(e.value.(status := Exited))
      else if event == Fault then Some(e.value.(status := Failed))
      else e
    case OfClose(t, close) =>
      if t != tab then e
      else if EndsClose(s, tab, close) && tab in s.runtime && s.closes[tab].entry == Some(s.runtime[tab]) then None
      else if close == Begins && tab !in s.closes && e.Some? then Some(Outdating(s, e.value))
      else e
    case OfRestart(t, restart) => if t == tab then ShownByRestart(s, tab, restart) else e
    case OfConv(conv, ConvRuns(tabs)) =>
      if conv in s.convs && s.convs[conv] == ConvQueued && ListsTabsOf(s, conv, tabs)
         && tab in tabs && tab !in s.closes && e.Some?
      then Some(Outdating(s, e.value)) else e
    case OfAll(AllBegins) => if s.all == AllIdle && e.Some? then Some(Outdating(s, e.value)) else e
    case OfAll(AllCallReturns(_)) => if s.all == AllSecond then None else e
    case _ => e
  }

  /** The tab's entry is replaced by one that starts anew, on the same channel. */
  function Restarted(e: Entry): Entry {
    Entry(e.tab, e.conv, None, Starting, e.generation + 1, e.channel)
  }

  function Outdating(s: State, e: Entry): Entry {
    e.(generation := Generation(s, e.tab) + 1)
  }

  predicate MayRestart(s: State, tab: TabId, saved: bool) {
    var e := EntryOf(s, tab);
    saved && e.Some? && Undisturbed(s, tab, e.value.conv) && tab !in s.restarts
  }

  /** The restart still has the token of its tab, and its entry is still the tab's. */
  predicate HoldsTab(s: State, tab: TabId) {
    && tab in s.restarts && tab in s.tokens && s.tokens[tab] == s.restarts[tab].token
    && tab in s.runtime && s.runtime[tab] == s.restarts[tab].entry
  }

  function ShownByRestart(s: State, tab: TabId, restart: RestartAction): Option<Entry> {
    var e := EntryOf(s, tab);
    match restart
    case RestartBegins(saved) =>
      if !MayRestart(s, tab, saved) then e
      else if e.value.session == None then Some(Restarted(Outdating(s, e.value)))
      else Some(Outdating(s, e.value))
    case RestartCallReturns(ok, _, saved) =>
      if !HoldsTab(s, tab) || e == None || !s.restarts[tab].phase.RestartClosing? then e
      else if !ok then Some(e.value.(status := Failed))
      else if saved && Undisturbed(s, tab, e.value.conv) then Some(Restarted(e.value))
      else e
    case RestartEnds => e
  }

  // ---- One step ----

  ghost predicate Facts(s: State) {
    && EntriesCurrent(s.heap, s.runtime, s.generations)
    && HandlesFresh(s.heap, s.starts, s.closes, s.closed, s.convs, s.nextHandle)
  }

  lemma InvFacts(s: State)
    requires Inv(s)
    ensures Facts(s)
  {
  }

  predicate SameTabs(s: State, n: State) {
    n.heap == s.heap && n.runtime == s.runtime && n.output == s.output
  }

  lemma SameTabsShow(s: State, n: State, tab: TabId)
    requires SameTabs(s, n)
    ensures EntryOf(n, tab) == EntryOf(s, tab) && n.output == s.output
  {
  }

  lemma BeginShows(s: State, other: TabId, conv: ConvId, mayFallback: bool, tab: TabId)
    requires Facts(s)
    ensures var n := Begin(s, other, conv, mayFallback);
      && n.output == s.output
      && EntryOf(n, tab)
        == if tab != other then EntryOf(s, tab)
           else Some(Entry(tab, conv, None, Starting, Generation(s, tab) + 1,
             ChannelOf(s.heap, s.runtime, tab, s.nextHandle + 2)))
  {
  }

  lemma InvalidateShows(s: State, other: TabId, tab: TabId)
    requires Facts(s)
    ensures var n := Invalidate(s, other); var e := EntryOf(s, tab);
      && n.output == s.output && n.runtime == s.runtime && Facts(n)
      && EntryOf(n, tab) == if tab == other && e.Some? then Some(Outdating(s, e.value)) else e
  {
  }

  lemma UpdateShows(s: State, other: TabId, entry: Entry, tab: TabId)
    requires Facts(s) && other in s.runtime
    ensures EntryOf(s.(heap := s.heap[s.runtime[other] := entry]), tab)
      == if tab == other then Some(entry) else EntryOf(s, tab)
  {
  }

  lemma OpensShows(s: State, other: TabId, conv: ConvId, tab: TabId)
    requires Facts(s)
    ensures var n := OpenTab(s, other, conv);
      EntryOf(n, tab) == Shown(s, OfStart(Opens(other, conv)), tab) && n.output == s.output
  {
    hide Begin;
    BeginShows(s, other, conv, true, tab);
  }

  lemma StepsShow(s: State, op: Handle, phase: StartPhase)
    ensures SameTabs(s, s) && SameTabs(s, EndStart(s, op))
    ensures op in s.starts ==> SameTabs(s, SetStart(s, op, phase))
  {
  }

  lemma RunShows(s: State, op: Handle)
    ensures SameTabs(s, RunStart(s, op)) && SameTabs(s, FallbackReturns(s, op))
  {
    hide Stale, EndStart, SetStart, SameTabs;
    StepsShow(s, op, Creating(None));
  }

  lemma WantedIff(s: State, op: Handle)
    requires op in s.starts
    ensures Wanted(s, op) <==> !Stale(s, s.starts[op])
  {
  }

  lemma ReturnsShows(s: State, op: Handle, tab: TabId)
    requires Facts(s)
    ensures var n := CreateReturns(s, op);
      EntryOf(n, tab) == Shown(s, OfStart(Returns(op)), tab) && n.output == s.output
  {
    hide EndStart, SetStart, EntriesCurrent, HandlesFresh, Undisturbed, Blocked;
    if op in s.starts && s.starts[op].phase.Creating? && s.starts[op].phase.made.Some? {
      WantedIff(s, op);
      var session := s.starts[op].phase.made.value;
      StepsShow(s, op, LateClose(session));
      if !Stale(s, s.starts[op]) {
        var h := s.runtime[s.starts[op].tab];
        UpdateShows(s, s.starts[op].tab, Adopt(s.heap[h], session), tab);
        hide Stale, Wanted;
      }
    }
  }

  lemma EventShows(s: State, other: TabId, conv: ConvId, generation: nat, event: TerminalEvent, tab: TabId)
    requires Facts(s)
    ensures EntryOf(Event(s, other, conv, generation, event), tab)
      == Shown(s, OfStart(Emits(other, conv, generation, event)), tab)
  {
    hide Facts;
    if other in s.runtime && s.runtime[other] in s.heap {
      UpdateShows(s, other, s.heap[s.runtime[other]].(status := Exited), tab);
      UpdateShows(s, other, s.heap[s.runtime[other]].(status := Failed), tab);
    }
  }

  /** A rejected call: its start, if it was creating, is past that. */
  lemma AbandonIs(s: State, op: Handle)
    requires op in s.starts
    ensures var n := Abandon(s, op);
      && SameTabs(s, n) && n.all == s.all && n.closes == s.closes && n.convs == s.convs
      && n.nextHandle == s.nextHandle && n.generations == s.generations
      && op in n.starts
      && n.starts[op].(phase := s.starts[op].phase) == s.starts[op]
      && n.starts[op].phase == (if s.starts[op].phase.Creating? then Creating(None) else s.starts[op].phase)
  {
    if s.starts[op].phase.Creating? && s.starts[op].phase.made.Some? {
      var abandoned := s.abandoned + {s.starts[op].phase.made.value};
      assert Abandon(s, op)
        == s.(abandoned := abandoned, starts := s.starts[op := s.starts[op].(phase := Creating(None))]);
      hide Abandon;
    }
  }

  lemma AbandonFacts(s: State, op: Handle)
    requires Facts(s)
    ensures Facts(Abandon(s, op))
  {
  }

  lemma SameWanted(s: State, n: State, op: Handle)
    requires SameTabs(s, n) && n.all == s.all && n.closes == s.closes && n.convs == s.convs
    requires op in s.starts && op in n.starts && n.starts[op].(phase := s.starts[op].phase) == s.starts[op]
    ensures Wanted(n, op) <==> Wanted(s, op)
  {
  }

  lemma RejectShows(s: State, op: Handle, elsewhere: bool, tab: TabId, channel: Handle)
    requires Facts(s) && (op in s.starts && Wanted(s, op) ==> OfItsTab(s, op))
    ensures var n := CreateRejects(s, op, elsewhere);
      && (op !in s.starts || s.starts[op].phase != Creating(None) ==> n == s)
      && (op in s.starts && s.starts[op].phase == Creating(None) ==>
        && EntryOf(n, tab) == Shown(s, OfStart(Fails(op, elsewhere)), tab)
        && LogOf(n.output, channel) == LogOf(s.output, channel) + Ops(s, OfStart(Fails(op, elsewhere)), channel))
  {
    if op in s.starts && s.starts[op].phase == Creating(None) {
      WantedIff(s, op);
      if !Stale(s, s.starts[op]) && s.starts[op].mayFallback && elsewhere {
        FallBackShows(s, op, tab, channel);
      } else {
        NoDropShows(s, op, elsewhere, tab, channel);
      }
    }
    hide FallBack, Undisturbed, Facts, EndStart, Live, Blocked, Current, EntryOf;
  }

  /** A rejected call that does not fall back. */
  lemma NoDropShows(s: State, op: Handle, elsewhere: bool, tab: TabId, channel: Handle)
    requires Facts(s) && op in s.starts && s.starts[op].phase == Creating(None)
    requires Stale(s, s.starts[op]) || !s.starts[op].mayFallback || !elsewhere
    ensures var n := CreateRejects(s, op, elsewhere);
      && EntryOf(n, tab) == Shown(s, OfStart(Fails(op, elsewhere)), tab)
      && n.output == s.output && Ops(s, OfStart(Fails(op, elsewhere)), channel) == []
      && LogOf(s.output, channel) + [] == LogOf(s.output, channel)
  {
    WantedIff(s, op);
    StepsShow(s, op, Creating(None));
    hide SetStart, Wanted, Stale, FallBack, Facts, LogOf;
    if !Stale(s, s.starts[op]) {
      FailedShows(s, op, tab);
    }
    hide EndStart, EntryOf;
  }

  lemma FailedShows(s: State, op: Handle, tab: TabId)
    requires Facts(s) && op in s.starts && !Stale(s, s.starts[op])
    ensures var t := s.starts[op].tab; var h := s.runtime[t];
      var n := EndStart(s, op).(heap := s.heap[h := s.heap[h].(status := Failed)]);
      && n.output == s.output && EntryOf(s, t).Some?
      && EntryOf(n, tab) == if tab == t then Some(EntryOf(s, t).value.(status := Failed)) else EntryOf(s, tab)
  {
    hide Facts;
    var h := s.runtime[s.starts[op].tab];
    UpdateShows(s, s.starts[op].tab, s.heap[h].(status := Failed), tab);
  }

  /** The tab's entry belongs to the conversation of the start. */
  predicate OfItsTab(s: State, op: Handle)
    requires op in s.starts
  {
    EntryOf(s, s.starts[op].tab).Some? && EntryOf(s, s.starts[op].tab).value.conv == s.starts[op].conv
  }

  lemma FallBackShows(s: State, op: Handle, tab: TabId, channel: Handle)
    requires Facts(s) && op in s.starts && Wanted(s, op) && !Stale(s, s.starts[op]) && OfItsTab(s, op)
    ensures var n := FallBack(s, op); var t := s.starts[op].tab;
      && EntryOf(n, tab) == (if tab == t then Some(Restarted(EntryOf(s, t).value)) else EntryOf(s, tab))
      && LogOf(n.output, channel)
        == LogOf(s.output, channel) + if WritesTo(EntryOf(s, t), channel) then [OutputChannel.Drop] else []
  {
    var start := s.starts[op];
    var d := DropKept(s, start.tab);
    assert Facts(d) && EntryOf(d, tab) == EntryOf(s, tab);
    BeginShows(d, start.tab, start.conv, false, tab);
    BeginShows(d, start.tab, start.conv, false, start.tab);
    hide Begin, Stale;
  }

  /** The action moves the tab's entry and the channel's log as told. */
  ghost predicate Told(s: State, a: Action, n: State, tab: TabId, channel: Handle) {
    && EntryOf(n, tab) == Shown(s, a, tab)
    && LogOf(n.output, channel) == LogOf(s.output, channel) + Ops(s, a, channel)
  }

  lemma NothingTold(s: State, a: Action, n: State, tab: TabId, channel: Handle)
    requires EntryOf(n, tab) == EntryOf(s, tab) == Shown(s, a, tab)
    requires n.output == s.output && Ops(s, a, channel) == []
    ensures Told(s, a, n, tab, channel)
  {
    assert LogOf(s.output, channel) + [] == LogOf(s.output, channel);
  }

  lemma FailsTold(s: State, op: Handle, elsewhere: bool, tab: TabId, channel: Handle)
    requires Facts(s) && (op in s.starts && Wanted(s, op) ==> OfItsTab(s, op))
    ensures Told(s, OfStart(Fails(op, elsewhere)), CreateFails(s, op, elsewhere), tab, channel)
  {
    hide Abandon, CreateRejects, Undisturbed, Live, Facts;
    var a := OfStart(Fails(op, elsewhere));
    if op in s.starts {
      var m := Abandon(s, op);
      AbandonIs(s, op);
      AbandonFacts(s, op);
      SameWanted(s, m, op);
      SameTabsShow(s, m, tab);
      SameTabsShow(s, m, s.starts[op].tab);
      RejectShows(m, op, elsewhere, tab, channel);
      hide Wanted;
      if !s.starts[op].phase.Creating? {
        assert m.starts[op].phase != Creating(None);
        assert CreateFails(s, op, elsewhere) == m;
        NothingTold(s, a, m, tab, channel);
      }
    } else {
      NoStartFails(s, op, elsewhere);
      NothingTold(s, a, s, tab, channel);
    }
  }

  lemma NoStartFails(s: State, op: Handle, elsewhere: bool)
    requires op !in s.starts
    ensures CreateFails(s, op, elsewhere) == s
  {
  }

  lemma EmitsTold(s: State, other: TabId, conv: ConvId, generation: nat, event: TerminalEvent,
      tab: TabId, channel: Handle)
    requires Facts(s)
    ensures Told(s, OfStart(Emits(other, conv, generation, event)), Event(s, other, conv, generation, event),
      tab, channel)
  {
    EventShows(s, other, conv, generation, event, tab);
    hide Shown, Facts;
    assert LogOf(s.output, channel) + [] == LogOf(s.output, channel);
  }

  lemma LateShows(s: State, op: Handle, gone: bool)
    ensures SameTabs(s, LateCloseReturns(s, op, gone))
  {
    hide EndStart;
    if op in s.starts && s.starts[op].phase.LateClose? {
      StepsShow(Closed(s, s.starts[op].phase.late, gone), op, Queued);
    }
  }

  lemma StartTold(s: State, a: StartAction, tab: TabId, channel: Handle)
    requires Inv(s)
    ensures Told(s, OfStart(a), NextStart(s, a), tab, channel)
  {
    InvFacts(s);
    if a.Fails? && a.op in s.starts {
      StartIsTracked(s, a.op);
    }
    hide Inv, Facts, Told, Wanted, Undisturbed, Live, SameTabs, EntryOf, Shown, Ops;
    hide OpenTab, RunStart, ServerCreates, CreateReturns, CreateFails, LateCloseReturns, FallbackReturns, Event;
    match a
    case Opens(_, _) => GivesTold(s, a, tab, channel);
    case Returns(_) => GivesTold(s, a, tab, channel);
    case Fails(op, elsewhere) => FailsTold(s, op, elsewhere, tab, channel);
    case Emits(other, conv, generation, event) => EmitsTold(s, other, conv, generation, event, tab, channel);
    case _ => QuietTold(s, a, tab, channel);
  }

  /** The actions that give a tab an entry or a session. */
  lemma GivesTold(s: State, a: StartAction, tab: TabId, channel: Handle)
    requires Facts(s) && (a.Opens? || a.Returns?)
    ensures Told(s, OfStart(a), NextStart(s, a), tab, channel)
  {
    hide Facts, Told, Shown, EntryOf, OpenTab, CreateReturns;
    if a.Opens? {
      OpensShows(s, a.tab, a.conv, tab);
    } else {
      ReturnsShows(s, a.op, tab);
    }
    SameLogTold(s, OfStart(a), NextStart(s, a), tab, channel);
  }

  /** The steps of a start that no tab shows and no channel hears. */
  lemma QuietTold(s: State, a: StartAction, tab: TabId, channel: Handle)
    requires a.Runs? || a.IsCreated? || a.LateCloses? || a.FallbackEnds?
    ensures Told(s, OfStart(a), NextStart(s, a), tab, channel)
  {
    hide Told, SameTabs, EntryOf, RunStart, ServerCreates, LateCloseReturns, FallbackReturns;
    match a {
      case Runs(op) => RunShows(s, op);
      case IsCreated(op, other) => MadeShows(s, op, other);
      case LateCloses(op, gone) => LateShows(s, op, gone);
      case FallbackEnds(op) => RunShows(s, op);
    }
    SameTold(s, OfStart(a), NextStart(s, a), tab, channel);
  }

  lemma MadeShows(s: State, op: Handle, session: SessionId)
    ensures SameTabs(s, ServerCreates(s, op, session))
  {
  }

  lemma SameLogTold(s: State, a: Action, n: State, tab: TabId, channel: Handle)
    requires EntryOf(n, tab) == Shown(s, a, tab) && n.output == s.output && Ops(s, a, channel) == []
    ensures Told(s, a, n, tab, channel)
  {
    assert LogOf(s.output, channel) + [] == LogOf(s.output, channel);
  }

  lemma SameTold(s: State, a: Action, n: State, tab: TabId, channel: Handle)
    requires SameTabs(s, n) && Ops(s, a, channel) == [] && Shown(s, a, tab) == EntryOf(s, tab)
    ensures Told(s, a, n, tab, channel)
  {
    SameTabsShow(s, n, tab);
    SameLogTold(s, a, n, tab, channel);
  }

  // ---- Closing and restarting ----

  lemma CloseTabShows(s: State, other: TabId, tab: TabId)
    requires Facts(s)
    ensures var n := CloseTab(s, other);
      && n.output == s.output
      && EntryOf(n, tab) == Shown(s, OfClose(other, Begins), tab)
  {
    hide Invalidate;
    InvalidateShows(s.(tokens := s.tokens - {other}), other, tab);
    hide Facts;
  }

  lemma FinishShows(s: State, other: TabId, tab: TabId, channel: Handle)
    requires other in s.closes
    ensures var n := FinishClose(s, other);
      && EntryOf(n, tab)
        == (if tab == other && tab in s.runtime && s.closes[tab].entry == Some(s.runtime[tab]) then None
            else EntryOf(s, tab))
      && LogOf(n.output, channel)
        == LogOf(s.output, channel) + if WritesTo(Captured(s, other), channel) then [OutputChannel.Reset] else []
  {
    assert LogOf(s.output, channel) + [] == LogOf(s.output, channel);
  }

  lemma ClosedShows(s: State, session: SessionId, gone: bool)
    ensures SameTabs(s, Closed(s, session, gone)) && Closed(s, session, gone).closes == s.closes
  {
  }

  lemma ClosePhasesShow(s: State, tab: TabId)
    ensures SameTabs(s, CloseSettles(s, tab)) && SameTabs(s, CloseFinally(s, tab))
  {
    hide StartsOf, SameTabs;
    OnlyClosesShow(s, s.closes);
    OnlyClosesShow(s, s.closes - {tab});
    if tab in s.closes {
      OnlyClosesShow(s, s.closes[tab := s.closes[tab].(phase := Settled)]);
    }
  }

  lemma OnlyClosesShow(s: State, closes: Closes)
    ensures SameTabs(s, s) && SameTabs(s, s.(closes := closes))
  {
  }

  lemma CloseTold(s: State, other: TabId, a: CloseAction, tab: TabId, channel: Handle)
    requires Inv(s)
    ensures Told(s, OfClose(other, a), NextClose(s, other, a), tab, channel)
  {
    InvFacts(s);
    hide Inv, Facts, Told, CloseTab, CloseSettles, CloseFinally, CloseProceeds, CloseReturns, SameTabs;
    var n := NextClose(s, other, a);
    ClosePhasesShow(s, other);
    match a
    case Begins => CloseTabShows(s, other, tab); SameLogTold(s, OfClose(other, a), n, tab, channel);
    case Settles => SameTold(s, OfClose(other, a), n, tab, channel);
    case Proceeds => ProceedsTold(s, other, tab, channel);
    case CallReturns(gone) => CallReturnsTold(s, other, gone, tab, channel);
    case Ends => SameTold(s, OfClose(other, a), n, tab, channel);
  }

  lemma ProceedsTold(s: State, other: TabId, tab: TabId, channel: Handle)
    requires Inv(s)
    ensures Told(s, OfClose(other, Proceeds), CloseProceeds(s, other), tab, channel)
  {
    hide Inv, FinishClose, Told, WritesTo;
    var a := OfClose(other, Proceeds);
    if other in s.closes && s.closes[other].phase.Settled? {
      var entry := s.closes[other].entry;
      if entry.Some? && entry.value in s.heap && s.heap[entry.value].session.Some? {
        SameTold(s, a, SetClose(s, other, ClosingSession(s.heap[entry.value].session.value)), tab, channel);
      } else {
        FinishShows(s, other, tab, channel);
        FinishTold(s, a, other, tab, channel);
      }
    } else {
      SameTold(s, a, s, tab, channel);
    }
  }

  lemma FinishTold(s: State, a: Action, other: TabId, tab: TabId, channel: Handle)
    requires other in s.closes && a.OfClose? && a.tab == other && EndsClose(s, other, a.close)
    ensures Told(s, a, FinishClose(s, other), tab, channel)
  {
    hide FinishClose;
    FinishShows(s, other, tab, channel);
  }

  lemma CallReturnsTold(s: State, other: TabId, gone: bool, tab: TabId, channel: Handle)
    ensures Told(s, OfClose(other, CallReturns(gone)), CloseReturns(s, other, gone), tab, channel)
  {
    hide FinishClose, Closed;
    assert LogOf(s.output, channel) + [] == LogOf(s.output, channel);
    if other in s.closes && s.closes[other].phase.ClosingSession? {
      var m := Closed(s, s.closes[other].phase.session, gone);
      ClosedShows(s, s.closes[other].phase.session, gone);
      FinishShows(m, other, tab, channel);
    }
  }

  lemma TokenShows(s: State, other: TabId, tab: TabId)
    requires Facts(s) && other in s.runtime
    ensures var n := TakeToken(s, other); var e := EntryOf(s, tab);
      && n.output == s.output && n.runtime == s.runtime && Facts(n)
      && n.all == s.all && n.closes == s.closes && n.convs == s.convs
      && n.tokens == s.tokens[other := s.nextHandle] && n.restarts == s.restarts
      && EntryOf(n, tab) == if tab == other && e.Some? then Some(Outdating(s, e.value)) else e
  {
    InvalidateShows(s, other, tab);
  }

  lemma ContinueShows(s: State, other: TabId, entry: Handle, token: Handle, saved: bool, tab: TabId)
    requires Facts(s) && entry in s.heap && s.heap[entry].tab == other
    ensures var n := RestartContinues(s, other, entry, token, saved);
      && n.output == s.output
      && EntryOf(n, tab)
        == if tab == other && other in s.runtime && s.runtime[other] == entry && saved
              && other in s.tokens && s.tokens[other] == token && Undisturbed(s, other, s.heap[entry].conv)
           then Some(Restarted(s.heap[entry])) else EntryOf(s, tab)
  {
    hide Begin, EntriesCurrent;
    var m := Released(s, s.heap[entry].session);
    assert Facts(m) && EntryOf(m, tab) == EntryOf(s, tab);
    BeginShows(m, other, s.heap[entry].conv, true, tab);
    if other in s.runtime && s.runtime[other] == entry {
      CurrentGeneration(s, other);
    }
    hide Facts, Blocked, Undisturbed;
    UndisturbedIff(s, other, s.heap[entry].conv);
  }

  lemma UndisturbedIff(s: State, tab: TabId, conv: ConvId)
    ensures Undisturbed(s, tab, conv) <==> !Blocked(s, tab, conv)
  {
  }

  lemma CurrentGeneration(s: State, tab: TabId)
    requires Facts(s) && tab in s.runtime
    ensures s.runtime[tab] in s.heap && s.heap[s.runtime[tab]].generation == Generation(s, tab)
    ensures s.heap[s.runtime[tab]].tab == tab
  {
  }

  lemma RestartsShow(s: State, other: TabId, saved: bool, tab: TabId)
    requires Facts(s)
    ensures var n := RestartTab(s, other, saved);
      n.output == s.output && EntryOf(n, tab) == Shown(s, OfRestart(other, RestartBegins(saved)), tab)
  {
    hide Facts, RestartContinues, TakeToken;
    if other in s.runtime {
      CurrentGeneration(s, other);
      UndisturbedIff(s, other, s.heap[s.runtime[other]].conv);
      TokenShows(s, other, tab);
      TokenShows(s, other, other);
      ContinueShows(TakeToken(s, other), other, s.runtime[other], s.nextHandle, saved, tab);
    }
  }

  lemma RestartReturnShows(s: State, other: TabId, ok: bool, gone: bool, saved: bool, tab: TabId)
    requires Inv(s)
    ensures var n := RestartCloseReturns(s, other, ok, gone, saved);
      n.output == s.output && EntryOf(n, tab) == Shown(s, OfRestart(other, RestartCallReturns(ok, gone, saved)), tab)
  {
    InvFacts(s);
    hide Inv, Facts, RestartContinues, Undisturbed, EntryOf, HoldsTab;
    if other in s.restarts && s.restarts[other].phase.RestartClosing? {
      RestartIsSound(s, other);
      if ok {
        GoingOnShows(s, other, gone, saved, tab);
      } else {
        GivingUpShows(s, other, gone, saved, tab);
      }
    } else {
      NoRestartHolds(s, other);
    }
  }

  lemma NoRestartHolds(s: State, tab: TabId)
    ensures tab !in s.restarts ==> !HoldsTab(s, tab)
  {
  }

  lemma GoingOnShows(s: State, other: TabId, gone: bool, saved: bool, tab: TabId)
    requires Facts(s) && other in s.restarts && s.restarts[other].phase.RestartClosing?
    requires s.restarts[other].entry in s.heap && s.heap[s.restarts[other].entry].tab == other
    ensures var n := RestartCloseReturns(s, other, true, gone, saved);
      n.output == s.output && EntryOf(n, tab) == Shown(s, OfRestart(other, RestartCallReturns(true, gone, saved)), tab)
  {
    var op := s.restarts[other];
    var m := Shut(s, op.phase.session, gone);
    ShutFacts(s, op.phase.session, gone);
    GoesOn(s, other, gone, saved);
    hide Facts, RestartContinues, RestartCloseReturns, Shut, Undisturbed, Restarted;
    SameTabsShow(s, m, tab);
    ContinueShows(m, other, op.entry, op.token, saved, tab);
    SameUndisturbed(s, m, other, s.heap[op.entry].conv);
    hide EntryOf;
    HoldsIts(s, other);
    hide SameTabs, HoldsTab;
  }

  lemma HoldsIts(s: State, tab: TabId)
    requires tab in s.restarts && s.restarts[tab].entry in s.heap
    ensures HoldsTab(s, tab) <==>
      tab in s.runtime && s.runtime[tab] == s.restarts[tab].entry
        && tab in s.tokens && s.tokens[tab] == s.restarts[tab].token
    ensures HoldsTab(s, tab) ==> EntryOf(s, tab) == Some(s.heap[s.restarts[tab].entry])
  {
  }

  lemma GoesOn(s: State, tab: TabId, gone: bool, saved: bool)
    requires tab in s.restarts && s.restarts[tab].phase.RestartClosing? && s.restarts[tab].entry in s.heap
    ensures var op := s.restarts[tab]; var m := Shut(s, op.phase.session, gone);
      && op.entry in m.heap
      && RestartCloseReturns(s, tab, true, gone, saved) == RestartContinues(m, tab, op.entry, op.token, saved)
      && m.all == s.all && m.closes == s.closes && m.convs == s.convs && m.tokens == s.tokens
  {
    hide RestartContinues;
  }

  lemma GivingUpShows(s: State, other: TabId, gone: bool, saved: bool, tab: TabId)
    requires Facts(s) && other in s.restarts && s.restarts[other].phase.RestartClosing?
    requires s.restarts[other].entry in s.heap
    ensures var n := RestartCloseReturns(s, other, false, gone, saved);
      n.output == s.output && EntryOf(n, tab) == Shown(s, OfRestart(other, RestartCallReturns(false, gone, saved)), tab)
  {
    var op := s.restarts[other];
    hide EntriesCurrent, HandlesFresh;
    var n, m := RestartCloseReturns(s, other, false, gone, saved), GivenUp(s, other, gone);
    GivesUp(s, other, gone, saved);
    hide RestartCloseReturns, GivenUp;
    SameTabsShow(s, m, tab);
    if HoldsTab(s, other) {
      UpdateShows(m, other, s.heap[op.entry].(status := Failed), tab);
    }
    hide Facts, SameTabs;
  }

  function GivenUp(s: State, tab: TabId, gone: bool): State
    requires tab in s.restarts && s.restarts[tab].phase.RestartClosing?
  {
    Shut(s, s.restarts[tab].phase.session, gone).(
      restarts := s.restarts[tab := s.restarts[tab].(phase := RestartDone)])
  }

  lemma GivesUp(s: State, tab: TabId, gone: bool, saved: bool)
    requires Facts(s) && tab in s.restarts && s.restarts[tab].phase.RestartClosing?
    requires s.restarts[tab].entry in s.heap
    ensures var m := GivenUp(s, tab, gone); var entry := s.restarts[tab].entry;
      && Facts(m) && SameTabs(s, m)
      && RestartCloseReturns(s, tab, false, gone, saved)
        == if HoldsTab(s, tab) then m.(heap := s.heap[entry := s.heap[entry].(status := Failed)]) else m
  {
    hide EntriesCurrent, HandlesFresh;
  }

  lemma SameUndisturbed(s: State, n: State, tab: TabId, conv: ConvId)
    requires n.all == s.all && n.closes == s.closes && n.convs == s.convs
    ensures Undisturbed(n, tab, conv) <==> Undisturbed(s, tab, conv)
  {
  }

  lemma ShutFacts(s: State, session: SessionId, gone: bool)
    requires Facts(s)
    ensures Facts(Shut(s, session, gone)) && SameTabs(s, Shut(s, session, gone))
  {
  }

  lemma RestartTold(s: State, other: TabId, a: RestartAction, tab: TabId, channel: Handle)
    requires Inv(s)
    ensures Told(s, OfRestart(other, a), NextRestart(s, other, a), tab, channel)
  {
    InvFacts(s);
    hide Inv, Facts, Told, RestartTab, RestartCloseReturns;
    var n := NextRestart(s, other, a);
    match a
    case RestartBegins(saved) =>
      RestartsShow(s, other, saved, tab);
      SameLogTold(s, OfRestart(other, a), n, tab, channel);
    case RestartCallReturns(ok, gone, saved) =>
      RestartReturnShows(s, other, ok, gone, saved, tab);
      SameLogTold(s, OfRestart(other, a), n, tab, channel);
    case RestartEnds => SameTold(s, OfRestart(other, a), n, tab, channel);
  }

  lemma CloseTabStep(s: State, last: TabId, tab: TabId)
    requires Facts(s)
    ensures var n := CloseTab(s, last); var e := EntryOf(s, tab);
      && n.output == s.output
      && EntryOf(n, tab) == (if tab == last && last !in s.closes && e.Some? then Some(Outdating(s, e.value)) else e)
      && n.closes.Keys == s.closes.Keys + {last}
      && Generation(n, tab) == Generation(s, tab) + if tab == last && last !in s.closes then 1 else 0
  {
    CloseTabShows(s, last, tab);
    CloseTabShape(s, last);
    BumpsGrow(s.(tokens := s.tokens - {last}), last, 0, false, tab);
    hide Invalidate, Facts, EntryOf;
  }

  /** Closing several tabs outdates each of them once. */
  predicate Outdates(s: State, n: State, closing: set<TabId>, tab: TabId) {
    var e := EntryOf(s, tab);
    && n.output == s.output
    && n.closes.Keys == s.closes.Keys + closing
    && EntryOf(n, tab) == (if tab in closing && tab !in s.closes && e.Some? then Some(Outdating(s, e.value)) else e)
    && Generation(n, tab) == Generation(s, tab) + if tab in closing && tab !in s.closes then 1 else 0
  }

  lemma OutdatesOneMore(s: State, m: State, closing: set<TabId>, last: TabId, tab: TabId)
    requires Facts(s) && Facts(m) && Outdates(s, m, closing, tab)
    ensures Outdates(s, CloseTab(m, last), closing + {last}, tab)
  {
    CloseTabStep(m, last, tab);
    EntryIsItsTab(s, tab);
    hide *;
    OutdatingChains(s, m, CloseTab(m, last), closing, last, tab);
  }

  lemma OutdatingChains(s: State, m: State, n: State, closing: set<TabId>, last: TabId, tab: TabId)
    requires Outdates(s, m, closing, tab) && n.output == m.output && n.closes.Keys == m.closes.Keys + {last}
    requires EntryOf(s, tab).Some? ==> EntryOf(s, tab).value.tab == tab
    requires var e := EntryOf(m, tab);
      EntryOf(n, tab) == if tab == last && last !in m.closes && e.Some? then Some(Outdating(m, e.value)) else e
    requires Generation(n, tab) == Generation(m, tab) + if tab == last && last !in m.closes then 1 else 0
    ensures Outdates(s, n, closing + {last}, tab)
  {
    hide EntryOf, Generation;
    assert last in m.closes <==> last in m.closes.Keys;
    assert tab in s.closes <==> tab in s.closes.Keys;
    if tab == last && last !in m.closes {
      assert tab !in closing && EntryOf(m, tab) == EntryOf(s, tab);
    }
  }

  lemma EntryIsItsTab(s: State, tab: TabId)
    requires Facts(s)
    ensures EntryOf(s, tab).Some? ==> EntryOf(s, tab).value.tab == tab
  {
  }

  lemma {:induction false} CloseTabsShow(s: State, tabs: seq<TabId>, tab: TabId)
    requires Inv(s)
    ensures Outdates(s, CloseTabs(s, tabs), Elements(tabs), tab)
  {
    if tabs != [] {
      var front, last := tabs[..|tabs| - 1], tabs[|tabs| - 1];
      assert tabs == front + [last];
      assert Elements(tabs) == Elements(front) + {last};
      CloseTabsShow(s, front, tab);
      CloseTabsKeeps(s, front);
      InvFacts(CloseTabs(s, front));
      InvFacts(s);
      hide Inv, Facts, CloseTab, Outdates;
      OutdatesOneMore(s, CloseTabs(s, front), Elements(front), last, tab);
    }
  }

  lemma ConvTold(s: State, conv: ConvId, a: ConvAction, tab: TabId, channel: Handle)
    requires Inv(s)
    ensures Told(s, OfConv(conv, a), NextConv(s, conv, a), tab, channel)
  {
    hide Inv, Told, CloseTabs, ListsTabsOf;
    var n := NextConv(s, conv, a);
    match a
    case ConvBegins => SameTold(s, OfConv(conv, a), n, tab, channel);
    case ConvRuns(tabs) => CloseTabsShow(s, tabs, tab); SameLogTold(s, OfConv(conv, a), n, tab, channel);
    case ConvSettles => SameTold(s, OfConv(conv, a), n, tab, channel);
    case ConvEnds => SameTold(s, OfConv(conv, a), n, tab, channel);
  }

  lemma BumpedShows(s: State, tab: TabId)
    requires Facts(s)
    ensures var n := InvalidateAll(s); var e := EntryOf(s, tab);
      && n.output == s.output && n.all == s.all
      && EntryOf(n, tab) == if e.Some? then Some(Outdating(s, e.value)) else e
  {
    hide BumpedGenerations;
    if tab in s.runtime {
      CurrentGeneration(s, tab);
    }
  }

  lemma ClosesAllShows(s: State, tab: TabId)
    requires Facts(s)
    ensures var n := CloseAll(s);
      n.output == s.output && EntryOf(n, tab) == Shown(s, OfAll(AllBegins), tab)
  {
    hide InvalidateAll;
    BumpedShows(s.(tokens := map[]), tab);
    hide Facts;
  }

  lemma ClearedLog(output: Logs, channels: set<Handle>, channel: Handle)
    ensures LogOf(ClearedChannels(output, channels), channel)
      == LogOf(output, channel) + if channel in channels then [OutputChannel.Reset] else []
  {
    assert LogOf(output, channel) + [] == LogOf(output, channel);
  }

  lemma LiveChannelIff(s: State, channel: Handle)
    ensures channel in LiveChannels(s.heap, s.runtime) <==> LiveChannel(s, channel)
  {
  }

  lemma AllReturnsTold(s: State, gone: set<SessionId>, tab: TabId, channel: Handle)
    ensures Told(s, OfAll(AllCallReturns(gone)), AllReturns(s, gone), tab, channel)
  {
    hide ClearedChannels, LiveChannels, LiveChannel, Told;
    ClearedLog(s.output, LiveChannels(s.heap, s.runtime), channel);
    LiveChannelIff(s, channel);
    var a := OfAll(AllCallReturns(gone));
    if s.all.AllFirst? {
      SameTold(s, a, s.(all := AllSettling, open := s.open - gone), tab, channel);
    } else if s.all.AllSecond? {
      EndedTold(s, a, s.(open := s.open - gone), tab, channel);
    } else {
      SameTold(s, a, s, tab, channel);
    }
  }

  lemma EndedTold(s: State, a: Action, m: State, tab: TabId, channel: Handle)
    requires m.heap == s.heap && m.runtime == s.runtime && m.output == s.output && s.all.AllSecond?
    requires a.OfAll? && a.closeAll.AllCallReturns?
    ensures Told(s, a, EndedAll(m), tab, channel)
  {
    hide ClearedChannels, LiveChannels, LiveChannel;
    ClearedLog(s.output, LiveChannels(s.heap, s.runtime), channel);
    LiveChannelIff(s, channel);
    var n := EndedAll(m);
    assert n.runtime == map[] && n.output == ClearedChannels(s.output, LiveChannels(s.heap, s.runtime));
    hide EndedAll;
  }

  lemma AllTold(s: State, a: AllAction, tab: TabId, channel: Handle)
    requires Inv(s)
    ensures Told(s, OfAll(a), NextAll(s, a), tab, channel)
  {
    InvFacts(s);
    hide Inv, Facts, Told, CloseAll, AllReturns, AllSettles, AllProceeds, AllFinally, SameTabs;
    var n := NextAll(s, a);
    match a
    case AllBegins => ClosesAllShows(s, tab); SameLogTold(s, OfAll(a), n, tab, channel);
    case AllCallReturns(gone) => AllReturnsTold(s, gone, tab, channel);
    case _ => PhasesShow(s); SameTold(s, OfAll(a), n, tab, channel);
  }

  lemma PhasesShow(s: State)
    ensures SameTabs(s, AllSettles(s)) && SameTabs(s, AllProceeds(s)) && SameTabs(s, AllFinally(s))
  {
    hide SameTabs;
    OnlyPhaseShows(s, AllSettled);
    OnlyPhaseShows(s, AllSecond);
    OnlyPhaseShows(s, AllIdle);
  }

  lemma OnlyPhaseShows(s: State, all: AllPhase)
    ensures SameTabs(s, s) && SameTabs(s, s.(all := all))
  {
  }

  lemma NextTold(s: State, a: Action, tab: TabId, channel: Handle)
    requires Inv(s)
    ensures Told(s, a, Next(s, a), tab, channel)
  {
    hide Inv, Told, NextStart, NextClose, NextRestart, NextConv, NextAll;
    match a
    case OfStart(start) => StartTold(s, start, tab, channel);
    case OfClose(other, close) => CloseTold(s, other, close, tab, channel);
    case OfRestart(other, restart) => RestartTold(s, other, restart, tab, channel);
    case OfConv(conv, closeConv) => ConvTold(s, conv, closeConv, tab, channel);
    case OfAll(closeAll) => AllTold(s, closeAll, tab, channel);
  }

  // ---- Over runs ----

  /** In every reachable state each action moves what a tab shows, session, status,
      generation and channel, exactly as told. */
  lemma TabShowsWhatIsTold(actions: seq<Action>, a: Action, tab: TabId)
    ensures EntryOf(Run(INITIAL, actions + [a]), tab) == Shown(Run(INITIAL, actions), a, tab)
  {
    InitialHolds();
    assert (actions + [a])[..|actions|] == actions;
    RunKeeps(INITIAL, actions);
    NextTold(Run(INITIAL, actions), a, tab, 0);
    hide Inv, Next, Shown;
  }

  /** Over every run a channel gets exactly the operations of its ledger, in order: the
      bytes of those events that came from the current start of an undisturbed tab,
      the drops of fallbacks, the clearings of closings. */
  lemma {:induction false} ChannelGetsItsLedger(actions: seq<Action>, channel: Handle)
    ensures LogOf(Run(INITIAL, actions).output, channel) == Ledger(actions, channel)
  {
    if actions != [] {
      var front := actions[..|actions| - 1];
      ChannelGetsItsLedger(front, channel);
      InitialHolds();
      hide Inv, Next, Ops;
      RunKeeps(INITIAL, front);
      NextTold(Run(INITIAL, front), actions[|actions| - 1], 0, channel);
    }
  }

  lemma {:induction false} LedgerExtends(before: seq<Action>, after: seq<Action>, channel: Handle)
    ensures Ledger(before, channel) <= Ledger(before + after, channel)
    ensures forall op <- Ledger(before, channel) :: !op.Join? && !op.Leave?
    decreases |before| + |after|
  {
    hide Run, Undisturbed, Live, EntryOf, Wanted;
    if after != [] {
      var front := after[..|after| - 1];
      assert (before + after)[..|before + after| - 1] == before + front;
      LedgerExtends(before, front, channel);
    } else if before != [] {
      assert before + after == before;
      LedgerExtends(before[..|before| - 1], [], channel);
      assert before[..|before| - 1] + [] == before[..|before| - 1];
    } else {
      assert before + after == before;
    }
  }

  /** A terminal view that subscribes after some run hears the last 256 KiB its channel
      got since the last fallback, and then, while the channel is open, exactly the
      bytes of the events that reach it, in order. */
  lemma ViewHearsItsTab(before: seq<Action>, after: seq<Action>, channel: Handle, listener: OutputChannel.Listener)
    requires var l, all := Ledger(before, channel), Ledger(before + after, channel);
      forall i :: |l| <= i < |all| ==> all[i] != OutputChannel.Reset
    ensures var l := Ledger(before, channel);
      && l <= Ledger(before + after, channel)
      && var more := Ledger(before + after, channel)[|l|..];
      var v := OutputChannel.Steps(OutputChannel.FRESH, l);
      OutputChannel.Heard(OutputChannel.Steps(OutputChannel.Step(v, OutputChannel.Join(listener)), more), listener)
        == (if OutputChannel.Reset in l then []
            else OutputChannel.Suffix(OutputChannel.SinceDrop(l), OutputChannel.MAX_BUFFERED_OUTPUT_BYTES))
           + OutputChannel.Outputs(more)
  {
    LedgerExtends(before, after, channel);
    LedgerExtends(before + after, [], channel);
    var l := Ledger(before, channel);
    var more := Ledger(before + after, channel)[|l|..];
    assert before + after + [] == before + after;
    forall op | op in more ensures op != OutputChannel.Leave(listener) && op != OutputChannel.Reset {
      assert op in Ledger(before + after, channel);
    }
    hide Ledger;
    OutputChannel.FirstListenerHearsAll(l, listener, more);
  }

  // ---- How undisturbed operations end ----

  /** The state once the server has made the session for the start. */
  function CreatedFor(s: State, op: Handle, session: SessionId): State
    requires op in s.starts
  {
    s.(starts := s.starts[op := s.starts[op].(phase := Creating(Some(session)))],
       made := s.made + {session}, open := s.open + {session})
  }

  lemma WantedStartCreates(s: State, op: Handle, session: SessionId)
    requires Wanted(s, op) && s.starts[op].phase == Queued && session !in s.made
    ensures ServerCreates(RunStart(s, op), op, session) == CreatedFor(s, op, session)
    ensures Wanted(CreatedFor(s, op, session), op)
  {
    WantedIff(s, op);
    hide Blocked, Undisturbed, Wanted, Stale;
    var s1 := RunStart(s, op);
    assert s1 == s.(starts := s.starts[op := s.starts[op].(phase := Creating(None))]);
    hide RunStart;
    SameGuards(s, CreatedFor(s, op, session), op);
  }

  lemma WantedStartReturns(s: State, op: Handle, session: SessionId)
    requires Wanted(s, op) && s.starts[op].phase == Creating(Some(session))
    ensures var h := s.runtime[s.starts[op].tab];
      CreateReturns(s, op) == s.(starts := s.starts - {op}, heap := s.heap[h := Adopt(s.heap[h], session)])
  {
    WantedIff(s, op);
    hide Blocked, Undisturbed, Wanted, Stale;
  }

  /** A start that has not been overtaken runs its tab with the session it is given. */
  lemma WantedStartEnds(s: State, op: Handle, session: SessionId)
    requires Inv(s) && Wanted(s, op) && s.starts[op].phase == Queued && session !in s.made
    ensures var n := CreateReturns(ServerCreates(RunStart(s, op), op, session), op);
      && op !in n.starts && session in n.open && n.all == s.all && n.closes == s.closes && n.convs == s.convs
      && n.runtime == s.runtime && n.restarts == s.restarts && n.tokens == s.tokens
      && (EntryOf(s, s.starts[op].tab).value.status == Starting ==>
        EntryOf(n, s.starts[op].tab)
          == Some(EntryOf(s, s.starts[op].tab).value.(session := Some(session), status := Running)))
  {
    WantedStartCreates(s, op, session);
    var m := CreatedFor(s, op, session);
    WantedStartReturns(m, op, session);
    hide Inv, Undisturbed, CreateReturns, ServerCreates, RunStart;
  }

  lemma SameGuards(s: State, n: State, op: Handle)
    requires Wanted(s, op) && op in n.starts && n.starts[op].(phase := s.starts[op].phase) == s.starts[op]
    requires n.heap == s.heap && n.runtime == s.runtime
    requires n.all == s.all && n.closes == s.closes && n.convs == s.convs
    ensures Wanted(n, op)
  {
  }

  lemma NewStart(s: State, tab: TabId, conv: ConvId, mayFallback: bool)
    requires Undisturbed(s, tab, conv)
    ensures var n := Begin(s, tab, conv, mayFallback); var op := s.nextHandle + 1;
      && Wanted(n, op) && n.starts[op] == Start(tab, conv, Generation(s, tab) + 1, mayFallback, Queued)
      && n.made == s.made && n.all == s.all && n.closes == s.closes && n.convs == s.convs
      && EntryOf(n, tab).Some? && EntryOf(n, tab).value.status == Starting
  {
  }

  /** Opening a tab: it runs, with the session the server made. */
  lemma OpeningEnds(s: State, tab: TabId, conv: ConvId, session: SessionId)
    requires Inv(s) && tab !in s.runtime && Undisturbed(s, tab, conv) && session !in s.made
    ensures var op := s.nextHandle + 1;
      var n := CreateReturns(ServerCreates(RunStart(OpenTab(s, tab, conv), op), op, session), op);
      && op !in n.starts && session in n.open
      && EntryOf(n, tab) == Some(Entry(tab, conv, Some(session), Running, Generation(s, tab) + 1, s.nextHandle + 2))
  {
    NewStart(s, tab, conv, true);
    InvFacts(s);
    BeginShows(s, tab, conv, true, tab);
    OpenTabKeeps(s, tab, conv);
    UndisturbedIff(s, tab, conv);
    assert OpenTab(s, tab, conv) == Begin(s, tab, conv, true);
    hide Inv, Facts, Begin, OpenTab, Wanted, Undisturbed;
    WantedStartEnds(OpenTab(s, tab, conv), s.nextHandle + 1, session);
  }

  /** A start that was overtaken makes no call, or has its session closed. */
  lemma OvertakenStartEnds(s: State, op: Handle, session: SessionId)
    requires op in s.starts && !Wanted(s, op)
    ensures s.starts[op].phase == Queued ==> RunStart(s, op) == s.(starts := s.starts - {op})
    ensures s.starts[op].phase == Creating(Some(session)) ==>
      var n := LateCloseReturns(CreateReturns(s, op), op, true);
      n == s.(starts := s.starts - {op}, open := s.open - {session})
  {
    WantedIff(s, op);
    hide Wanted, Stale;
    if s.starts[op].phase == Creating(Some(session)) {
      var m := CreateReturns(s, op);
      assert m == s.(starts := s.starts[op := s.starts[op].(phase := LateClose(session))]);
      hide CreateReturns;
      assert m.starts - {op} == s.starts - {op};
      assert m.spared + {session} * (m.open - {session}) == s.spared;
    }
  }

  /** A call that fails falls back once, when it had asked for another directory: a
      new start is wanted, the tab's entry starts anew on the same channel. */
  lemma FallbackBegins(s: State, op: Handle, e: Entry, m: State)
    requires op in s.starts && s.starts[op].phase == Creating(None) && s.starts[op].mayFallback
    requires EntryOf(s, s.starts[op].tab) == Some(e) && m == CreateFails(s, op, true)
    requires Wanted(s, op) && Inv(s)
    ensures var inner := s.nextHandle + 1;
      && inner in m.starts && m.starts[inner].phase == Queued && !m.starts[inner].mayFallback
      && m.starts[inner].tab == s.starts[op].tab && Wanted(m, inner) && m.made == s.made
      && op in m.starts && m.starts[op].phase == FellBack(inner)
      && EntryOf(m, s.starts[op].tab) == Some(Restarted(e))
  {
    FallBackFacts(s, op);
    hide *;
    FallBackStarts(s, op, m);
    FallBackRestarts(s, op, e, m);
  }

  lemma FallBackFacts(s: State, op: Handle)
    requires op in s.starts && s.starts[op].phase == Creating(None) && s.starts[op].mayFallback
    requires Wanted(s, op) && Inv(s)
    ensures Facts(s) && !Stale(s, s.starts[op]) && op < s.nextHandle && OfItsTab(s, op)
    ensures CreateFails(s, op, true) == FallBack(s, op)
  {
    InvFacts(s);
    StartIsTracked(s, op);
    StartIsOld(s, op);
    WantedIff(s, op);
    hide Inv, Facts, Wanted;
    NoAbandon(s, op);
  }

  lemma FallBackRestarts(s: State, op: Handle, e: Entry, m: State)
    requires op in s.starts && EntryOf(s, s.starts[op].tab) == Some(e)
    requires Facts(s) && Wanted(s, op) && !Stale(s, s.starts[op]) && OfItsTab(s, op) && m == FallBack(s, op)
    ensures EntryOf(m, s.starts[op].tab) == Some(Restarted(e))
  {
    hide Facts, FallBack, Undisturbed, Blocked;
    FallBackShows(s, op, s.starts[op].tab, 0);
  }

  /** A start that fell back is over exactly when the start it fell back to is. */
  lemma FallbackWaits(s: State, op: Handle)
    requires op in s.starts && s.starts[op].phase.FellBack?
    ensures var n := NextStart(s, FallbackEnds(op));
      if s.starts[op].phase.inner in s.starts then n == s else n == s.(starts := s.starts - {op})
  {
  }

  lemma NoAbandon(s: State, op: Handle)
    requires op in s.starts && s.starts[op].phase == Creating(None) && s.starts[op].mayFallback
    requires !Stale(s, s.starts[op])
    ensures CreateFails(s, op, true) == FallBack(s, op)
  {
    hide Stale, FallBack;
    assert Abandon(s, op) == s;
    hide Abandon;
  }

  lemma FallBackStarts(s: State, op: Handle, m: State)
    requires Wanted(s, op) && !Stale(s, s.starts[op]) && op < s.nextHandle && m == FallBack(s, op)
    ensures var inner := s.nextHandle + 1;
      && Wanted(m, inner) && op in m.starts && m.starts[op].phase == FellBack(inner)
      && m.starts[inner].phase == Queued && !m.starts[inner].mayFallback
      && m.starts[inner].tab == s.starts[op].tab && m.made == s.made
  {
    var start := s.starts[op];
    var d := DropKept(s, start.tab);
    NewStart(d, start.tab, start.conv, false);
    BeginStarts(d, start.tab, start.conv, false, op);
    var b := Begin(d, start.tab, start.conv, false);
    hide Begin, DropKept, Undisturbed, Stale;
    assert m == SetStart(b, op, FellBack(s.nextHandle + 1));
    hide FallBack;
    SameGuards(b, m, s.nextHandle + 1);
  }

  // ---- Closing a tab ----

  lemma CloseOpens(s: State, tab: TabId, n: State)
    requires tab in s.runtime && s.runtime[tab] in s.heap && tab !in s.closes && n == CloseTab(s, tab)
    ensures tab in n.closes && n.closes[tab] == CloseOp(s.nextHandle, Some(s.runtime[tab]), Settling)
    ensures n.runtime == s.runtime && n.starts == s.starts && n.open == s.open && n.tokens == s.tokens - {tab}
    ensures s.runtime[tab] in n.heap && n.heap[s.runtime[tab]].session == s.heap[s.runtime[tab]].session
  {
  }

  /** With no start of the tab in flight the close call is made next, if the entry that
      was captured has a session; otherwise the closing is over. */
  lemma ClosingCalls(s: State, tab: TabId, a: State, m: State)
    requires tab in s.runtime && s.runtime[tab] in s.heap && tab !in s.closes && !StartsOf(s, tab)
    requires a == CloseTab(s, tab) && m == CloseProceeds(CloseSettles(a, tab), tab)
    ensures tab in m.closes && m.closes[tab].entry == Some(s.runtime[tab])
    ensures s.heap[s.runtime[tab]].session.Some? ==>
      && m.closes[tab].phase == ClosingSession(s.heap[s.runtime[tab]].session.value)
      && m.runtime == s.runtime && m.open == s.open
    ensures s.heap[s.runtime[tab]].session.None? ==> m.closes[tab].phase == CloseDone && m.runtime == s.runtime - {tab}
  {
    CloseOpens(s, tab, a);
    hide CloseTab;
    SettledNext(a, tab, CloseSettles(a, tab));
    var b := CloseSettles(a, tab);
    hide CloseSettles, StartsOf, ClearedCaptured;
  }

  lemma SettledNext(s: State, tab: TabId, n: State)
    requires tab in s.closes && s.closes[tab].phase == Settling && !StartsOf(s, tab) && n == CloseSettles(s, tab)
    ensures n == s.(closes := s.closes[tab := s.closes[tab].(phase := Settled)])
  {
    hide StartsOf;
  }

  /** Its return ends the closing: entry and scope go, and so does what was closed. */
  lemma ClosingEnds(s: State, tab: TabId, gone: bool, n: State)
    requires tab in s.closes && tab in s.runtime && s.closes[tab].entry == Some(s.runtime[tab])
    requires s.closes[tab].phase.ClosingSession? && n == CloseReturns(s, tab, gone)
    ensures tab !in n.runtime && n.runtime == s.runtime - {tab} && s.closes[tab].id in n.closed
    ensures n.open == if gone then s.open - {s.closes[tab].phase.session} else s.open
    ensures CloseFinally(n, tab) == n.(closes := s.closes - {tab})
  {
    hide ClearedCaptured;
    assert n.closes - {tab} == s.closes - {tab};
  }

  // ---- Restarting a tab ----

  /** Restarting a tab with a session closes that session first, holding the tab. */
  lemma RestartCloses(s: State, tab: TabId, n: State)
    requires MayRestart(s, tab, true) && EntryOf(s, tab).value.session.Some? && n == RestartTab(s, tab, true)
    ensures HoldsTab(n, tab) && n.restarts[tab].phase == RestartClosing(EntryOf(s, tab).value.session.value)
    ensures n.all == s.all && n.closes == s.closes && n.convs == s.convs && n.open == s.open
  {
    hide Generation;
  }

  /** The restart of the tab waits for a new start, which is wanted. */
  predicate NewStartWanted(s: State, tab: TabId, gone: bool, n: State)
    requires tab in s.restarts && s.restarts[tab].phase.RestartClosing?
  {
    var op := s.nextHandle + 1;
    && tab in n.restarts && n.restarts[tab].phase == RestartStarting(op)
    && op in n.starts && n.starts[op].phase == Queued && n.starts[op].mayFallback && n.starts[op].tab == tab
    && Wanted(n, op) && n.made == s.made
    && n.open == (if gone then s.open - {s.restarts[tab].phase.session} else s.open)
  }

  /** If nothing came between, it then starts anew: a new start is wanted. */
  lemma RestartStarts(s: State, tab: TabId, e: Entry, gone: bool, n: State)
    requires tab in s.restarts && s.restarts[tab].phase.RestartClosing? && EntryOf(s, tab) == Some(e)
    requires n == RestartCloseReturns(s, tab, true, gone, true)
    requires HoldsTab(s, tab) && Undisturbed(s, tab, e.conv) && Inv(s)
    ensures NewStartWanted(s, tab, gone, n)
      && EntryOf(n, tab) == Some(Restarted(e))
  {
    hide *;
    RestartRestarts(s, tab, e, gone, n);
    RestartQueues(s, tab, e, gone, n);
  }

  lemma RestartRestarts(s: State, tab: TabId, e: Entry, gone: bool, n: State)
    requires tab in s.restarts && s.restarts[tab].phase.RestartClosing? && EntryOf(s, tab) == Some(e)
    requires n == RestartCloseReturns(s, tab, true, gone, true)
    requires HoldsTab(s, tab) && Undisturbed(s, tab, e.conv) && Inv(s)
    ensures EntryOf(n, tab) == Some(Restarted(e))
  {
    hide Inv, RestartCloseReturns, Undisturbed, HoldsTab, EntryOf, Restarted;
    RestartReturnShows(s, tab, true, gone, true, tab);
  }

  lemma RestartQueues(s: State, tab: TabId, e: Entry, gone: bool, n: State)
    requires tab in s.restarts && s.restarts[tab].phase.RestartClosing? && EntryOf(s, tab) == Some(e)
    requires n == RestartCloseReturns(s, tab, true, gone, true)
    requires HoldsTab(s, tab) && Undisturbed(s, tab, e.conv)
    ensures NewStartWanted(s, tab, gone, n)
  {
    UndisturbedIff(s, tab, e.conv);
    var entry := s.restarts[tab].entry;
    assert s.heap[entry] == e;
    var r := Released(Shut(s, s.restarts[tab].phase.session, gone), e.session);
    ReleasedShut(s, s.restarts[tab].phase.session, gone, e.session, r);
    hide Released, Shut, Blocked, RestartCloseReturns;
    SameUndisturbed(s, r, tab, e.conv);
    NewStart(r, tab, e.conv, true);
    var b := Begin(r, tab, e.conv, true);
    hide Undisturbed, EntryOf;
    BeginOpens(r, tab, e.conv, b);
    Restarts(s, tab, gone, n, b);
    hide Begin;
    SameGuards(b, n, s.nextHandle + 1);
  }

  lemma BeginOpens(s: State, tab: TabId, conv: ConvId, n: State)
    requires n == Begin(s, tab, conv, true)
    ensures n.open == s.open && n.made == s.made
  {
  }

  lemma ReleasedShut(s: State, session: SessionId, gone: bool, owned: Option<SessionId>, r: State)
    requires r == Released(Shut(s, session, gone), owned)
    ensures r == s.(open := if gone then s.open - {session} else s.open, spared := r.spared)
  {
  }

  lemma Restarts(s: State, tab: TabId, gone: bool, n: State, b: State)
    requires HoldsTab(s, tab) && s.restarts[tab].phase.RestartClosing? && s.restarts[tab].entry in s.heap
    requires !Blocked(s, tab, s.heap[s.restarts[tab].entry].conv)
    requires n == RestartCloseReturns(s, tab, true, gone, true)
    requires var m := Shut(s, s.restarts[tab].phase.session, gone);
      b == Begin(Released(m, s.heap[s.restarts[tab].entry].session), tab, s.heap[s.restarts[tab].entry].conv, true)
    ensures var op := s.restarts[tab];
      n == b.(restarts := s.restarts[tab := RestartOp(op.entry, op.token, RestartStarting(s.nextHandle + 1))])
  {
    hide Begin, Released;
  }

  /** The restart ends when its start has, and gives its token back. */
  lemma RestartEnded(s: State, tab: TabId, inner: Handle)
    requires HoldsToken(s, tab) && s.restarts[tab].phase == RestartStarting(inner) && inner !in s.starts
    ensures RestartFinally(s, tab) == s.(restarts := s.restarts - {tab}, tokens := s.tokens - {tab})
  {
  }

  predicate HoldsToken(s: State, tab: TabId) {
    tab in s.restarts && tab in s.tokens && s.tokens[tab] == s.restarts[tab].token
  }

  // ---- Closing a conversation and everything ----

  /** A conversation's closing ends once the closings of its tabs have. */
  lemma ConversationEnds(s: State, conv: ConvId, tabs: seq<TabId>, n: State)
    requires conv !in s.convs && ListsTabsOf(CloseConversation(s, conv), conv, tabs)
    requires n == ConversationRuns(CloseConversation(s, conv), conv, tabs)
    ensures n.convs == s.convs[conv := ConvWaiting(AwaitedBy(n.closes, tabs))]
    ensures forall t <- tabs :: t in n.closes
    ensures forall later: State :: later.convs == n.convs && AwaitedBy(n.closes, tabs) <= later.closed ==>
      ConversationFinally(ConversationSettles(later, conv), conv).convs == s.convs - {conv}
  {
    CloseTabsScopes(CloseConversation(s, conv), tabs);
    hide ListsTabsOf, CloseTabs, AwaitedBy;
    assert s.convs[conv := ConvQueued][conv := ConvWaiting(AwaitedBy(n.closes, tabs))]
      == s.convs[conv := ConvWaiting(AwaitedBy(n.closes, tabs))];
    assert s.convs[conv := ConvWaiting(AwaitedBy(n.closes, tabs))][conv := ConvDone] - {conv} == s.convs - {conv};
  }

  lemma {:induction false} CloseTabsScopes(s: State, tabs: seq<TabId>)
    ensures CloseTabs(s, tabs).convs == s.convs && forall t <- tabs :: t in CloseTabs(s, tabs).closes
  {
    if tabs != [] {
      CloseTabsScopes(s, tabs[..|tabs| - 1]);
      CloseTabShape(CloseTabs(s, tabs[..|tabs| - 1]), tabs[|tabs| - 1]);
      hide CloseTab;
    }
  }

  /** Closing everything, once the starts in flight have ended, calls the transport
      twice, empties the tables and ends. */
  lemma ClosingAllEnds(s: State, first: set<SessionId>, second: set<SessionId>, a: State, n: State)
    requires s.all == AllIdle && a == AllReturns(CloseAll(s), first) && a.starts == map[]
    requires n == AllFinally(AllReturns(AllProceeds(AllSettles(a)), second))
    ensures n.all == AllIdle && n.runtime == map[] && n.starts == map[] && n.tokens == map[]
    ensures n.open == s.open - first - second
  {
    ClosingAllCalls(s, first, a);
    hide CloseAll, AllReturns;
    assert AllProceeds(AllSettles(a)) == a.(all := AllSecond);
    SecondCallEnds(a.(all := AllSecond), second, AllReturns(a.(all := AllSecond), second));
  }

  lemma ClosingAllCalls(s: State, first: set<SessionId>, a: State)
    requires s.all == AllIdle && a == AllReturns(CloseAll(s), first)
    ensures a.all == AllSettling && a.open == s.open - first && a.tokens == map[]
  {
    hide BumpedHeap, BumpedGenerations, EndedAll;
  }

  lemma SecondCallEnds(s: State, gone: set<SessionId>, n: State)
    requires s.all == AllSecond && n == AllReturns(s, gone)
    ensures n.all == AllDone && n.runtime == map[] && n.starts == map[]
    ensures n.tokens == s.tokens && n.open == s.open - gone
  {
    hide ClearedChannels, LiveChannels;
  }
}
