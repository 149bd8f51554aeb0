/**
 The terminal runtime as a state machine whose steps are the stretches of code
 between two awaits. Tabs start, fall back, restart and close while calls to
 the transport are still in flight; every interleaving of the steps is a run.

 The server side appears as two sets: the sessions it ever made and those still
 open. A close call takes its session off the second set or leaves it there, and
 whether its promise resolves says nothing about that. Two more sets record why a
 session can be open with nobody left who knows it: its create call rejected
 after the server had made it (`abandoned`), or its owner went although the close
 call meant for it had left it open (`spared`).
 */
module TerminalState {
  import opened Prelude
  import OutputChannel

  // Identifiers are uuids, symbols and object references in the source.
  type TabId = nat
  type ConvId = nat
  type SessionId = nat
  type Handle = nat

  datatype Status = Starting | Running | Exited | Failed

  /** A runtime entry; its handle in `heap` is the identity of the object. */
  datatype Entry = Entry(
    tab: TabId,
    conv: ConvId,
    session: Option<SessionId>,
    status: Status,
    generation: nat,
    channel: Handle)

  /** Where a start operation is: queued behind a microtask, waiting for
      `transport.create`, waiting for the start it fell back to, or closing a
      session that arrived too late. */
  datatype StartPhase =
    | Queued
    | Creating(made: Option<SessionId>)
    | FellBack(inner: Handle)
    | LateClose(late: SessionId)

  datatype Start = Start(tab: TabId, conv: ConvId, generation: nat, mayFallback: bool, phase: StartPhase)

  datatype ClosePhase = Settling | Settled | ClosingSession(session: SessionId) | CloseDone

  /** A tab closing; the key of the map that holds it is also the closing scope. */
  datatype CloseOp = CloseOp(id: Handle, entry: Option<Handle>, phase: ClosePhase)

  datatype RestartPhase = RestartClosing(session: SessionId) | RestartStarting(inner: Handle) | RestartDone

  datatype RestartOp = RestartOp(entry: Handle, token: Handle, phase: RestartPhase)

  datatype ConvPhase = ConvQueued | ConvWaiting(ops: set<Handle>) | ConvDone

  datatype AllPhase =
    | AllIdle
    | AllFirst
    | AllSettling
    | AllSettled
    | AllSecond
    | AllDone

  datatype TerminalEvent = Bytes(bytes: seq<Byte>) | Control(writable: bool) | Exit | Fault

  type Heap = map<Handle, Entry>
  type Runtime = map<TabId, Handle>
  type Generations = map<TabId, nat>
  type Starts = map<Handle, Start>
  type Closes = map<TabId, CloseOp>
  type Restarts = map<TabId, RestartOp>
  type Convs = map<ConvId, ConvPhase>

  /** What the runtime did to each output channel, in order. */
  type Logs = map<Handle, seq<OutputChannel.Op>>

  datatype State = State(
    heap: Heap,
    runtime: Runtime,
    generations: Generations,
    starts: Starts,
    closes: Closes,
    closed: set<Handle>,
    restarts: Restarts,
    tokens: map<TabId, Handle>,
    convs: Convs,
    all: AllPhase,
    output: Logs,
    nextHandle: Handle,
    made: set<SessionId>,
    open: set<SessionId>,
    abandoned: set<SessionId>,
    spared: set<SessionId>)

  const INITIAL := State(map[], map[], map[], map[], map[], {}, map[], map[], map[], AllIdle, map[], 0, {}, {}, {}, {})

  function Lost(s: State): set<SessionId> {
    s.abandoned + s.spared
  }

  function GenerationIn(generations: Generations, tab: TabId): nat {
    if tab in generations then generations[tab] else 0
  }

  function Generation(s: State, tab: TabId): nat {
    GenerationIn(s.generations, tab)
  }

  /** The guard that refuses work while everything, the tab or its conversation is closing. */
  predicate Blocked(s: State, tab: TabId, conv: ConvId) {
    !s.all.AllIdle? || tab in s.closes || conv in s.convs
  }

  predicate Current(s: State, tab: TabId, generation: nat) {
    && tab in s.runtime
    && s.runtime[tab] in s.heap
    && s.heap[s.runtime[tab]].generation == generation
  }

  predicate Stale(s: State, start: Start) {
    Blocked(s, start.tab, start.conv) || !Current(s, start.tab, start.generation)
  }

  function Invalidate(s: State, tab: TabId): State {
    var g := Generation(s, tab) + 1;
    s.(generations := s.generations[tab := g],
       heap := if tab in s.runtime && s.runtime[tab] in s.heap
               then s.heap[s.runtime[tab] := s.heap[s.runtime[tab]].(generation := g)]
               else s.heap)
  }

  /** A new entry keeps writing to the channel of the one it replaces. */
  function ChannelOf(heap: Heap, runtime: Runtime, tab: TabId, otherwise: Handle): Handle {
    if tab in runtime && runtime[tab] in heap then heap[runtime[tab]].channel else otherwise
  }

  function LogOf(output: Logs, channel: Handle): seq<OutputChannel.Op> {
    if channel in output then output[channel] else []
  }

  /** One more operation on one channel. */
  function Logged(output: Logs, channel: Handle, op: OutputChannel.Op): Logs {
    output[channel := LogOf(output, channel) + [op]]
  }

  /** The synchronous part of `startRuntimeTab`, once its guard has passed. */
  function Begin(s: State, tab: TabId, conv: ConvId, mayFallback: bool): State {
    var g := Generation(s, tab) + 1;
    var channel := ChannelOf(s.heap, s.runtime, tab, s.nextHandle + 2);
    s.(generations := s.generations[tab := g],
       heap := s.heap[s.nextHandle := Entry(tab, conv, None, Starting, g, channel)],
       runtime := s.runtime[tab := s.nextHandle],
       starts := s.starts[s.nextHandle + 1 := Start(tab, conv, g, mayFallback, Queued)],
       nextHandle := s.nextHandle + 3)
  }

  function OpenTab(s: State, tab: TabId, conv: ConvId): State {
    if tab in s.runtime || Blocked(s, tab, conv) then s else Begin(s, tab, conv, true)
  }

  function SetStart(s: State, op: Handle, phase: StartPhase): State
    requires op in s.starts
  {
    s.(starts := s.starts[op := s.starts[op].(phase := phase)])
  }

  function EndStart(s: State, op: Handle): State {
    s.(starts := s.starts - {op})
  }

  function RunStart(s: State, op: Handle): State {
    if op !in s.starts || !s.starts[op].phase.Queued? then s
    else if Stale(s, s.starts[op]) then EndStart(s, op)
    else SetStart(s, op, Creating(None))
  }

  function ServerCreates(s: State, op: Handle, session: SessionId): State {
    if op !in s.starts || s.starts[op].phase != Creating(None) || session in s.made then s
    else SetStart(s, op, Creating(Some(session))).(made := s.made + {session}, open := s.open + {session})
  }

  function Adopt(e: Entry, session: SessionId): Entry {
    e.(session := Some(session), status := if e.status.Starting? then Running else e.status)
  }

  function CreateReturns(s: State, op: Handle): State {
    if op !in s.starts || !s.starts[op].phase.Creating? || s.starts[op].phase.made.None? then s
    else
      var session := s.starts[op].phase.made.value;
      if Stale(s, s.starts[op]) then SetStart(s, op, LateClose(session))
      else
        var h := s.runtime[s.starts[op].tab];
        EndStart(s, op).(heap := s.heap[h := Adopt(s.heap[h], session)])
  }

  /** The server's side of a close call on one session. */
  function Shut(s: State, session: SessionId, gone: bool): State {
    if gone then s.(open := s.open - {session}) else s
  }

  /** The owner of this session goes. */
  function Released(s: State, session: Option<SessionId>): State {
    s.(spared := s.spared + if session.Some? then {session.value} * s.open else {})
  }

  /** A close call has returned, and the owner goes either way. */
  function Closed(s: State, session: SessionId, gone: bool): State {
    Released(Shut(s, session, gone), Some(session))
  }

  /** A rejected create tells nobody about a session the server had already made. */
  function Abandon(s: State, op: Handle): State {
    if op in s.starts && s.starts[op].phase.Creating? && s.starts[op].phase.made.Some?
    then
      SetStart(s.(abandoned := s.abandoned + {s.starts[op].phase.made.value}), op, Creating(None))
    else s
  }

  /** `transport.create` rejected, before the server made a session or after it
      did. `elsewhere`: the start had asked for a directory other than the fallback. */
  function CreateFails(s: State, op: Handle, elsewhere: bool): State {
    CreateRejects(Abandon(s, op), op, elsewhere)
  }

  function CreateRejects(s: State, op: Handle, elsewhere: bool): State {
    if op !in s.starts || s.starts[op].phase != Creating(None) then s
    else
      var start := s.starts[op];
      if Stale(s, start) then EndStart(s, op)
      else if start.mayFallback && elsewhere then FallBack(s, op)
      else
        var h := s.runtime[start.tab];
        EndStart(s, op).(heap := s.heap[h := s.heap[h].(status := Failed)])
  }

  function DropKept(s: State, tab: TabId): State
    requires tab in s.runtime && s.runtime[tab] in s.heap
  {
    s.(output := Logged(s.output, s.heap[s.runtime[tab]].channel, OutputChannel.Drop))
  }

  /** The live entry's channel forgets what it kept, and a new start takes over. */
  function FallBack(s: State, op: Handle): State
    requires op in s.starts && !Stale(s, s.starts[op])
  {
    var start := s.starts[op];
    SetStart(Begin(DropKept(s, start.tab), start.tab, start.conv, false), op, FellBack(s.nextHandle + 1))
  }

  /** `gone`: the server closed the session. */
  function LateCloseReturns(s: State, op: Handle, gone: bool): State {
    if op !in s.starts || !s.starts[op].phase.LateClose? then s
    else EndStart(Closed(s, s.starts[op].phase.late, gone), op)
  }

  function FallbackReturns(s: State, op: Handle): State {
    if op !in s.starts || !s.starts[op].phase.FellBack? || s.starts[op].phase.inner in s.starts then s
    else EndStart(s, op)
  }

  /** `onEvent` of the start that ran with this generation; it outlives the start. */
  function Event(s: State, tab: TabId, conv: ConvId, generation: nat, event: TerminalEvent): State {
    if Blocked(s, tab, conv) || !Current(s, tab, generation) then s
    else
      var h := s.runtime[tab];
      var e := s.heap[h];
      match event
      case Bytes(bytes) =>
        s.(output := Logged(s.output, e.channel, OutputChannel.Output(bytes)))
      case Control(_) => s
      case Exit => s.(heap := s.heap[h := e.(status := Exited)])
      case Fault => s.(heap := s.heap[h := e.(status := Failed)])
  }

  function CloseTab(s: State, tab: TabId): State {
    var s1 := s.(tokens := s.tokens - {tab});
    if tab in s.closes then s1
    else
      var entry := if tab in s.runtime then Some(s.runtime[tab]) else None;
      Invalidate(s1, tab).(closes := s.closes[tab := CloseOp(s.nextHandle, entry, Settling)],
                           nextHandle := s.nextHandle + 1)
  }

  predicate StartsOf(s: State, tab: TabId) {
    exists op :: op in s.starts && s.starts[op].tab == tab
  }

  function SetClose(s: State, tab: TabId, phase: ClosePhase): State
    requires tab in s.closes
  {
    s.(closes := s.closes[tab := s.closes[tab].(phase := phase)])
  }

  function CloseSettles(s: State, tab: TabId): State {
    if tab !in s.closes || !s.closes[tab].phase.Settling? || StartsOf(s, tab) then s
    else SetClose(s, tab, Settled)
  }

  /** The closing of a tab also closes the channel of the entry it captured. */
  function ClearedCaptured(output: Logs, heap: Heap, entry: Option<Handle>): Logs {
    if entry.Some? && entry.value in heap
    then Logged(output, heap[entry.value].channel, OutputChannel.Reset)
    else output
  }

  /** The `finally` block: drop the entry this close captured, and report. */
  function FinishClose(s: State, tab: TabId): State
    requires tab in s.closes
  {
    var op := s.closes[tab];
    var mine := op.entry.Some? && tab in s.runtime && s.runtime[tab] == op.entry.value;
    SetClose(s, tab, CloseDone).(
      closed := s.closed + {op.id},
      runtime := if mine then s.runtime - {tab} else s.runtime,
      output := ClearedCaptured(s.output, s.heap, op.entry))
  }

  function CloseProceeds(s: State, tab: TabId): State {
    if tab !in s.closes || !s.closes[tab].phase.Settled? then s
    else
      var entry := s.closes[tab].entry;
      if entry.Some? && entry.value in s.heap && s.heap[entry.value].session.Some?
      then SetClose(s, tab, ClosingSession(s.heap[entry.value].session.value))
      else FinishClose(s, tab)
  }

  function CloseReturns(s: State, tab: TabId, gone: bool): State {
    if tab !in s.closes || !s.closes[tab].phase.ClosingSession? then s
    else FinishClose(Closed(s, s.closes[tab].phase.session, gone), tab)
  }

  function CloseFinally(s: State, tab: TabId): State {
    if tab !in s.closes || !s.closes[tab].phase.CloseDone? then s
    else s.(closes := s.closes - {tab})
  }

  /** What a restart does once the close call of the old session has resolved. */
  function RestartContinues(s: State, tab: TabId, entry: Handle, token: Handle, saved: bool): State
    requires entry in s.heap
  {
    var conv := s.heap[entry].conv;
    if Blocked(s, tab, conv) || tab !in s.tokens || s.tokens[tab] != token
       || tab !in s.runtime || s.runtime[tab] != entry || !saved
    then s.(restarts := s.restarts[tab := RestartOp(entry, token, RestartDone)])
    else
      var s1 := Begin(Released(s, s.heap[entry].session), tab, conv, true);
      s1.(restarts := s.restarts[tab := RestartOp(entry, token, RestartStarting(s.nextHandle + 1))])
  }

  /** A restart outdates the tab and takes the tab's token. */
  function TakeToken(s: State, tab: TabId): State {
    Invalidate(s, tab).(tokens := s.tokens[tab := s.nextHandle], nextHandle := s.nextHandle + 1)
  }

  function RestartTab(s: State, tab: TabId, saved: bool): State {
    if !s.all.AllIdle? || tab in s.closes || tab in s.restarts || tab !in s.runtime
       || s.runtime[tab] !in s.heap || s.heap[s.runtime[tab]].conv in s.convs || !saved
    then s
    else
      var h := s.runtime[tab];
      match s.heap[h].session
      case Some(session) =>
        TakeToken(s, tab).(restarts := s.restarts[tab := RestartOp(h, s.nextHandle, RestartClosing(session))])
      case None => RestartContinues(TakeToken(s, tab), tab, h, s.nextHandle, saved)
  }

  /** `ok`: the promise resolved; only then does the restart go on. */
  function RestartCloseReturns(s: State, tab: TabId, ok: bool, gone: bool, saved: bool): State {
    if tab !in s.restarts || !s.restarts[tab].phase.RestartClosing? || s.restarts[tab].entry !in s.heap then s
    else
      var op := s.restarts[tab];
      var s1 := Shut(s, op.phase.session, gone);
      if ok then RestartContinues(s1, tab, op.entry, op.token, saved)
      else
        var s2 := s1.(restarts := s.restarts[tab := op.(phase := RestartDone)]);
        if tab in s.tokens && s.tokens[tab] == op.token && tab in s.runtime && s.runtime[tab] == op.entry
        then s2.(heap := s.heap[op.entry := s.heap[op.entry].(status := Failed)])
        else s2
  }

  function RestartFinally(s: State, tab: TabId): State {
    if tab !in s.restarts || s.restarts[tab].phase.RestartClosing?
       || (s.restarts[tab].phase.RestartStarting? && s.restarts[tab].phase.inner in s.starts)
    then s
    else s.(restarts := s.restarts - {tab},
            tokens := if tab in s.tokens && s.tokens[tab] == s.restarts[tab].token
                      then s.tokens - {tab} else s.tokens)
  }

  function CloseConversation(s: State, conv: ConvId): State {
    if conv in s.convs then s else s.(convs := s.convs[conv := ConvQueued])
  }

  function CloseTabs(s: State, tabs: seq<TabId>): State {
    if tabs == [] then s else CloseTab(CloseTabs(s, tabs[..|tabs| - 1]), tabs[|tabs| - 1])
  }

  /** `tabs` lists the saved tabs of the conversation and those with a live entry. */
  predicate ListsTabsOf(s: State, conv: ConvId, tabs: seq<TabId>) {
    forall t :: t in s.runtime && s.runtime[t] in s.heap && s.heap[s.runtime[t]].conv == conv ==> t in tabs
  }

  function AwaitedBy(closes: Closes, tabs: seq<TabId>): set<Handle> {
    set t | t in tabs && t in closes :: closes[t].id
  }

  function ConversationRuns(s: State, conv: ConvId, tabs: seq<TabId>): State {
    if conv !in s.convs || !s.convs[conv].ConvQueued? || !ListsTabsOf(s, conv, tabs) then s
    else
      var s1 := CloseTabs(s, tabs);
      s1.(convs := s1.convs[conv := ConvWaiting(AwaitedBy(s1.closes, tabs))])
  }

  function ConversationSettles(s: State, conv: ConvId): State {
    if conv !in s.convs || !s.convs[conv].ConvWaiting? || !(s.convs[conv].ops <= s.closed) then s
    else s.(convs := s.convs[conv := ConvDone])
  }

  function ConversationFinally(s: State, conv: ConvId): State {
    if conv !in s.convs || !s.convs[conv].ConvDone? then s else s.(convs := s.convs - {conv})
  }

  /** A new generation for these tabs. */
  function BumpedGenerations(generations: Generations, tabs: set<TabId>): Generations {
    map t | t in generations.Keys + tabs :: GenerationIn(generations, t) + if t in tabs then 1 else 0
  }

  /** The live entries of these tabs follow. */
  function BumpedHeap(heap: Heap, runtime: Runtime, generations: Generations, tabs: set<TabId>): Heap {
    map h | h in heap ::
      if heap[h].tab in tabs && heap[h].tab in runtime && runtime[heap[h].tab] == h
      then heap[h].(generation := GenerationIn(generations, heap[h].tab) + 1) else heap[h]
  }

  function InvalidateSome(s: State, tabs: set<TabId>): State {
    s.(generations := BumpedGenerations(s.generations, tabs),
       heap := BumpedHeap(s.heap, s.runtime, s.generations, tabs))
  }

  /** Every live entry gets a generation no start carries. */
  function InvalidateAll(s: State): State {
    InvalidateSome(s, s.runtime.Keys)
  }

  function CloseAll(s: State): State {
    if !s.all.AllIdle? then s
    else InvalidateAll(s.(tokens := map[])).(all := AllFirst)
  }

  /** The output channels of the live entries. */
  function LiveChannels(heap: Heap, runtime: Runtime): set<Handle> {
    set t | t in runtime && runtime[t] in heap :: heap[runtime[t]].channel
  }

  function ClearedChannels(output: Logs, channels: set<Handle>): Logs {
    map c | c in output.Keys + channels ::
      LogOf(output, c) + if c in channels then [OutputChannel.Reset] else []
  }

  /** One `transport.closeAll` returns, resolved or rejected: the sessions in `gone` are closed. */
  function AllReturns(s: State, gone: set<SessionId>): State {
    if s.all.AllFirst? then s.(all := AllSettling, open := s.open - gone)
    else if s.all.AllSecond? then EndedAll(s.(open := s.open - gone))
    else s
  }

  /** The `finally` block after the second call: every owner goes. */
  function EndedAll(s: State): State {
    s.(all := AllDone, runtime := map[], starts := map[],
       spared := s.spared + (s.open - s.abandoned),
       output := ClearedChannels(s.output, LiveChannels(s.heap, s.runtime)))
  }

  function AllSettles(s: State): State {
    if !s.all.AllSettling? || s.starts != map[] then s else s.(all := AllSettled)
  }

  function AllProceeds(s: State): State {
    if !s.all.AllSettled? then s else s.(all := AllSecond)
  }

  function AllFinally(s: State): State {
    if !s.all.AllDone? then s else s.(all := AllIdle)
  }

  datatype StartAction =
    | Opens(tab: TabId, conv: ConvId)
    | Runs(op: Handle)
    | IsCreated(op: Handle, session: SessionId)
    | Returns(op: Handle)
    | Fails(op: Handle, elsewhere: bool)
    | LateCloses(op: Handle, gone: bool)
    | FallbackEnds(op: Handle)
    | Emits(tab: TabId, conv: ConvId, generation: nat, event: TerminalEvent)

  datatype CloseAction = Begins | Settles | Proceeds | CallReturns(gone: bool) | Ends

  datatype RestartAction =
    | RestartBegins(saved: bool)
    | RestartCallReturns(ok: bool, gone: bool, saved: bool)
    | RestartEnds

  datatype ConvAction = ConvBegins | ConvRuns(tabs: seq<TabId>) | ConvSettles | ConvEnds

  datatype AllAction =
    | AllBegins
    | AllCallReturns(gone: set<SessionId>)
    | AllStartsSettle
    | AllCallsAgain
    | AllEnds

  datatype Action =
    | OfStart(start: StartAction)
    | OfClose(tab: TabId, close: CloseAction)
    | OfRestart(tab: TabId, restart: RestartAction)
    | OfConv(conv: ConvId, closeConv: ConvAction)
    | OfAll(closeAll: AllAction)

  function NextStart(s: State, a: StartAction): State {
    match a
    case Opens(tab, conv) => OpenTab(s, tab, conv)
    case Runs(op) => RunStart(s, op)
    case IsCreated(op, session) => ServerCreates(s, op, session)
    case Returns(op) => CreateReturns(s, op)
    case Fails(op, elsewhere) => CreateFails(s, op, elsewhere)
    case LateCloses(op, gone) => LateCloseReturns(s, op, gone)
    case FallbackEnds(op) => FallbackReturns(s, op)
    case Emits(tab, conv, generation, event) => Event(s, tab, conv, generation, event)
  }

  function NextClose(s: State, tab: TabId, a: CloseAction): State {
    match a
    case Begins => CloseTab(s, tab)
    case Settles => CloseSettles(s, tab)
    case Proceeds => CloseProceeds(s, tab)
    case CallReturns(gone) => CloseReturns(s, tab, gone)
    case Ends => CloseFinally(s, tab)
  }

  function NextRestart(s: State, tab: TabId, a: RestartAction): State {
    match a
    case RestartBegins(saved) => RestartTab(s, tab, saved)
    case RestartCallReturns(ok, gone, saved) => RestartCloseReturns(s, tab, ok, gone, saved)
    case RestartEnds => RestartFinally(s, tab)
  }

  function NextConv(s: State, conv: ConvId, a: ConvAction): State {
    match a
    case ConvBegins => CloseConversation(s, conv)
    case ConvRuns(tabs) => ConversationRuns(s, conv, tabs)
    case ConvSettles => ConversationSettles(s, conv)
    case ConvEnds => ConversationFinally(s, conv)
  }

  function NextAll(s: State, a: AllAction): State {
    match a
    case AllBegins => CloseAll(s)
    case AllCallReturns(gone) => AllReturns(s, gone)
    case AllStartsSettle => AllSettles(s)
    case AllCallsAgain => AllProceeds(s)
    case AllEnds => AllFinally(s)
  }

  function Next(s: State, a: Action): State {
    match a
    case OfStart(start) => NextStart(s, start)
    case OfClose(tab, close) => NextClose(s, tab, close)
    case OfRestart(tab, restart) => NextRestart(s, tab, restart)
    case OfConv(conv, closeConv) => NextConv(s, conv, closeConv)
    case OfAll(closeAll) => NextAll(s, closeAll)
  }

  function Run(s: State, actions: seq<Action>): State {
    if actions == [] then s else Next(Run(s, actions[..|actions| - 1]), actions[|actions| - 1])
  }
}
