/**
 What every interleaving of the terminal runtime keeps: no open session is ever
 lost or shared, outdated starts and events change nothing, and the two closing
 operations leave nothing behind.
 */
module TerminalSafety {
  import opened Prelude
  import opened TerminalState

  /** The session a start operation is responsible for. */
  function Held(start: Start): Option<SessionId> {
    match start.phase
    case Creating(made) => made
    case LateClose(late) => Some(late)
    case _ => None
  }

  ghost predicate HandlesFresh(heap: Heap, starts: Starts, closes: Closes,
                               closed: set<Handle>, convs: Convs, nextHandle: Handle) {
    && (forall h :: h in heap ==> h < nextHandle)
    && (forall op :: op in starts ==> op < nextHandle)
    && (forall t :: t in closes ==> closes[t].id < nextHandle)
    && (forall id :: id in closed ==> id < nextHandle)
    && (forall c, id :: c in convs && convs[c].ConvWaiting? && id in convs[c].ops ==> id < nextHandle)
  }

  ghost predicate EntriesCurrent(heap: Heap, runtime: Runtime, generations: Generations) {
    forall t :: t in runtime ==>
      && runtime[t] in heap
      && heap[runtime[t]].tab == t
      && heap[runtime[t]].generation == GenerationIn(generations, t)
  }

  ghost predicate SessionsDistinct(heap: Heap, starts: Starts, made: set<SessionId>, open: set<SessionId>) {
    && open <= made
    && (forall h :: h in heap && heap[h].session.Some? ==> heap[h].session.value in made)
    && (forall op :: op in starts && Held(starts[op]).Some? ==> Held(starts[op]).value in made)
    && (forall h, k :: h in heap && k in heap && h != k && heap[h].session.Some? ==> heap[h].session != heap[k].session)
    && (forall p, q :: p in starts && q in starts && p != q && Held(starts[p]).Some? ==>
      Held(starts[p]) != Held(starts[q]))
    && (forall h, op :: h in heap && op in starts && heap[h].session.Some? ==> heap[h].session != Held(starts[op]))
  }

  /** The tab of a start still has an entry, of the same conversation; an entry
      of the start's own generation has no session yet. */
  ghost predicate StartTracked(heap: Heap, runtime: Runtime, generations: Generations, start: Start) {
    && start.tab in runtime
    && runtime[start.tab] in heap
    && heap[runtime[start.tab]].conv == start.conv
    && start.generation <= GenerationIn(generations, start.tab)
    && (heap[runtime[start.tab]].generation == start.generation ==> heap[runtime[start.tab]].session.None?)
  }

  ghost predicate StartsTracked(heap: Heap, runtime: Runtime, generations: Generations, starts: Starts) {
    forall op :: op in starts ==> StartTracked(heap, runtime, generations, starts[op])
  }

  ghost predicate StartsDistinct(starts: Starts) {
    forall p, q :: p in starts && q in starts && p != q && starts[p].tab == starts[q].tab ==>
      starts[p].generation != starts[q].generation
  }

  ghost predicate CloseSound(heap: Heap, runtime: Runtime, closed: set<Handle>, t: TabId, op: CloseOp) {
    && (t in runtime ==> op.entry == Some(runtime[t]) && !op.phase.CloseDone?)
    && (op.entry.Some? ==> op.entry.value in heap && heap[op.entry.value].tab == t)
    && (op.phase.ClosingSession? ==> op.entry.Some? && heap[op.entry.value].session == Some(op.phase.session))
    && (!op.phase.CloseDone? ==> op.id !in closed)
  }

  ghost predicate ClosesSound(heap: Heap, runtime: Runtime, closes: Closes, closed: set<Handle>) {
    forall t :: t in closes ==> CloseSound(heap, runtime, closed, t, closes[t])
  }

  /** Past its settling phase a close has outlived every start of its tab. */
  ghost predicate ClosesWaited(starts: Starts, closes: Closes) {
    forall op :: op in starts && starts[op].tab in closes ==> closes[starts[op].tab].phase.Settling?
  }

  ghost predicate ClosesDistinct(closes: Closes) {
    forall t, u :: t in closes && u in closes && t != u ==> closes[t].id != closes[u].id
  }

  ghost predicate RestartSound(heap: Heap, t: TabId, op: RestartOp) {
    && op.entry in heap
    && heap[op.entry].tab == t
    && (op.phase.RestartClosing? ==> heap[op.entry].session == Some(op.phase.session))
  }

  ghost predicate RestartsSound(heap: Heap, restarts: Restarts) {
    forall t :: t in restarts ==> RestartSound(heap, t, restarts[t])
  }

  ghost predicate AllSound(all: AllPhase, starts: Starts, runtime: Runtime) {
    && (all.AllSettled? || all.AllSecond? || all.AllDone? ==> starts == map[])
    && (all.AllDone? ==> runtime == map[])
  }

  ghost predicate ConvsSound(heap: Heap, runtime: Runtime, closes: Closes, convs: Convs) {
    forall c, t :: c in convs && t in runtime && runtime[t] in heap && heap[runtime[t]].conv == c ==>
      && !convs[c].ConvDone?
      && (convs[c].ConvWaiting? ==> t in closes && closes[t].id in convs[c].ops)
  }

  /** A live tab entry records the session. */
  ghost predicate OwnedByTab(heap: Heap, runtime: Runtime, session: SessionId, t: TabId) {
    t in runtime && runtime[t] in heap && heap[runtime[t]].session == Some(session)
  }

  /** A start still in flight holds the session. */
  ghost predicate OwnedByStart(starts: Starts, session: SessionId, op: Handle) {
    op in starts && Held(starts[op]) == Some(session)
  }

  ghost predicate NothingLost(heap: Heap, runtime: Runtime, starts: Starts, open: set<SessionId>,
      lost: set<SessionId>) {
    forall session :: session in open && session !in lost ==>
      (exists t :: OwnedByTab(heap, runtime, session, t)) || (exists op :: OwnedByStart(starts, session, op))
  }

  ghost predicate Inv(s: State) {
    && HandlesFresh(s.heap, s.starts, s.closes, s.closed, s.convs, s.nextHandle)
    && EntriesCurrent(s.heap, s.runtime, s.generations)
    && SessionsDistinct(s.heap, s.starts, s.made, s.open)
    && StartsTracked(s.heap, s.runtime, s.generations, s.starts)
    && StartsDistinct(s.starts)
    && ClosesSound(s.heap, s.runtime, s.closes, s.closed)
    && ClosesWaited(s.starts, s.closes)
    && ClosesDistinct(s.closes)
    && RestartsSound(s.heap, s.restarts)
    && AllSound(s.all, s.starts, s.runtime)
    && ConvsSound(s.heap, s.runtime, s.closes, s.convs)
    && NothingLost(s.heap, s.runtime, s.starts, s.open, Lost(s))
  }

  // Begin: a new entry and a new start.

  lemma BeginEntries(s: State, tab: TabId, conv: ConvId, mayFallback: bool)
    requires HandlesFresh(s.heap, s.starts, s.closes, s.closed, s.convs, s.nextHandle)
    requires EntriesCurrent(s.heap, s.runtime, s.generations)
    ensures var n := Begin(s, tab, conv, mayFallback);
            EntriesCurrent(n.heap, n.runtime, n.generations)
  {
  }

  lemma BeginTracks(s: State, tab: TabId, conv: ConvId, mayFallback: bool)
    requires HandlesFresh(s.heap, s.starts, s.closes, s.closed, s.convs, s.nextHandle)
    requires EntriesCurrent(s.heap, s.runtime, s.generations)
    requires StartsTracked(s.heap, s.runtime, s.generations, s.starts)
    requires StartsDistinct(s.starts)
    requires tab in s.runtime ==> s.heap[s.runtime[tab]].conv == conv
    ensures var n := Begin(s, tab, conv, mayFallback);
            && StartsTracked(n.heap, n.runtime, n.generations, n.starts)
            && StartsDistinct(n.starts)
  {
    var n := Begin(s, tab, conv, mayFallback);
    forall op | op in n.starts ensures StartTracked(n.heap, n.runtime, n.generations, n.starts[op]) {
      if op in s.starts {
        assert StartTracked(s.heap, s.runtime, s.generations, s.starts[op]);
      }
    }
    forall p, q | p in n.starts && q in n.starts && p != q && n.starts[p].tab == n.starts[q].tab
      ensures n.starts[p].generation != n.starts[q].generation
    {
      if p in s.starts {
        assert StartTracked(s.heap, s.runtime, s.generations, s.starts[p]);
      }
      if q in s.starts {
        assert StartTracked(s.heap, s.runtime, s.generations, s.starts[q]);
      }
    }
  }

  lemma BeginSessions(s: State, tab: TabId, conv: ConvId, mayFallback: bool)
    requires HandlesFresh(s.heap, s.starts, s.closes, s.closed, s.convs, s.nextHandle)
    requires SessionsDistinct(s.heap, s.starts, s.made, s.open)
    ensures var n := Begin(s, tab, conv, mayFallback);
            && HandlesFresh(n.heap, n.starts, n.closes, n.closed, n.convs, n.nextHandle)
            && SessionsDistinct(n.heap, n.starts, n.made, n.open)
  {
  }

  lemma BeginCloses(s: State, tab: TabId, conv: ConvId, mayFallback: bool)
    requires ClosesSound(s.heap, s.runtime, s.closes, s.closed) && ClosesWaited(s.starts, s.closes)
    requires RestartsSound(s.heap, s.restarts) && ConvsSound(s.heap, s.runtime, s.closes, s.convs)
    requires HandlesFresh(s.heap, s.starts, s.closes, s.closed, s.convs, s.nextHandle) && !Blocked(s, tab, conv)
    requires EntriesCurrent(s.heap, s.runtime, s.generations)
    ensures var n := Begin(s, tab, conv, mayFallback);
            && ClosesSound(n.heap, n.runtime, n.closes, n.closed)
            && ClosesWaited(n.starts, n.closes)
            && RestartsSound(n.heap, n.restarts)
            && ConvsSound(n.heap, n.runtime, n.closes, n.convs)
  {
  }

  lemma BeginLosesNothing(s: State, tab: TabId, conv: ConvId, mayFallback: bool)
    requires NothingLost(s.heap, s.runtime, s.starts, s.open, Lost(s))
    requires HandlesFresh(s.heap, s.starts, s.closes, s.closed, s.convs, s.nextHandle)
    requires tab in s.runtime ==> s.runtime[tab] in s.heap
    requires tab in s.runtime && s.heap[s.runtime[tab]].session.Some? ==>
      s.heap[s.runtime[tab]].session.value !in s.open - Lost(s)
    ensures var n := Begin(s, tab, conv, mayFallback);
            NothingLost(n.heap, n.runtime, n.starts, n.open, Lost(n))
  {
    var n := Begin(s, tab, conv, mayFallback);
    forall session | session in n.open && session !in Lost(n)
      ensures (exists t :: OwnedByTab(n.heap, n.runtime, session, t))
        || (exists op :: OwnedByStart(n.starts, session, op))
    {
      if t :| OwnedByTab(s.heap, s.runtime, session, t) {
        assert OwnedByTab(n.heap, n.runtime, session, t);
      } else {
        var op :| OwnedByStart(s.starts, session, op);
        assert OwnedByStart(n.starts, session, op);
      }
    }
  }

  lemma BeginKeeps(s: State, tab: TabId, conv: ConvId, mayFallback: bool)
    requires Inv(s) && !Blocked(s, tab, conv)
    requires tab in s.runtime ==>
      && s.heap[s.runtime[tab]].conv == conv
      && (s.heap[s.runtime[tab]].session.Some? ==> s.heap[s.runtime[tab]].session.value !in s.open - Lost(s))
    ensures Inv(Begin(s, tab, conv, mayFallback))
  {
    hide HandlesFresh, SessionsDistinct, StartsTracked, StartsDistinct, ClosesSound, ClosesWaited, ClosesDistinct;
    hide RestartsSound, ConvsSound, NothingLost;
    BeginEntries(s, tab, conv, mayFallback);
    BeginTracks(s, tab, conv, mayFallback);
    BeginSessions(s, tab, conv, mayFallback);
    BeginCloses(s, tab, conv, mayFallback);
    BeginLosesNothing(s, tab, conv, mayFallback);
  }

  // Changes to entries that touch neither their session nor their place.

  ghost predicate SameShape(heap: Heap, heap': Heap) {
    && heap.Keys == heap'.Keys
    && forall h :: h in heap ==>
      heap[h].tab == heap'[h].tab && heap[h].conv == heap'[h].conv && heap[h].session == heap'[h].session
  }

  lemma ReshapeTracks(s: State, heap: Heap, generations: Generations)
    requires StartsTracked(s.heap, s.runtime, s.generations, s.starts) && SameShape(s.heap, heap)
    requires EntriesCurrent(s.heap, s.runtime, s.generations) && EntriesCurrent(heap, s.runtime, generations)
    requires forall t :: Generation(s, t) <= GenerationIn(generations, t)
    ensures StartsTracked(heap, s.runtime, generations, s.starts)
  {
    forall op | op in s.starts ensures StartTracked(heap, s.runtime, generations, s.starts[op]) {
      assert StartTracked(s.heap, s.runtime, s.generations, s.starts[op]);
    }
  }

  lemma ReshapeOwners(s: State, heap: Heap)
    requires NothingLost(s.heap, s.runtime, s.starts, s.open, Lost(s))
    requires ConvsSound(s.heap, s.runtime, s.closes, s.convs) && SameShape(s.heap, heap)
    ensures NothingLost(heap, s.runtime, s.starts, s.open, Lost(s))
    ensures ConvsSound(heap, s.runtime, s.closes, s.convs)
  {
    forall session | session in s.open && session !in Lost(s)
      ensures (exists t :: OwnedByTab(heap, s.runtime, session, t))
        || (exists op :: OwnedByStart(s.starts, session, op))
    {
      if t :| OwnedByTab(s.heap, s.runtime, session, t) {
        assert OwnedByTab(heap, s.runtime, session, t);
      }
    }
  }

  lemma ReshapeSessions(s: State, heap: Heap)
    requires SessionsDistinct(s.heap, s.starts, s.made, s.open) && ClosesSound(s.heap, s.runtime, s.closes, s.closed)
    requires RestartsSound(s.heap, s.restarts) && SameShape(s.heap, heap)
    ensures SessionsDistinct(heap, s.starts, s.made, s.open)
    ensures ClosesSound(heap, s.runtime, s.closes, s.closed)
    ensures RestartsSound(heap, s.restarts)
  {
    forall t | t in s.closes ensures CloseSound(heap, s.runtime, s.closed, t, s.closes[t]) {
      assert CloseSound(s.heap, s.runtime, s.closed, t, s.closes[t]);
    }
    forall t | t in s.restarts ensures RestartSound(heap, t, s.restarts[t]) {
      assert RestartSound(s.heap, t, s.restarts[t]);
    }
  }

  lemma ReshapeKeeps(s: State, heap: Heap, generations: Generations)
    requires Inv(s) && SameShape(s.heap, heap)
    requires EntriesCurrent(heap, s.runtime, generations)
    requires forall t :: Generation(s, t) <= GenerationIn(generations, t)
    ensures Inv(s.(heap := heap, generations := generations))
  {
    hide EntriesCurrent, SessionsDistinct, StartsTracked, StartsDistinct, ClosesSound, ClosesWaited, ClosesDistinct;
    hide RestartsSound, AllSound, ConvsSound, NothingLost;
    ReshapeTracks(s, heap, generations);
    ReshapeOwners(s, heap);
    ReshapeSessions(s, heap);
  }

  lemma InvalidateKeeps(s: State, tab: TabId)
    requires Inv(s)
    ensures Inv(Invalidate(s, tab))
  {
    hide HandlesFresh, SessionsDistinct, StartsTracked, StartsDistinct, ClosesSound, ClosesWaited, ClosesDistinct;
    hide RestartsSound, AllSound, ConvsSound, NothingLost;
    var n := Invalidate(s, tab);
    ReshapeKeeps(s, n.heap, n.generations);
  }

  lemma InvalidateAllKeeps(s: State)
    requires Inv(s)
    ensures Inv(InvalidateAll(s))
  {
    hide HandlesFresh, SessionsDistinct, StartsTracked, StartsDistinct, ClosesSound, ClosesWaited, ClosesDistinct;
    hide RestartsSound, AllSound, ConvsSound, NothingLost;
    var n := InvalidateAll(s);
    ReshapeKeeps(s, n.heap, n.generations);
  }

  lemma StatusKeeps(s: State, h: Handle, status: Status)
    requires Inv(s) && h in s.heap
    ensures Inv(s.(heap := s.heap[h := s.heap[h].(status := status)]))
  {
    hide HandlesFresh, SessionsDistinct, StartsTracked, StartsDistinct, ClosesSound, ClosesWaited, ClosesDistinct;
    hide RestartsSound, AllSound, ConvsSound, NothingLost;
    ReshapeKeeps(s, s.heap[h := s.heap[h].(status := status)], s.generations);
  }

  // Phases of a start.

  /** Some starts end or change phase; none begins. */
  ghost predicate FewerStarts(starts: Starts, starts': Starts) {
    && starts'.Keys <= starts.Keys
    && forall op :: op in starts' ==>
      starts'[op].tab == starts[op].tab && starts'[op].conv == starts[op].conv
        && starts'[op].generation == starts[op].generation
  }

  lemma FewerStartsTrack(s: State, starts: Starts)
    requires StartsTracked(s.heap, s.runtime, s.generations, s.starts) && StartsDistinct(s.starts)
    requires ClosesWaited(s.starts, s.closes) && FewerStarts(s.starts, starts)
    ensures StartsTracked(s.heap, s.runtime, s.generations, starts) && StartsDistinct(starts)
    ensures ClosesWaited(starts, s.closes)
  {
    forall p | p in starts ensures StartTracked(s.heap, s.runtime, s.generations, starts[p]) {
      assert StartTracked(s.heap, s.runtime, s.generations, s.starts[p]);
    }
  }

  lemma FewerStartsPhase(s: State, starts: Starts)
    requires HandlesFresh(s.heap, s.starts, s.closes, s.closed, s.convs, s.nextHandle)
    requires AllSound(s.all, s.starts, s.runtime) && FewerStarts(s.starts, starts)
    ensures HandlesFresh(s.heap, starts, s.closes, s.closed, s.convs, s.nextHandle)
    ensures AllSound(s.all, starts, s.runtime)
  {
  }

  lemma FewerStartsKeep(s: State, starts: Starts)
    requires Inv(s) && FewerStarts(s.starts, starts)
    requires SessionsDistinct(s.heap, starts, s.made, s.open)
    requires NothingLost(s.heap, s.runtime, starts, s.open, Lost(s))
    ensures Inv(s.(starts := starts))
  {
    hide HandlesFresh, EntriesCurrent, SessionsDistinct, StartsTracked, StartsDistinct, ClosesSound, ClosesWaited;
    hide ClosesDistinct, RestartsSound, AllSound, ConvsSound, NothingLost;
    FewerStartsTrack(s, starts);
    FewerStartsPhase(s, starts);
  }

  lemma SetStartKeeps(s: State, op: Handle, phase: StartPhase)
    requires Inv(s) && op in s.starts
    requires Held(s.starts[op].(phase := phase)) == Held(s.starts[op])
    ensures Inv(SetStart(s, op, phase))
  {
    hide HandlesFresh, EntriesCurrent, SessionsDistinct, StartsTracked, StartsDistinct, ClosesSound, ClosesWaited;
    hide ClosesDistinct, RestartsSound, AllSound, ConvsSound, NothingLost;
    var starts := s.starts[op := s.starts[op].(phase := phase)];
    SameHoldersSuffice(s, starts);
    FewerStartsKeep(s, starts);
  }

  lemma SameHoldersSuffice(s: State, starts: Starts)
    requires SessionsDistinct(s.heap, s.starts, s.made, s.open)
    requires NothingLost(s.heap, s.runtime, s.starts, s.open, Lost(s))
    requires starts.Keys == s.starts.Keys
    requires forall p :: p in starts ==> Held(starts[p]) == Held(s.starts[p])
    ensures SessionsDistinct(s.heap, starts, s.made, s.open)
    ensures NothingLost(s.heap, s.runtime, starts, s.open, Lost(s))
  {
    forall session | session in s.open && session !in Lost(s)
      ensures (exists t :: OwnedByTab(s.heap, s.runtime, session, t)) || (exists p :: OwnedByStart(starts, session, p))
    {
      if p :| OwnedByStart(s.starts, session, p) {
        assert OwnedByStart(starts, session, p);
      }
    }
  }

  lemma EndStartKeeps(s: State, op: Handle)
    requires Inv(s) && op in s.starts
    requires Held(s.starts[op]).Some? ==> Held(s.starts[op]).value !in s.open - Lost(s)
    ensures Inv(EndStart(s, op))
  {
    hide HandlesFresh, EntriesCurrent, SessionsDistinct, StartsTracked, StartsDistinct, ClosesSound, ClosesWaited;
    hide ClosesDistinct, RestartsSound, AllSound, ConvsSound, NothingLost;
    EndedHolderSuffices(s, op);
    FewerStartsKeep(s, s.starts - {op});
  }

  lemma EndedHolderSuffices(s: State, op: Handle)
    requires SessionsDistinct(s.heap, s.starts, s.made, s.open)
    requires NothingLost(s.heap, s.runtime, s.starts, s.open, Lost(s))
    requires op in s.starts && (Held(s.starts[op]).Some? ==> Held(s.starts[op]).value !in s.open - Lost(s))
    ensures SessionsDistinct(s.heap, s.starts - {op}, s.made, s.open)
    ensures NothingLost(s.heap, s.runtime, s.starts - {op}, s.open, Lost(s))
  {
    var starts := s.starts - {op};
    forall session | session in s.open && session !in Lost(s)
      ensures (exists t :: OwnedByTab(s.heap, s.runtime, session, t)) || (exists p :: OwnedByStart(starts, session, p))
    {
      if p :| OwnedByStart(s.starts, session, p) {
        assert OwnedByStart(starts, session, p);
      }
    }
  }

  lemma ShutKeeps(s: State, session: SessionId, gone: bool)
    requires Inv(s)
    ensures Inv(Shut(s, session, gone)) && SameTables(s, Shut(s, session, gone))
  {
  }

  /** A session that is still open when its owner goes is on record. */
  lemma ReleasedKeeps(s: State, session: Option<SessionId>)
    requires Inv(s)
    ensures var n := Released(s, session);
      Inv(n) && SameTables(s, n) && (session.Some? ==> session.value !in n.open - Lost(n))
  {
  }

  lemma ClosedKeeps(s: State, session: SessionId, gone: bool)
    requires Inv(s)
    ensures var n := Closed(s, session, gone);
      Inv(n) && SameTables(s, n) && session !in n.open - Lost(n)
  {
    hide Inv, Shut, Released;
    ShutKeeps(s, session, gone);
    ReleasedKeeps(Shut(s, session, gone), Some(session));
  }

  /** Only the server's sets may differ. */
  predicate SameTables(s: State, n: State) {
    n == s.(open := n.open, abandoned := n.abandoned, spared := n.spared)
  }

  lemma ServerCreatesKeeps(s: State, op: Handle, session: SessionId)
    requires Inv(s)
    ensures Inv(ServerCreates(s, op, session))
  {
    hide HandlesFresh, EntriesCurrent, SessionsDistinct, StartsTracked, StartsDistinct, ClosesSound, ClosesWaited;
    hide ClosesDistinct, RestartsSound, AllSound, ConvsSound, NothingLost;
    if op in s.starts && s.starts[op].phase == Creating(None) && session !in s.made {
      var n := ServerCreates(s, op, session);
      FewerStartsTrack(s, n.starts);
      FewerStartsPhase(s, n.starts);
      ServerCreatesSessions(s, op, session);
      ServerCreatesOwns(s, op, session);
    }
  }

  lemma ServerCreatesSessions(s: State, op: Handle, session: SessionId)
    requires SessionsDistinct(s.heap, s.starts, s.made, s.open)
    requires op in s.starts && s.starts[op].phase == Creating(None) && session !in s.made
    ensures var n := ServerCreates(s, op, session); SessionsDistinct(n.heap, n.starts, n.made, n.open)
  {
  }

  lemma ServerCreatesOwns(s: State, op: Handle, session: SessionId)
    requires NothingLost(s.heap, s.runtime, s.starts, s.open, Lost(s))
    requires op in s.starts && s.starts[op].phase == Creating(None) && session !in s.made
    ensures var n := ServerCreates(s, op, session);
            NothingLost(n.heap, n.runtime, n.starts, n.open, Lost(n))
  {
    var n := ServerCreates(s, op, session);
    forall other | other in n.open && other !in Lost(n)
      ensures (exists t :: OwnedByTab(n.heap, n.runtime, other, t)) || (exists p :: OwnedByStart(n.starts, other, p))
    {
      if other == session {
        assert OwnedByStart(n.starts, other, op);
      } else if p :| OwnedByStart(s.starts, other, p) {
        assert OwnedByStart(n.starts, other, p);
      }
    }
  }

  /** The descriptor arrives in time: the tab's entry takes the session over. */
  lemma AdoptKeeps(s: State, op: Handle)
    requires Inv(s) && op in s.starts && s.starts[op].phase.Creating? && s.starts[op].phase.made.Some?
    requires !Stale(s, s.starts[op])
    ensures Inv(CreateReturns(s, op))
  {
    StartIsTracked(s, op);
    hide HandlesFresh, EntriesCurrent, SessionsDistinct, StartsTracked, StartsDistinct, ClosesSound, ClosesWaited;
    hide ClosesDistinct, RestartsSound, AllSound, ConvsSound, NothingLost;
    AdoptTracks(s, op);
    AdoptSessions(s, op);
    AdoptCloses(s, op);
    AdoptOwns(s, op);
    AdoptPhase(s, op);
  }

  lemma AdoptPhase(s: State, op: Handle)
    requires HandlesFresh(s.heap, s.starts, s.closes, s.closed, s.convs, s.nextHandle)
    requires AllSound(s.all, s.starts, s.runtime)
    requires op in s.starts && s.starts[op].phase.Creating? && s.starts[op].phase.made.Some?
    requires !Stale(s, s.starts[op])
    ensures var n := CreateReturns(s, op);
            && HandlesFresh(n.heap, n.starts, n.closes, n.closed, n.convs, n.nextHandle)
            && AllSound(n.all, n.starts, n.runtime)
  {
  }

  lemma StartIsTracked(s: State, op: Handle)
    requires Inv(s) && op in s.starts
    ensures StartTracked(s.heap, s.runtime, s.generations, s.starts[op])
  {
  }

  lemma AdoptTracks(s: State, op: Handle)
    requires EntriesCurrent(s.heap, s.runtime, s.generations)
    requires StartsTracked(s.heap, s.runtime, s.generations, s.starts) && StartsDistinct(s.starts)
    requires op in s.starts && s.starts[op].phase.Creating? && s.starts[op].phase.made.Some?
    requires !Stale(s, s.starts[op])
    ensures var n := CreateReturns(s, op);
            && EntriesCurrent(n.heap, n.runtime, n.generations)
            && StartsTracked(n.heap, n.runtime, n.generations, n.starts)
            && StartsDistinct(n.starts)
  {
    var n := CreateReturns(s, op);
    forall p | p in n.starts ensures StartTracked(n.heap, n.runtime, n.generations, n.starts[p]) {
      assert StartTracked(s.heap, s.runtime, s.generations, s.starts[p]);
      assert StartTracked(s.heap, s.runtime, s.generations, s.starts[op]);
      if s.starts[p].tab == s.starts[op].tab {
        assert s.starts[p].generation != s.starts[op].generation;
      } else {
        assert s.heap[s.runtime[s.starts[p].tab]].tab == s.starts[p].tab;
      }
    }
  }

  lemma AdoptSessions(s: State, op: Handle)
    requires SessionsDistinct(s.heap, s.starts, s.made, s.open)
    requires op in s.starts && s.starts[op].phase.Creating? && s.starts[op].phase.made.Some?
    requires !Stale(s, s.starts[op])
    ensures var n := CreateReturns(s, op);
            SessionsDistinct(n.heap, n.starts, n.made, n.open)
  {
  }

  lemma AdoptCloses(s: State, op: Handle)
    requires ClosesSound(s.heap, s.runtime, s.closes, s.closed) && ClosesWaited(s.starts, s.closes)
    requires RestartsSound(s.heap, s.restarts)
    requires ConvsSound(s.heap, s.runtime, s.closes, s.convs)
    requires op in s.starts && s.starts[op].phase.Creating? && s.starts[op].phase.made.Some?
    requires !Stale(s, s.starts[op]) && StartTracked(s.heap, s.runtime, s.generations, s.starts[op])
    ensures var n := CreateReturns(s, op);
            && ClosesSound(n.heap, n.runtime, n.closes, n.closed)
            && ClosesWaited(n.starts, n.closes)
            && RestartsSound(n.heap, n.restarts)
            && ConvsSound(n.heap, n.runtime, n.closes, n.convs)
  {
    var n := CreateReturns(s, op);
    forall t | t in n.closes ensures CloseSound(n.heap, n.runtime, n.closed, t, n.closes[t]) {
      assert CloseSound(s.heap, s.runtime, s.closed, t, s.closes[t]);
    }
    forall t | t in n.restarts ensures RestartSound(n.heap, t, n.restarts[t]) {
      assert RestartSound(s.heap, t, s.restarts[t]);
    }
  }

  lemma AdoptOwns(s: State, op: Handle)
    requires NothingLost(s.heap, s.runtime, s.starts, s.open, Lost(s))
    requires op in s.starts && s.starts[op].phase.Creating? && s.starts[op].phase.made.Some?
    requires !Stale(s, s.starts[op]) && StartTracked(s.heap, s.runtime, s.generations, s.starts[op])
    ensures var n := CreateReturns(s, op);
            NothingLost(n.heap, n.runtime, n.starts, n.open, Lost(n))
  {
    var n := CreateReturns(s, op);
    var h := s.runtime[s.starts[op].tab];
    assert n == EndStart(s, op).(heap := n.heap)
      && n.heap == s.heap[h := Adopt(s.heap[h], s.starts[op].phase.made.value)];
    hide CreateReturns, Stale, StartTracked;
    forall other | other in n.open && other !in Lost(n)
      ensures (exists t :: OwnedByTab(n.heap, n.runtime, other, t)) || (exists p :: OwnedByStart(n.starts, other, p))
    {
      if Held(s.starts[op]) == Some(other) {
        assert OwnedByTab(n.heap, n.runtime, other, s.starts[op].tab);
      } else if t :| OwnedByTab(s.heap, s.runtime, other, t) {
        assert OwnedByTab(n.heap, n.runtime, other, t);
      } else {
        var p :| OwnedByStart(s.starts, other, p);
        assert OwnedByStart(n.starts, other, p);
      }
    }
  }

  lemma FallbackKeeps(s: State, op: Handle)
    requires Inv(s) && op in s.starts && s.starts[op].phase == Creating(None) && !Stale(s, s.starts[op])
    ensures Inv(FallBack(s, op))
  {
    hide Inv, SetStart, Begin, DropKept;
    FallbackBegins(s, op);
    SetStartKeeps(FallenBack(s, op), op, FellBack(s.nextHandle + 1));
  }

  /** The start it falls back to is under way; the old one has yet to hear of it. */
  function FallenBack(s: State, op: Handle): State
    requires op in s.starts && !Stale(s, s.starts[op])
  {
    Begin(DropKept(s, s.starts[op].tab), s.starts[op].tab, s.starts[op].conv, false)
  }

  lemma FallbackBegins(s: State, op: Handle)
    requires Inv(s) && op in s.starts && !Stale(s, s.starts[op]) && Held(s.starts[op]).None?
    ensures var n := FallenBack(s, op);
      Inv(n) && op in n.starts && n.starts[op] == s.starts[op]
  {
    var start := s.starts[op];
    StartIsTracked(s, op);
    StartIsOld(s, op);
    hide Inv, Begin, DropKept, Stale;
    DropKeeps(s, start.tab);
    var d := DropKept(s, start.tab);
    assert !Blocked(d, start.tab, start.conv);
    BeginKeeps(d, start.tab, start.conv, false);
    BeginStarts(d, start.tab, start.conv, false, op);
  }

  lemma StartIsOld(s: State, op: Handle)
    requires Inv(s) && op in s.starts
    ensures op < s.nextHandle
  {
  }

  lemma DropKeeps(s: State, tab: TabId)
    requires Inv(s) && tab in s.runtime && s.runtime[tab] in s.heap
    ensures Inv(DropKept(s, tab))
    ensures var n := DropKept(s, tab); n == s.(output := n.output)
  {
    hide Inv;
    OutputKeeps(s, DropKept(s, tab).output);
  }

  lemma BeginStarts(s: State, tab: TabId, conv: ConvId, mayFallback: bool, op: Handle)
    requires op in s.starts && op < s.nextHandle
    ensures var n := Begin(s, tab, conv, mayFallback);
      op in n.starts && n.starts[op] == s.starts[op]
  {
  }

  /** The invariant does not look at the channels. */
  lemma OutputKeeps(s: State, output: Logs)
    requires Inv(s)
    ensures Inv(s.(output := output))
  {
    hide HandlesFresh, EntriesCurrent, SessionsDistinct, StartsTracked, StartsDistinct, ClosesSound, ClosesWaited;
    hide ClosesDistinct, RestartsSound, AllSound, ConvsSound, NothingLost;
    var n := s.(output := output);
    assert HandlesFresh(n.heap, n.starts, n.closes, n.closed, n.convs, n.nextHandle);
    assert AllSound(n.all, n.starts, n.runtime);
  }

  lemma AbandonKeeps(s: State, op: Handle)
    requires Inv(s)
    ensures Inv(Abandon(s, op))
  {
    hide Inv;
    if op in s.starts && s.starts[op].phase.Creating? && s.starts[op].phase.made.Some? {
      var session := s.starts[op].phase.made.value;
      RecordKeeps(s, session);
      LetGoKeeps(s.(abandoned := s.abandoned + {session}), op);
    }
  }

  lemma RecordKeeps(s: State, session: SessionId)
    requires Inv(s)
    ensures Inv(s.(abandoned := s.abandoned + {session}))
  {
  }

  /** A start may let go of a session that is not open or that is on record as lost. */
  lemma LetGoKeeps(s: State, op: Handle)
    requires Inv(s) && op in s.starts
    requires Held(s.starts[op]).Some? ==> Held(s.starts[op]).value !in s.open - Lost(s)
    ensures Inv(SetStart(s, op, Creating(None)))
  {
    hide HandlesFresh, EntriesCurrent, SessionsDistinct, StartsTracked, StartsDistinct, ClosesSound, ClosesWaited;
    hide ClosesDistinct, RestartsSound, AllSound, ConvsSound, NothingLost;
    var starts := s.starts[op := s.starts[op].(phase := Creating(None))];
    LetGoSuffices(s, op);
    FewerStartsKeep(s, starts);
  }

  lemma LetGoSuffices(s: State, op: Handle)
    requires SessionsDistinct(s.heap, s.starts, s.made, s.open)
    requires NothingLost(s.heap, s.runtime, s.starts, s.open, Lost(s))
    requires op in s.starts && (Held(s.starts[op]).Some? ==> Held(s.starts[op]).value !in s.open - Lost(s))
    ensures var starts := s.starts[op := s.starts[op].(phase := Creating(None))];
      && SessionsDistinct(s.heap, starts, s.made, s.open)
      && NothingLost(s.heap, s.runtime, starts, s.open, Lost(s))
  {
    var starts := s.starts[op := s.starts[op].(phase := Creating(None))];
    forall session | session in s.open && session !in Lost(s)
      ensures (exists t :: OwnedByTab(s.heap, s.runtime, session, t))
        || (exists p :: OwnedByStart(starts, session, p))
    {
      if p :| OwnedByStart(s.starts, session, p) {
        assert OwnedByStart(starts, session, p);
      }
    }
  }

  lemma CreateFailsKeeps(s: State, op: Handle, elsewhere: bool)
    requires Inv(s)
    ensures Inv(CreateFails(s, op, elsewhere))
  {
    hide Inv, Abandon, CreateRejects;
    AbandonKeeps(s, op);
    CreateRejectsKeeps(Abandon(s, op), op, elsewhere);
  }

  lemma CreateRejectsKeeps(s: State, op: Handle, elsewhere: bool)
    requires Inv(s)
    ensures Inv(CreateRejects(s, op, elsewhere))
  {
    hide Inv, FallBack;
    if op in s.starts && s.starts[op].phase == Creating(None) {
      if !Stale(s, s.starts[op]) && s.starts[op].mayFallback && elsewhere {
        FallbackKeeps(s, op);
      } else {
        EndStartKeeps(s, op);
        if !Stale(s, s.starts[op]) {
          StatusKeeps(EndStart(s, op), s.runtime[s.starts[op].tab], Failed);
        }
      }
    }
  }

  lemma RunStartKeeps(s: State, op: Handle)
    requires Inv(s)
    ensures Inv(RunStart(s, op))
  {
    hide Inv;
    if op in s.starts && s.starts[op].phase.Queued? {
      EndStartKeeps(s, op);
      SetStartKeeps(s, op, Creating(None));
    }
  }

  lemma CreateReturnsKeeps(s: State, op: Handle)
    requires Inv(s)
    ensures Inv(CreateReturns(s, op))
  {
    hide Inv;
    if op in s.starts && s.starts[op].phase.Creating? && s.starts[op].phase.made.Some? {
      if Stale(s, s.starts[op]) {
        SetStartKeeps(s, op, LateClose(s.starts[op].phase.made.value));
      } else {
        AdoptKeeps(s, op);
      }
    }
  }

  lemma LateCloseReturnsKeeps(s: State, op: Handle, gone: bool)
    requires Inv(s)
    ensures Inv(LateCloseReturns(s, op, gone))
  {
    hide Inv, EndStart, Closed;
    if op in s.starts && s.starts[op].phase.LateClose? {
      ClosedKeeps(s, s.starts[op].phase.late, gone);
      EndStartKeeps(Closed(s, s.starts[op].phase.late, gone), op);
    }
  }

  lemma FallbackReturnsKeeps(s: State, op: Handle)
    requires Inv(s)
    ensures Inv(FallbackReturns(s, op))
  {
    hide Inv;
    if op in s.starts && s.starts[op].phase.FellBack? {
      EndStartKeeps(s, op);
    }
  }

  // Closing one tab.

  lemma CloseTabKeeps(s: State, tab: TabId)
    requires Inv(s)
    ensures Inv(CloseTab(s, tab))
  {
    hide Inv, Invalidate;
    var s1 := s.(tokens := s.tokens - {tab});
    TokensKeep(s, s1.tokens, s.nextHandle);
    if tab !in s.closes {
      InvalidateKeeps(s1, tab);
      InvalidateTables(s1, tab);
      OpenCloseKeeps(Invalidate(s1, tab), tab);
    }
  }

  lemma InvalidateTables(s: State, tab: TabId)
    ensures var n := Invalidate(s, tab);
      n.runtime == s.runtime && n.closes == s.closes && n.nextHandle == s.nextHandle
  {
  }

  lemma OpenCloseKeeps(s: State, tab: TabId)
    requires Inv(s) && tab !in s.closes
    ensures var entry := if tab in s.runtime then Some(s.runtime[tab]) else None;
            Inv(s.(closes := s.closes[tab := CloseOp(s.nextHandle, entry, Settling)], nextHandle := s.nextHandle + 1))
  {
    var entry := if tab in s.runtime then Some(s.runtime[tab]) else None;
    var n := s.(closes := s.closes[tab := CloseOp(s.nextHandle, entry, Settling)], nextHandle := s.nextHandle + 1);
    OpenCloseSound(s, tab);
    hide EntriesCurrent, SessionsDistinct, StartsTracked, StartsDistinct, ClosesSound, ClosesWaited, ClosesDistinct;
    hide RestartsSound, ConvsSound, NothingLost;
    assert HandlesFresh(n.heap, n.starts, n.closes, n.closed, n.convs, n.nextHandle);
    assert AllSound(n.all, n.starts, n.runtime);
  }

  lemma OpenCloseSound(s: State, tab: TabId)
    requires HandlesFresh(s.heap, s.starts, s.closes, s.closed, s.convs, s.nextHandle)
      && EntriesCurrent(s.heap, s.runtime, s.generations)
    requires ClosesSound(s.heap, s.runtime, s.closes, s.closed) && ClosesWaited(s.starts, s.closes)
      && ClosesDistinct(s.closes)
    requires ConvsSound(s.heap, s.runtime, s.closes, s.convs)
    requires tab !in s.closes
    ensures var entry := if tab in s.runtime then Some(s.runtime[tab]) else None;
            var closes := s.closes[tab := CloseOp(s.nextHandle, entry, Settling)];
            && ClosesSound(s.heap, s.runtime, closes, s.closed)
            && ClosesWaited(s.starts, closes)
            && ClosesDistinct(closes)
            && ConvsSound(s.heap, s.runtime, closes, s.convs)
  {
  }

  lemma SetCloseKeeps(s: State, tab: TabId, phase: ClosePhase)
    requires Inv(s) && tab in s.closes && !phase.CloseDone? && !s.closes[tab].phase.CloseDone?
    requires !StartsOf(s, tab)
    requires phase.ClosingSession? ==>
      && s.closes[tab].entry.Some?
      && s.closes[tab].entry.value in s.heap
      && s.heap[s.closes[tab].entry.value].session == Some(phase.session)
    ensures Inv(SetClose(s, tab, phase))
  {
    var n := SetClose(s, tab, phase);
    SetCloseSound(s, tab, phase);
    hide EntriesCurrent, SessionsDistinct, StartsTracked, StartsDistinct, ClosesSound, ClosesWaited, ClosesDistinct;
    hide RestartsSound, ConvsSound, NothingLost;
    assert HandlesFresh(n.heap, n.starts, n.closes, n.closed, n.convs, n.nextHandle);
    assert AllSound(n.all, n.starts, n.runtime);
  }

  lemma SetCloseSound(s: State, tab: TabId, phase: ClosePhase)
    requires ClosesSound(s.heap, s.runtime, s.closes, s.closed) && ClosesWaited(s.starts, s.closes)
      && ClosesDistinct(s.closes)
    requires ConvsSound(s.heap, s.runtime, s.closes, s.convs)
    requires tab in s.closes && !phase.CloseDone? && !s.closes[tab].phase.CloseDone?
    requires !StartsOf(s, tab)
    requires phase.ClosingSession? ==>
      && s.closes[tab].entry.Some?
      && s.closes[tab].entry.value in s.heap
      && s.heap[s.closes[tab].entry.value].session == Some(phase.session)
    ensures var n := SetClose(s, tab, phase);
            && ClosesSound(n.heap, n.runtime, n.closes, n.closed)
            && ClosesWaited(n.starts, n.closes)
            && ClosesDistinct(n.closes)
            && ConvsSound(n.heap, n.runtime, n.closes, n.convs)
  {
    var n := SetClose(s, tab, phase);
    forall t | t in n.closes ensures CloseSound(n.heap, n.runtime, n.closed, t, n.closes[t]) {
      assert CloseSound(s.heap, s.runtime, s.closed, t, s.closes[t]);
    }
  }

  lemma CloseSettlesKeeps(s: State, tab: TabId)
    requires Inv(s)
    ensures Inv(CloseSettles(s, tab))
  {
    hide Inv;
    if tab in s.closes && s.closes[tab].phase.Settling? && !StartsOf(s, tab) {
      SetCloseKeeps(s, tab, Settled);
    }
  }

  /** A close past its settling phase: its tab has no start left. */
  lemma WaitedHasNoStarts(s: State, tab: TabId)
    requires Inv(s) && tab in s.closes && !s.closes[tab].phase.Settling?
    ensures !StartsOf(s, tab)
  {
  }

  /** The captured entry goes; its session is already closed, or was never there. */
  lemma FinishCloseKeeps(s: State, tab: TabId)
    requires Inv(s) && tab in s.closes && !s.closes[tab].phase.CloseDone? && !StartsOf(s, tab)
    requires tab in s.runtime && s.heap[s.runtime[tab]].session.Some? ==>
      s.heap[s.runtime[tab]].session.value !in s.open - Lost(s)
    ensures Inv(FinishClose(s, tab))
  {
    var n := FinishClose(s, tab);
    FinishCloseSound(s, tab);
    FinishCloseRuntime(s, tab);
    FinishCloseConvs(s, tab);
    hide EntriesCurrent, SessionsDistinct, StartsTracked, StartsDistinct, ClosesSound, ClosesWaited, ClosesDistinct;
    hide RestartsSound, ConvsSound, NothingLost;
    assert HandlesFresh(n.heap, n.starts, n.closes, n.closed, n.convs, n.nextHandle);
    assert AllSound(n.all, n.starts, n.runtime);
  }

  lemma FinishCloseSound(s: State, tab: TabId)
    requires ClosesSound(s.heap, s.runtime, s.closes, s.closed) && ClosesWaited(s.starts, s.closes)
      && ClosesDistinct(s.closes)
    requires tab in s.closes && !s.closes[tab].phase.CloseDone? && !StartsOf(s, tab)
    ensures var n := FinishClose(s, tab);
            && tab !in n.runtime
            && ClosesSound(n.heap, n.runtime, n.closes, n.closed)
            && ClosesWaited(n.starts, n.closes)
            && ClosesDistinct(n.closes)
  {
    var n := FinishClose(s, tab);
    assert CloseSound(s.heap, s.runtime, s.closed, tab, s.closes[tab]);
    forall t | t in n.closes ensures CloseSound(n.heap, n.runtime, n.closed, t, n.closes[t]) {
      assert CloseSound(s.heap, s.runtime, s.closed, t, s.closes[t]);
    }
  }

  lemma FinishCloseRuntime(s: State, tab: TabId)
    requires EntriesCurrent(s.heap, s.runtime, s.generations)
    requires StartsTracked(s.heap, s.runtime, s.generations, s.starts)
    requires NothingLost(s.heap, s.runtime, s.starts, s.open, Lost(s))
    requires tab in s.closes && !StartsOf(s, tab)
    requires tab in s.runtime && s.heap[s.runtime[tab]].session.Some? ==>
      s.heap[s.runtime[tab]].session.value !in s.open - Lost(s)
    ensures var n := FinishClose(s, tab);
            && EntriesCurrent(n.heap, n.runtime, n.generations)
            && StartsTracked(n.heap, n.runtime, n.generations, n.starts)
            && NothingLost(n.heap, n.runtime, n.starts, n.open, Lost(n))
  {
    var n := FinishClose(s, tab);
    forall op | op in n.starts ensures StartTracked(n.heap, n.runtime, n.generations, n.starts[op]) {
      assert StartTracked(s.heap, s.runtime, s.generations, s.starts[op]);
    }
    forall session | session in n.open && session !in Lost(n)
      ensures (exists t :: OwnedByTab(n.heap, n.runtime, session, t))
        || (exists op :: OwnedByStart(n.starts, session, op))
    {
      if t :| OwnedByTab(s.heap, s.runtime, session, t) {
        assert OwnedByTab(n.heap, n.runtime, session, t);
      }
    }
  }

  lemma FinishCloseConvs(s: State, tab: TabId)
    requires ConvsSound(s.heap, s.runtime, s.closes, s.convs)
    requires tab in s.closes
    ensures var n := FinishClose(s, tab); ConvsSound(n.heap, n.runtime, n.closes, n.convs)
  {
  }

  lemma CloseProceedsKeeps(s: State, tab: TabId)
    requires Inv(s)
    ensures Inv(CloseProceeds(s, tab))
  {
    if tab in s.closes && s.closes[tab].phase.Settled? {
      WaitedHasNoStarts(s, tab);
      var entry := s.closes[tab].entry;
      CloseIsSound(s, tab);
      hide Inv;
      if entry.Some? && s.heap[entry.value].session.Some? {
        SetCloseKeeps(s, tab, ClosingSession(s.heap[entry.value].session.value));
      } else {
        FinishCloseKeeps(s, tab);
      }
    }
  }

  lemma CloseIsSound(s: State, tab: TabId)
    requires Inv(s) && tab in s.closes
    ensures CloseSound(s.heap, s.runtime, s.closed, tab, s.closes[tab])
  {
  }

  lemma CloseReturnsKeeps(s: State, tab: TabId, gone: bool)
    requires Inv(s)
    ensures Inv(CloseReturns(s, tab, gone))
  {
    hide Inv, FinishClose, Closed;
    if tab in s.closes && s.closes[tab].phase.ClosingSession? {
      WaitedHasNoStarts(s, tab);
      CloseIsSound(s, tab);
      ClosedKeeps(s, s.closes[tab].phase.session, gone);
      FinishCloseKeeps(Closed(s, s.closes[tab].phase.session, gone), tab);
    }
  }

  lemma CloseGoes(s: State, tab: TabId)
    requires ClosesSound(s.heap, s.runtime, s.closes, s.closed) && ClosesWaited(s.starts, s.closes)
    requires ClosesDistinct(s.closes) && ConvsSound(s.heap, s.runtime, s.closes, s.convs) && tab !in s.runtime
    ensures var closes := s.closes - {tab};
      && ClosesSound(s.heap, s.runtime, closes, s.closed)
      && ClosesWaited(s.starts, closes)
      && ClosesDistinct(closes)
      && ConvsSound(s.heap, s.runtime, closes, s.convs)
  {
    forall t | t in s.closes - {tab} ensures CloseSound(s.heap, s.runtime, s.closed, t, s.closes[t]) {
      assert CloseSound(s.heap, s.runtime, s.closed, t, s.closes[t]);
    }
  }

  lemma CloseFinallyKeeps(s: State, tab: TabId)
    requires Inv(s)
    ensures Inv(CloseFinally(s, tab))
  {
    if tab in s.closes && s.closes[tab].phase.CloseDone? {
      var n := CloseFinally(s, tab);
      CloseIsSound(s, tab);
      hide EntriesCurrent, SessionsDistinct, StartsTracked, StartsDistinct, ClosesSound, ClosesWaited, ClosesDistinct;
      hide RestartsSound, ConvsSound, NothingLost;
      CloseGoes(s, tab);
      assert HandlesFresh(n.heap, n.starts, n.closes, n.closed, n.convs, n.nextHandle);
      assert AllSound(n.all, n.starts, n.runtime);
    }
  }

  // Restarting a tab.

  lemma SetRestartKeeps(s: State, tab: TabId, op: RestartOp)
    requires Inv(s) && RestartSound(s.heap, tab, op)
    ensures Inv(s.(restarts := s.restarts[tab := op]))
  {
    var n := s.(restarts := s.restarts[tab := op]);
    assert RestartsSound(n.heap, n.restarts);
    hide EntriesCurrent, SessionsDistinct, StartsTracked, StartsDistinct, ClosesSound, ClosesWaited, ClosesDistinct;
    hide RestartsSound, ConvsSound, NothingLost;
  }

  lemma RestartContinuesKeeps(s: State, tab: TabId, entry: Handle, token: Handle, saved: bool)
    requires Inv(s)
    requires entry in s.heap && s.heap[entry].tab == tab
    ensures Inv(RestartContinues(s, tab, entry, token, saved))
  {
    hide Inv, Begin, Released;
    var conv := s.heap[entry].conv;
    if Blocked(s, tab, conv) || tab !in s.tokens || s.tokens[tab] != token
       || tab !in s.runtime || s.runtime[tab] != entry || !saved {
      SetRestartKeeps(s, tab, RestartOp(entry, token, RestartDone));
    } else {
      ReplaceKeeps(s, tab, entry);
      var n := Begin(Released(s, s.heap[entry].session), tab, conv, true);
      SetRestartKeeps(n, tab, RestartOp(entry, token, RestartStarting(s.nextHandle + 1)));
    }
  }

  /** A new start replaces the entry, whose session is on record if it is still open. */
  lemma ReplaceKeeps(s: State, tab: TabId, entry: Handle)
    requires Inv(s) && entry in s.heap && s.heap[entry].tab == tab
    requires !Blocked(s, tab, s.heap[entry].conv) && tab in s.runtime && s.runtime[tab] == entry
    ensures var n := Begin(Released(s, s.heap[entry].session), tab, s.heap[entry].conv, true);
      && Inv(n) && n.restarts == s.restarts
      && entry in n.heap && n.heap[entry] == s.heap[entry]
  {
    HandleIsOld(s, entry);
    ReleasedKeeps(s, s.heap[entry].session);
    hide Inv, Released;
    BeginKeeps(Released(s, s.heap[entry].session), tab, s.heap[entry].conv, true);
  }

  lemma HandleIsOld(s: State, h: Handle)
    requires Inv(s) && h in s.heap
    ensures h < s.nextHandle
  {
  }

  lemma TokensKeep(s: State, tokens: Runtime, nextHandle: Handle)
    requires Inv(s) && s.nextHandle <= nextHandle
    ensures Inv(s.(tokens := tokens, nextHandle := nextHandle))
  {
    var n := s.(tokens := tokens, nextHandle := nextHandle);
    hide EntriesCurrent, SessionsDistinct, StartsTracked, StartsDistinct, ClosesSound, ClosesWaited, ClosesDistinct;
    hide RestartsSound, ConvsSound, NothingLost;
    assert HandlesFresh(n.heap, n.starts, n.closes, n.closed, n.convs, n.nextHandle);
    assert AllSound(n.all, n.starts, n.runtime);
  }

  lemma EntryIsCurrent(s: State, tab: TabId)
    requires Inv(s) && tab in s.runtime
    ensures s.runtime[tab] in s.heap && s.heap[s.runtime[tab]].tab == tab
  {
  }

  lemma BeginRestartKeeps(s: State, tab: TabId)
    requires Inv(s) && tab in s.runtime
    ensures var s1 := TakeToken(s, tab);
            && Inv(s1)
            && s.runtime[tab] in s.heap && s.runtime[tab] in s1.heap
            && s1.heap[s.runtime[tab]].tab == tab
            && s1.heap[s.runtime[tab]].session == s.heap[s.runtime[tab]].session
            && s1.restarts == s.restarts
  {
    EntryIsCurrent(s, tab);
    hide Inv;
    InvalidateKeeps(s, tab);
    TokensKeep(Invalidate(s, tab), s.tokens[tab := s.nextHandle], s.nextHandle + 1);
  }

  lemma RestartTabKeeps(s: State, tab: TabId, saved: bool)
    requires Inv(s)
    ensures Inv(RestartTab(s, tab, saved))
  {
    hide Inv, RestartContinues, TakeToken;
    if tab in s.runtime {
      BeginRestartKeeps(s, tab);
      var h := s.runtime[tab];
      var s1 := TakeToken(s, tab);
      match s.heap[h].session
      case Some(session) => SetRestartKeeps(s1, tab, RestartOp(h, s.nextHandle, RestartClosing(session)));
      case None => RestartContinuesKeeps(s1, tab, h, s.nextHandle, saved);
    }
  }

  lemma RestartIsSound(s: State, tab: TabId)
    requires Inv(s) && tab in s.restarts
    ensures RestartSound(s.heap, tab, s.restarts[tab])
  {
  }

  lemma RestartCloseReturnsKeeps(s: State, tab: TabId, ok: bool, gone: bool, saved: bool)
    requires Inv(s)
    ensures Inv(RestartCloseReturns(s, tab, ok, gone, saved))
  {
    hide Inv, Shut, RestartContinues;
    if tab in s.restarts && s.restarts[tab].phase.RestartClosing? {
      var op := s.restarts[tab];
      RestartIsSound(s, tab);
      ShutKeeps(s, op.phase.session, gone);
      var s1 := Shut(s, op.phase.session, gone);
      if ok {
        RestartContinuesKeeps(s1, tab, op.entry, op.token, saved);
      } else {
        SetRestartKeeps(s1, tab, op.(phase := RestartDone));
        var s2 := s1.(restarts := s.restarts[tab := op.(phase := RestartDone)]);
        StatusKeeps(s2, op.entry, Failed);
      }
    }
  }

  lemma RestartFinallyKeeps(s: State, tab: TabId)
    requires Inv(s)
    ensures Inv(RestartFinally(s, tab))
  {
    var n := RestartFinally(s, tab);
    assert RestartsSound(n.heap, n.restarts);
    hide EntriesCurrent, SessionsDistinct, StartsTracked, StartsDistinct, ClosesSound, ClosesWaited, ClosesDistinct;
    hide RestartsSound, ConvsSound, NothingLost;
    assert HandlesFresh(n.heap, n.starts, n.closes, n.closed, n.convs, n.nextHandle);
    assert AllSound(n.all, n.starts, n.runtime);
  }

  // Closing a conversation.

  lemma ConvsKeep(s: State, convs: Convs)
    requires Inv(s)
    requires ConvsSound(s.heap, s.runtime, s.closes, convs)
    requires forall c, id :: c in convs && convs[c].ConvWaiting? && id in convs[c].ops ==> id < s.nextHandle
    ensures Inv(s.(convs := convs))
  {
    var n := s.(convs := convs);
    hide EntriesCurrent, SessionsDistinct, StartsTracked, StartsDistinct, ClosesSound, ClosesWaited, ClosesDistinct;
    hide RestartsSound, ConvsSound, NothingLost;
    assert HandlesFresh(n.heap, n.starts, n.closes, n.closed, n.convs, n.nextHandle);
    assert AllSound(n.all, n.starts, n.runtime);
  }

  /** Closing a tab leaves the live entries in place and puts the tab in a closing scope. */
  lemma CloseTabShape(s: State, tab: TabId)
    ensures var n := CloseTab(s, tab);
            && n.runtime == s.runtime && n.convs == s.convs
            && SameShape(s.heap, n.heap)
            && n.closes.Keys == s.closes.Keys + {tab}
  {
  }

  lemma {:induction false} CloseTabsKeeps(s: State, tabs: seq<TabId>)
    requires Inv(s)
    ensures var n := CloseTabs(s, tabs);
            && Inv(n)
            && n.runtime == s.runtime && n.convs == s.convs
            && SameShape(s.heap, n.heap)
            && (forall t :: t in tabs ==> t in n.closes)
  {
    hide Inv, CloseTab;
    if tabs != [] {
      var front, last := tabs[..|tabs| - 1], tabs[|tabs| - 1];
      CloseTabsKeeps(s, front);
      CloseTabKeeps(CloseTabs(s, front), last);
      CloseTabShape(CloseTabs(s, front), last);
      assert tabs == front + [last];
    }
  }

  lemma WaitingIsSound(s: State, n: State, conv: ConvId, tabs: seq<TabId>)
    requires HandlesFresh(n.heap, n.starts, n.closes, n.closed, n.convs, n.nextHandle)
    requires ConvsSound(n.heap, n.runtime, n.closes, n.convs) && ListsTabsOf(s, conv, tabs)
    requires n.runtime == s.runtime && SameShape(s.heap, n.heap)
    requires forall t :: t in tabs ==> t in n.closes
    ensures var convs := n.convs[conv := ConvWaiting(AwaitedBy(n.closes, tabs))];
            && ConvsSound(n.heap, n.runtime, n.closes, convs)
            && forall c, id :: c in convs && convs[c].ConvWaiting? && id in convs[c].ops ==> id < n.nextHandle
  {
  }

  lemma ConversationRunsKeeps(s: State, conv: ConvId, tabs: seq<TabId>)
    requires Inv(s)
    ensures Inv(ConversationRuns(s, conv, tabs))
  {
    hide HandlesFresh, EntriesCurrent, SessionsDistinct, StartsTracked, StartsDistinct, ClosesSound, ClosesWaited;
    hide ClosesDistinct, RestartsSound, AllSound, ConvsSound, NothingLost, CloseTabs, ListsTabsOf;
    if conv in s.convs && s.convs[conv].ConvQueued? && ListsTabsOf(s, conv, tabs) {
      CloseTabsKeeps(s, tabs);
      var s1 := CloseTabs(s, tabs);
      WaitingIsSound(s, s1, conv, tabs);
      ConvsKeep(s1, s1.convs[conv := ConvWaiting(AwaitedBy(s1.closes, tabs))]);
    }
  }

  lemma ConversationSettlesKeeps(s: State, conv: ConvId)
    requires Inv(s)
    ensures Inv(ConversationSettles(s, conv))
  {
    if conv in s.convs && s.convs[conv].ConvWaiting? && s.convs[conv].ops <= s.closed {
      var convs := s.convs[conv := ConvDone];
      forall c, t | c in convs && t in s.runtime && s.runtime[t] in s.heap && s.heap[s.runtime[t]].conv == c
        ensures !convs[c].ConvDone?
      {
        if c == conv {
          CloseIsSound(s, t);
          assert false;
        }
      }
      ConvsKeep(s, convs);
    }
  }

  lemma ConversationStepsKeep(s: State, conv: ConvId)
    requires Inv(s)
    ensures Inv(CloseConversation(s, conv))
    ensures Inv(ConversationFinally(s, conv))
  {
    hide EntriesCurrent, SessionsDistinct, StartsTracked, StartsDistinct, ClosesSound, ClosesWaited, ClosesDistinct;
    hide RestartsSound, AllSound, NothingLost;
    if conv !in s.convs {
      ConvsKeep(s, s.convs[conv := ConvQueued]);
    } else if s.convs[conv].ConvDone? {
      ConvsKeep(s, s.convs - {conv});
    }
  }

  // Closing everything.

  lemma PhaseKeeps(s: State, all: AllPhase)
    requires Inv(s) && AllSound(all, s.starts, s.runtime)
    ensures Inv(s.(all := all))
  {
    var n := s.(all := all);
    hide EntriesCurrent, SessionsDistinct, StartsTracked, StartsDistinct, ClosesSound, ClosesWaited, ClosesDistinct;
    hide RestartsSound, ConvsSound, NothingLost;
    assert HandlesFresh(n.heap, n.starts, n.closes, n.closed, n.convs, n.nextHandle);
    assert AllSound(n.all, n.starts, n.runtime);
  }

  lemma CloseAllKeeps(s: State)
    requires Inv(s)
    ensures Inv(CloseAll(s))
  {
    hide Inv, InvalidateAll;
    if s.all.AllIdle? {
      TokensKeep(s, map[], s.nextHandle);
      InvalidateAllKeeps(s.(tokens := map[]));
      InvalidateAllFields(s.(tokens := map[]));
      PhaseKeeps(InvalidateAll(s.(tokens := map[])), AllFirst);
    }
  }

  lemma InvalidateAllFields(s: State)
    ensures var n := InvalidateAll(s);
      n.all == s.all && n.open == s.open && n.starts == s.starts && n.runtime == s.runtime
  {
  }

  lemma AllPhasesKeep(s: State)
    requires Inv(s)
    ensures Inv(AllSettles(s)) && Inv(AllProceeds(s)) && Inv(AllFinally(s))
  {
    assert AllSound(s.all, s.starts, s.runtime);
    hide Inv;
    if s.all.AllSettling? && s.starts == map[] {
      PhaseKeeps(s, AllSettled);
    }
    if s.all.AllSettled? {
      PhaseKeeps(s, AllSecond);
    }
    if s.all.AllDone? {
      PhaseKeeps(s, AllIdle);
    }
  }

  lemma SweepKeeps(s: State, gone: set<SessionId>)
    requires Inv(s)
    ensures Inv(s.(open := s.open - gone))
  {
  }

  /** Every owner goes; whatever is still open is on record. */
  lemma EndedKeeps(s: State)
    requires Inv(s) && s.all.AllSecond?
    ensures Inv(EndedAll(s))
  {
    hide ClearedChannels, LiveChannels;
    var n := EndedAll(s);
    assert s.starts == map[];
    assert ClosesSound(n.heap, n.runtime, n.closes, n.closed) by {
      forall t | t in n.closes ensures CloseSound(n.heap, n.runtime, n.closed, t, n.closes[t]) {
        assert CloseSound(s.heap, s.runtime, s.closed, t, s.closes[t]);
      }
    }
    hide ClosesSound, ClosesDistinct, RestartsSound;
  }

  lemma AllReturnsKeeps(s: State, gone: set<SessionId>)
    requires Inv(s)
    ensures Inv(AllReturns(s, gone))
  {
    assert AllSound(s.all, s.starts, s.runtime);
    hide Inv, EndedAll;
    SweepKeeps(s, gone);
    if s.all.AllFirst? {
      PhaseKeeps(s.(open := s.open - gone), AllSettling);
    } else if s.all.AllSecond? {
      EndedKeeps(s.(open := s.open - gone));
    }
  }

  lemma OpenTabKeeps(s: State, tab: TabId, conv: ConvId)
    requires Inv(s)
    ensures Inv(OpenTab(s, tab, conv))
  {
    hide Inv;
    if tab !in s.runtime && !Blocked(s, tab, conv) {
      BeginKeeps(s, tab, conv, true);
    }
  }

  lemma EventKeeps(s: State, tab: TabId, conv: ConvId, generation: nat, event: TerminalEvent)
    requires Inv(s)
    ensures Inv(Event(s, tab, conv, generation, event))
  {
    if !Blocked(s, tab, conv) && Current(s, tab, generation) {
      if event.Bytes? {
        var n := Event(s, tab, conv, generation, event);
        hide EntriesCurrent, SessionsDistinct, StartsTracked, StartsDistinct, ClosesSound, ClosesWaited;
        hide ClosesDistinct, RestartsSound, ConvsSound, NothingLost;
        assert HandlesFresh(n.heap, n.starts, n.closes, n.closed, n.convs, n.nextHandle);
        assert AllSound(n.all, n.starts, n.runtime);
      } else {
        hide Inv;
        StatusKeeps(s, s.runtime[tab], Exited);
        StatusKeeps(s, s.runtime[tab], Failed);
      }
    }
  }

  lemma NextStartKeeps(s: State, a: StartAction)
    requires Inv(s)
    ensures Inv(NextStart(s, a))
  {
    hide Inv;
    hide OpenTab, RunStart, ServerCreates, CreateReturns, CreateFails, LateCloseReturns, FallbackReturns, Event;
    match a
    case Opens(tab, conv) => OpenTabKeeps(s, tab, conv);
    case Runs(op) => RunStartKeeps(s, op);
    case IsCreated(op, session) => ServerCreatesKeeps(s, op, session);
    case Returns(op) => CreateReturnsKeeps(s, op);
    case Fails(op, elsewhere) => CreateFailsKeeps(s, op, elsewhere);
    case LateCloses(op, gone) => LateCloseReturnsKeeps(s, op, gone);
    case FallbackEnds(op) => FallbackReturnsKeeps(s, op);
    case Emits(tab, conv, generation, event) => EventKeeps(s, tab, conv, generation, event);
  }

  lemma NextCloseKeeps(s: State, tab: TabId, a: CloseAction)
    requires Inv(s)
    ensures Inv(NextClose(s, tab, a))
  {
    hide Inv;
    hide CloseTab, CloseSettles, CloseProceeds, CloseReturns, CloseFinally;
    match a
    case Begins => CloseTabKeeps(s, tab);
    case Settles => CloseSettlesKeeps(s, tab);
    case Proceeds => CloseProceedsKeeps(s, tab);
    case CallReturns(gone) => CloseReturnsKeeps(s, tab, gone);
    case Ends => CloseFinallyKeeps(s, tab);
  }

  lemma NextRestartKeeps(s: State, tab: TabId, a: RestartAction)
    requires Inv(s)
    ensures Inv(NextRestart(s, tab, a))
  {
    hide Inv;
    hide RestartTab, RestartCloseReturns, RestartFinally;
    match a
    case RestartBegins(saved) => RestartTabKeeps(s, tab, saved);
    case RestartCallReturns(ok, gone, saved) => RestartCloseReturnsKeeps(s, tab, ok, gone, saved);
    case RestartEnds => RestartFinallyKeeps(s, tab);
  }

  lemma NextConvKeeps(s: State, conv: ConvId, a: ConvAction)
    requires Inv(s)
    ensures Inv(NextConv(s, conv, a))
  {
    hide Inv;
    hide CloseConversation, ConversationRuns, ConversationSettles, ConversationFinally;
    match a
    case ConvBegins => ConversationStepsKeep(s, conv);
    case ConvRuns(tabs) => ConversationRunsKeeps(s, conv, tabs);
    case ConvSettles => ConversationSettlesKeeps(s, conv);
    case ConvEnds => ConversationStepsKeep(s, conv);
  }

  lemma NextAllKeeps(s: State, a: AllAction)
    requires Inv(s)
    ensures Inv(NextAll(s, a))
  {
    hide Inv;
    hide CloseAll, AllReturns, AllSettles, AllProceeds, AllFinally;
    match a
    case AllBegins => CloseAllKeeps(s);
    case AllCallReturns(gone) => AllReturnsKeeps(s, gone);
    case _ => AllPhasesKeep(s);
  }

  /** No step breaks the invariant. */
  lemma NextKeeps(s: State, a: Action)
    requires Inv(s)
    ensures Inv(Next(s, a))
  {
    hide Inv, NextStart, NextClose, NextRestart, NextConv, NextAll;
    match a
    case OfStart(start) => NextStartKeeps(s, start);
    case OfClose(tab, close) => NextCloseKeeps(s, tab, close);
    case OfRestart(tab, restart) => NextRestartKeeps(s, tab, restart);
    case OfConv(conv, closeConv) => NextConvKeeps(s, conv, closeConv);
    case OfAll(closeAll) => NextAllKeeps(s, closeAll);
  }

  lemma {:induction false} RunKeeps(s: State, actions: seq<Action>)
    requires Inv(s)
    ensures Inv(Run(s, actions))
  {
    hide Inv;
    if actions != [] {
      RunKeeps(s, actions[..|actions| - 1]);
      NextKeeps(Run(s, actions[..|actions| - 1]), actions[|actions| - 1]);
    }
  }

  // What a caller can rely on.

  lemma OwnersAreUnique(s: State, session: SessionId)
    requires EntriesCurrent(s.heap, s.runtime, s.generations)
    requires SessionsDistinct(s.heap, s.starts, s.made, s.open)
    ensures forall t, u ::
      OwnedByTab(s.heap, s.runtime, session, t) && OwnedByTab(s.heap, s.runtime, session, u) ==> t == u
    ensures forall p, q :: OwnedByStart(s.starts, session, p) && OwnedByStart(s.starts, session, q) ==> p == q
    ensures forall t, op :: OwnedByTab(s.heap, s.runtime, session, t) ==> !OwnedByStart(s.starts, session, op)
  {
  }

  /** Exactly one live tab entry, or exactly one start in flight, and not both. */
  ghost predicate OwnedOnce(s: State, session: SessionId) {
    && ((exists t :: OwnedByTab(s.heap, s.runtime, session, t))
      <==> !(exists op :: OwnedByStart(s.starts, session, op)))
    && (forall t, u ::
          OwnedByTab(s.heap, s.runtime, session, t) && OwnedByTab(s.heap, s.runtime, session, u) ==> t == u)
    && (forall p, q :: OwnedByStart(s.starts, session, p) && OwnedByStart(s.starts, session, q) ==> p == q)
  }

  lemma OpenMeansOwned(s: State, session: SessionId)
    requires Inv(s) && session in s.open && session !in Lost(s)
    ensures OwnedOnce(s, session)
  {
    OwnersAreUnique(s, session);
    hide EntriesCurrent, SessionsDistinct, StartsTracked, StartsDistinct, ClosesSound, ClosesWaited, ClosesDistinct;
    hide RestartsSound, ConvsSound, HandlesFresh, AllSound;
  }

  lemma InitialHolds()
    ensures Inv(INITIAL)
  {
  }

  /** No entry and no start of the conversation is left. */
  ghost predicate ConversationGone(s: State, conv: ConvId) {
    && (forall t :: t in s.runtime ==> s.runtime[t] in s.heap && s.heap[s.runtime[t]].conv != conv)
    && (forall op :: op in s.starts ==> s.starts[op].conv != conv)
  }

  lemma ConvDoneMeansGone(s: State, conv: ConvId)
    requires EntriesCurrent(s.heap, s.runtime, s.generations)
    requires StartsTracked(s.heap, s.runtime, s.generations, s.starts)
    requires ConvsSound(s.heap, s.runtime, s.closes, s.convs)
    requires conv in s.convs && s.convs[conv].ConvDone?
    ensures ConversationGone(s, conv)
  {
    forall op | op in s.starts ensures s.starts[op].conv != conv {
      assert StartTracked(s.heap, s.runtime, s.generations, s.starts[op]);
    }
  }

  /** When closing a conversation ends, nothing of it is left. */
  lemma ClosedConversationIsGone(actions: seq<Action>, conv: ConvId)
    requires conv in Run(INITIAL, actions).convs && Run(INITIAL, actions).convs[conv].ConvDone?
    ensures ConversationGone(Run(INITIAL, actions), conv)
  {
    InitialHolds();
    hide Run;
    RunKeeps(INITIAL, actions);
    ConvDoneMeansGone(Run(INITIAL, actions), conv);
  }

  /** A generation the tab has moved past. */
  predicate Outdated(s: State, tab: TabId, generation: nat) {
    generation < Generation(s, tab)
  }

  lemma BumpsGrow(s: State, other: TabId, conv: ConvId, mayFallback: bool, tab: TabId)
    ensures Generation(Invalidate(s, other), tab) == Generation(s, tab) + if tab == other then 1 else 0
    ensures Generation(Begin(s, other, conv, mayFallback), tab) == Generation(s, tab) + if tab == other then 1 else 0
  {
  }

  lemma AbandonStays(s: State, op: Handle)
    ensures Abandon(s, op).generations == s.generations
  {
  }

  lemma CreateFailsGrows(s: State, op: Handle, elsewhere: bool, tab: TabId)
    ensures Generation(s, tab) <= Generation(CreateFails(s, op, elsewhere), tab)
  {
    hide Abandon, CreateRejects;
    AbandonStays(s, op);
    CreateRejectsGrows(Abandon(s, op), op, elsewhere, tab);
  }

  lemma CreateRejectsGrows(s: State, op: Handle, elsewhere: bool, tab: TabId)
    ensures Generation(s, tab) <= Generation(CreateRejects(s, op, elsewhere), tab)
  {
    hide Begin;
    if op !in s.starts || s.starts[op].phase != Creating(None) {
    } else if Stale(s, s.starts[op]) {
    } else if s.starts[op].mayFallback && elsewhere {
      var start := s.starts[op];
      BumpsGrow(DropKept(s, start.tab), start.tab, start.conv, false, tab);
    }
  }

  lemma RestartContinuesGrows(s: State, other: TabId, entry: Handle, token: Handle, saved: bool, tab: TabId)
    requires entry in s.heap
    ensures Generation(s, tab) <= Generation(RestartContinues(s, other, entry, token, saved), tab)
  {
    hide Begin;
    BumpsGrow(Released(s, s.heap[entry].session), other, s.heap[entry].conv, true, tab);
  }

  lemma RestartTabGrows(s: State, other: TabId, saved: bool, tab: TabId)
    ensures Generation(s, tab) <= Generation(RestartTab(s, other, saved), tab)
    ensures tab == other && RestartTab(s, other, saved) != s
      ==> Generation(s, tab) < Generation(RestartTab(s, other, saved), tab)
  {
    hide RestartContinues, Invalidate;
    if other in s.runtime && s.runtime[other] in s.heap {
      BumpsGrow(s, other, 0, false, tab);
      InvalidateKeepsHandles(s, other);
      RestartContinuesGrows(TakeToken(s, other), other, s.runtime[other], s.nextHandle, saved, tab);
    }
  }

  lemma InvalidateKeepsHandles(s: State, tab: TabId)
    ensures Invalidate(s, tab).heap.Keys == s.heap.Keys
  {
  }

  lemma RestartCloseReturnsGrows(s: State, other: TabId, ok: bool, gone: bool, saved: bool, tab: TabId)
    ensures Generation(s, tab) <= Generation(RestartCloseReturns(s, other, ok, gone, saved), tab)
  {
    hide RestartContinues;
    if other in s.restarts && s.restarts[other].phase.RestartClosing? && s.restarts[other].entry in s.heap {
      var op := s.restarts[other];
      if ok {
        RestartContinuesGrows(Shut(s, op.phase.session, gone), other, op.entry, op.token, saved, tab);
      } else if other in s.tokens && s.tokens[other] == op.token && other in s.runtime && s.runtime[other] == op.entry {
      }
    }
  }

  lemma CloseTabGrows(s: State, other: TabId, tab: TabId)
    ensures Generation(s, tab) <= Generation(CloseTab(s, other), tab)
    ensures tab == other && other !in s.closes ==> Generation(s, tab) < Generation(CloseTab(s, other), tab)
  {
    BumpsGrow(s.(tokens := s.tokens - {other}), other, 0, false, tab);
    hide Invalidate;
  }

  lemma CloseAllGrows(s: State, tab: TabId)
    ensures Generation(s, tab) <= Generation(CloseAll(s), tab)
    ensures s.all.AllIdle? && tab in s.runtime ==> Generation(s, tab) < Generation(CloseAll(s), tab)
  {
  }

  lemma RunStartStays(s: State, op: Handle)
    ensures RunStart(s, op).generations == s.generations
  {
    hide Stale;
    if op !in s.starts || !s.starts[op].phase.Queued? {
    } else if Stale(s, s.starts[op]) {
    }
  }

  lemma CreateReturnsStays(s: State, op: Handle)
    ensures CreateReturns(s, op).generations == s.generations
  {
    hide Adopt;
    if op !in s.starts || !s.starts[op].phase.Creating? || s.starts[op].phase.made.None? {
    } else if Stale(s, s.starts[op]) {
    }
  }

  lemma EventStays(s: State, tab: TabId, conv: ConvId, generation: nat, event: TerminalEvent)
    ensures Event(s, tab, conv, generation, event).generations == s.generations
  {
    hide Blocked, Current;
  }

  lemma FinishCloseStays(s: State, tab: TabId)
    requires tab in s.closes
    ensures FinishClose(s, tab).generations == s.generations
  {
  }

  lemma ClosedTables(s: State, session: SessionId, gone: bool)
    ensures SameTables(s, Closed(s, session, gone))
  {
  }

  lemma CloseReturnsStays(s: State, tab: TabId, gone: bool)
    ensures CloseReturns(s, tab, gone).generations == s.generations
  {
    hide FinishClose, Closed;
    if tab in s.closes && s.closes[tab].phase.ClosingSession? {
      ClosedTables(s, s.closes[tab].phase.session, gone);
      FinishCloseStays(Closed(s, s.closes[tab].phase.session, gone), tab);
    }
  }

  lemma CloseProceedsStays(s: State, tab: TabId)
    ensures CloseProceeds(s, tab).generations == s.generations
  {
    hide FinishClose;
    if tab in s.closes && s.closes[tab].phase.Settled? {
      FinishCloseStays(s, tab);
      var entry := s.closes[tab].entry;
      if entry.Some? && entry.value in s.heap && s.heap[entry.value].session.Some? {
      }
    }
  }

  lemma StartsGrow(s: State, a: StartAction, tab: TabId)
    ensures Generation(s, tab) <= Generation(NextStart(s, a), tab)
  {
    hide Begin, RunStart, CreateReturns, CreateFails, Event, Stale, Current, Blocked;
    match a
    case Opens(other, conv) => BumpsGrow(s, other, conv, true, tab);
    case Runs(op) => RunStartStays(s, op);
    case Returns(op) => CreateReturnsStays(s, op);
    case Fails(op, elsewhere) => CreateFailsGrows(s, op, elsewhere, tab);
    case Emits(other, conv, generation, event) => EventStays(s, other, conv, generation, event);
    case _ =>
  }

  lemma ClosesGrow(s: State, other: TabId, a: CloseAction, tab: TabId)
    ensures Generation(s, tab) <= Generation(NextClose(s, other, a), tab)
  {
    hide CloseTab, CloseReturns, CloseProceeds, StartsOf;
    match a
    case Begins => CloseTabGrows(s, other, tab);
    case Proceeds => CloseProceedsStays(s, other);
    case CallReturns(gone) => CloseReturnsStays(s, other, gone);
    case _ =>
  }

  lemma RestartsGrow(s: State, other: TabId, a: RestartAction, tab: TabId)
    ensures Generation(s, tab) <= Generation(NextRestart(s, other, a), tab)
  {
    hide RestartTab, RestartCloseReturns;
    match a
    case RestartBegins(saved) => RestartTabGrows(s, other, saved, tab);
    case RestartCallReturns(ok, gone, saved) => RestartCloseReturnsGrows(s, other, ok, gone, saved, tab);
    case RestartEnds =>
  }

  lemma ConvsGrow(s: State, conv: ConvId, a: ConvAction, tab: TabId)
    ensures Generation(s, tab) <= Generation(NextConv(s, conv, a), tab)
  {
    hide CloseTabs, ListsTabsOf;
    if a.ConvRuns? {
      CloseTabsGrow(s, a.tabs, tab);
    }
  }

  lemma AllReturnsStays(s: State, gone: set<SessionId>)
    ensures AllReturns(s, gone).generations == s.generations
  {
    hide EndedAll;
    EndedStays(s.(open := s.open - gone));
  }

  lemma EndedStays(s: State)
    ensures EndedAll(s).generations == s.generations
  {
  }

  lemma AllGrows(s: State, a: AllAction, tab: TabId)
    ensures Generation(s, tab) <= Generation(NextAll(s, a), tab)
  {
    hide CloseAll, AllReturns;
    match a
    case AllBegins => CloseAllGrows(s, tab);
    case AllCallReturns(gone) => AllReturnsStays(s, gone);
    case _ =>
  }

  lemma GenerationsGrow(s: State, a: Action, tab: TabId)
    ensures Generation(s, tab) <= Generation(Next(s, a), tab)
  {
    hide NextStart, NextClose, NextRestart, NextConv, NextAll;
    match a
    case OfStart(start) => StartsGrow(s, start, tab);
    case OfClose(other, close) => ClosesGrow(s, other, close, tab);
    case OfRestart(other, restart) => RestartsGrow(s, other, restart, tab);
    case OfConv(conv, closeConv) => ConvsGrow(s, conv, closeConv, tab);
    case OfAll(closeAll) => AllGrows(s, closeAll, tab);
  }

  lemma {:induction false} CloseTabsGrow(s: State, tabs: seq<TabId>, tab: TabId)
    ensures Generation(s, tab) <= Generation(CloseTabs(s, tabs), tab)
  {
    if tabs != [] {
      CloseTabsGrow(s, tabs[..|tabs| - 1], tab);
      CloseTabGrows(CloseTabs(s, tabs[..|tabs| - 1]), tabs[|tabs| - 1], tab);
      hide CloseTab;
    }
  }

  lemma {:induction false} OutdatedForever(s: State, actions: seq<Action>, tab: TabId, generation: nat)
    requires Outdated(s, tab, generation)
    ensures Outdated(Run(s, actions), tab, generation)
  {
    if actions != [] {
      var front := actions[..|actions| - 1];
      OutdatedForever(s, front, tab, generation);
      GenerationsGrow(Run(s, front), actions[|actions| - 1], tab);
    }
  }

  lemma OutdatedIsNotCurrent(s: State, tab: TabId, generation: nat)
    requires Inv(s) && Outdated(s, tab, generation)
    ensures !Current(s, tab, generation)
  {
  }

  predicate SameView(s: State, n: State) {
    n.heap == s.heap && n.runtime == s.runtime && n.output == s.output && n.generations == s.generations
  }

  /** The steps of a start that is no longer current leave all entries and output alone. */
  ghost predicate StepsOfStartAreSilent(s: State, op: Handle, elsewhere: bool) {
    SameView(s, RunStart(s, op)) && SameView(s, CreateReturns(s, op)) && SameView(s, CreateFails(s, op, elsewhere))
  }

  /** A session received by a start that is no longer current is only ever closed. */
  ghost predicate SessionIsTurnedAway(s: State, op: Handle) {
    op in s.starts && s.starts[op].phase.Creating? && s.starts[op].phase.made.Some? ==>
      && op in CreateReturns(s, op).starts
      && CreateReturns(s, op).starts[op].phase == LateClose(s.starts[op].phase.made.value)
  }

  lemma StaleRunIsSilent(s: State, op: Handle)
    requires op in s.starts && Stale(s, s.starts[op])
    ensures SameView(s, RunStart(s, op))
  {
    hide Stale, EndStart, SetStart, SameView;
    EndIsSilent(s, op);
  }

  lemma EndIsSilent(s: State, op: Handle)
    ensures SameView(s, EndStart(s, op)) && SameView(s, s)
  {
  }

  lemma StaleReturnIsSilent(s: State, op: Handle)
    requires op in s.starts && Stale(s, s.starts[op])
    ensures SameView(s, CreateReturns(s, op))
    ensures SessionIsTurnedAway(s, op)
  {
    hide Stale;
  }

  lemma StaleFailureIsSilent(s: State, op: Handle, elsewhere: bool)
    requires op in s.starts && Stale(s, s.starts[op])
    ensures SameView(s, CreateFails(s, op, elsewhere))
  {
    hide Stale, Abandon, CreateRejects, SameView;
    AbandonIsSilent(s, op);
    StaleRejectIsSilent(Abandon(s, op), op, elsewhere);
    SameViewChains(s, Abandon(s, op), CreateFails(s, op, elsewhere));
  }

  lemma SameViewChains(s: State, m: State, n: State)
    requires SameView(s, m) && SameView(m, n)
    ensures SameView(s, n)
  {
  }

  lemma StaleRejectIsSilent(s: State, op: Handle, elsewhere: bool)
    requires op in s.starts && Stale(s, s.starts[op])
    ensures SameView(s, CreateRejects(s, op, elsewhere))
  {
    hide Stale, EndStart, FallBack, SameView;
    EndIsSilent(s, op);
  }

  lemma AbandonIsSilent(s: State, op: Handle)
    requires op in s.starts && Stale(s, s.starts[op])
    ensures var n := Abandon(s, op);
      SameView(s, n) && op in n.starts && Stale(n, n.starts[op])
  {
    if s.starts[op].phase.Creating? && s.starts[op].phase.made.Some? {
      var abandoned := s.abandoned + {s.starts[op].phase.made.value};
      var starts := s.starts[op := s.starts[op].(phase := Creating(None))];
      assert Abandon(s, op) == s.(abandoned := abandoned, starts := starts);
    }
  }

  lemma OutdatedIsSilent(s: State, tab: TabId, conv: ConvId, generation: nat, event: TerminalEvent, op: Handle,
      elsewhere: bool)
    requires Inv(s) && Outdated(s, tab, generation)
    ensures Event(s, tab, conv, generation, event) == s
    ensures op in s.starts && s.starts[op].tab == tab && s.starts[op].generation == generation ==>
              StepsOfStartAreSilent(s, op, elsewhere) && SessionIsTurnedAway(s, op)
  {
    OutdatedIsNotCurrent(s, tab, generation);
    hide Inv, SameView, SessionIsTurnedAway, RunStart, CreateReturns, CreateFails;
    if op in s.starts && s.starts[op].tab == tab && s.starts[op].generation == generation {
      StaleRunIsSilent(s, op);
      StaleReturnIsSilent(s, op);
      StaleFailureIsSilent(s, op, elsewhere);
    }
  }

  /** An outdated start or event changes no entry and no output, now or after any further run. */
  lemma OutdatedChangesNothing(before: seq<Action>, after: seq<Action>, tab: TabId, conv: ConvId, generation: nat,
                               event: TerminalEvent, op: Handle, elsewhere: bool)
    requires Outdated(Run(INITIAL, before), tab, generation)
    ensures var s := Run(Run(INITIAL, before), after); Event(s, tab, conv, generation, event) == s
    ensures var s := Run(Run(INITIAL, before), after);
            op in s.starts && s.starts[op].tab == tab && s.starts[op].generation == generation ==>
              StepsOfStartAreSilent(s, op, elsewhere) && SessionIsTurnedAway(s, op)
  {
    InitialHolds();
    hide Inv, Run, StepsOfStartAreSilent, SessionIsTurnedAway, Event, Outdated;
    RunKeeps(INITIAL, before);
    RunKeeps(Run(INITIAL, before), after);
    OutdatedForever(Run(INITIAL, before), after, tab, generation);
    OutdatedIsSilent(Run(Run(INITIAL, before), after), tab, conv, generation, event, op, elsewhere);
  }

  ghost predicate IsOutdatedBy(s: State, op: Handle, saved: bool)
    requires op in s.starts
  {
    var start := s.starts[op];
    && (start.tab !in s.closes ==> Outdated(CloseTab(s, start.tab), start.tab, start.generation))
    && (RestartTab(s, start.tab, saved) != s ==> Outdated(RestartTab(s, start.tab, saved), start.tab, start.generation))
    && (s.all.AllIdle? ==> Outdated(CloseAll(s), start.tab, start.generation))
  }

  lemma StartIsOutdatedBy(s: State, op: Handle, saved: bool)
    requires Inv(s) && op in s.starts
    ensures IsOutdatedBy(s, op, saved)
  {
    hide Inv, RestartTab, CloseTab, CloseAll;
    StartIsTracked(s, op);
    RestartTabGrows(s, s.starts[op].tab, saved, s.starts[op].tab);
    CloseTabGrows(s, s.starts[op].tab, s.starts[op].tab);
    CloseAllGrows(s, s.starts[op].tab);
  }

  /** Closing or restarting a tab, and closing everything, outdate every start in flight. */
  lemma InterruptionsOutdate(actions: seq<Action>, op: Handle, saved: bool)
    requires op in Run(INITIAL, actions).starts
    ensures IsOutdatedBy(Run(INITIAL, actions), op, saved)
  {
    InitialHolds();
    hide Inv, Run, IsOutdatedBy;
    RunKeeps(INITIAL, actions);
    StartIsOutdatedBy(Run(INITIAL, actions), op, saved);
  }
}
