/**
 The registry of lifecycle locks. It holds weak references; a mutex lives while a
 call waits for it or holds its guard. Guards are dropped without the registry's
 own lock, so a mutex may die between the sweep and the lookup of one call.
 */
module LockRegistry {
  import opened Prelude

  type Id = nat
  type Mutex = nat
  type Call = nat

  /** A call past the lookup owns a strong reference to its mutex. */
  datatype Ref = Ref(id: Id, mutex: Mutex, holding: bool)

  datatype State = State(
    locks: map<Id, Mutex>,
    refs: map<Call, Ref>,
    inside: Option<(Call, Id)>,
    next: Mutex)

  const EMPTY := State(map[], map[], None, 0)

  /** `strong_count() > 0`. */
  predicate Alive(refs: map<Call, Ref>, m: Mutex) {
    exists c <- refs :: refs[c].mutex == m
  }

  datatype Action =
    | Enter(call: Call, id: Id)
    | Lookup
    | Acquire(call: Call)
    | Drop(call: Call)

  /** Takes the registry's lock and sweeps the dead entries. */
  function Sweep(s: State, call: Call, id: Id): State {
    if s.inside.Some? || call in s.refs then s
    else
      s.(inside := Some((call, id)),
         locks := map x | x in s.locks && Alive(s.refs, s.locks[x]) :: s.locks[x])
  }

  /** Upgrades the entry of the id or inserts a new mutex, and releases the registry. */
  function LookUp(s: State): State {
    if s.inside.None? then s
    else
      var (call, id) := s.inside.value;
      if id in s.locks && Alive(s.refs, s.locks[id]) then
        s.(inside := None, refs := s.refs[call := Ref(id, s.locks[id], false)])
      else
        s.(inside := None, refs := s.refs[call := Ref(id, s.next, false)],
           locks := s.locks[id := s.next], next := s.next + 1)
  }

  predicate Held(refs: map<Call, Ref>, m: Mutex) {
    exists c <- refs :: refs[c].mutex == m && refs[c].holding
  }

  /** The mutex is granted to one waiter at a time. */
  function Grant(s: State, call: Call): State {
    if call !in s.refs || s.refs[call].holding || Held(s.refs, s.refs[call].mutex) then s
    else s.(refs := s.refs[call := s.refs[call].(holding := true)])
  }

  function Next(s: State, a: Action): State {
    match a
    case Enter(call, id) => Sweep(s, call, id)
    case Lookup => LookUp(s)
    case Acquire(call) => Grant(s, call)
    case Drop(call) => s.(refs := s.refs - {call})
  }

  function Run(s: State, actions: seq<Action>): State {
    if actions == [] then s else Next(Run(s, actions[..|actions| - 1]), actions[|actions| - 1])
  }

  // ---- Invariant ----

  /** Every live reference is to the mutex its id is registered with. */
  ghost predicate Registered(locks: map<Id, Mutex>, refs: map<Call, Ref>) {
    forall c <- refs :: refs[c].id in locks && locks[refs[c].id] == refs[c].mutex
  }

  ghost predicate Separate(locks: map<Id, Mutex>, next: Mutex) {
    && (forall x <- locks :: locks[x] < next)
    && forall x, y :: x in locks && y in locks && x != y ==> locks[x] != locks[y]
  }

  ghost predicate OneHolder(refs: map<Call, Ref>) {
    forall c, d ::
      c in refs && d in refs && refs[c].holding && refs[d].holding && refs[c].mutex == refs[d].mutex ==> c == d
  }

  ghost predicate Inv(s: State) {
    && Registered(s.locks, s.refs) && Separate(s.locks, s.next) && OneHolder(s.refs)
    && (s.inside.Some? ==> s.inside.value.0 !in s.refs)
  }

  lemma SweepKeeps(s: State, call: Call, id: Id)
    requires Inv(s)
    ensures Inv(Sweep(s, call, id))
    ensures s.inside.None? && call !in s.refs ==>
      forall x <- Sweep(s, call, id).locks :: exists c <- s.refs :: s.refs[c].id == x
  {
    var t := Sweep(s, call, id);
    forall c <- s.refs ensures s.refs[c].id in t.locks && t.locks[s.refs[c].id] == s.refs[c].mutex {
      assert Alive(s.refs, s.refs[c].mutex);
    }
    if s.inside.None? && call !in s.refs {
      forall x <- t.locks ensures exists c <- s.refs :: s.refs[c].id == x {
        var c :| c in s.refs && s.refs[c].mutex == s.locks[x];
        assert s.refs[c].id == x;
      }
    }
  }

  lemma LookUpKeeps(s: State)
    requires Inv(s)
    ensures Inv(LookUp(s))
    ensures s.inside.Some? ==> LookUp(s).locks.Keys == s.locks.Keys + {s.inside.value.1}
  {
    if s.inside.Some? {
      var (call, id) := s.inside.value;
      if !(id in s.locks && Alive(s.refs, s.locks[id])) {
        forall c <- s.refs ensures s.refs[c].id != id {
          if s.refs[c].id == id { assert Alive(s.refs, s.locks[id]); }
        }
      }
    }
  }

  lemma GrantKeeps(s: State, call: Call)
    requires Inv(s)
    ensures Inv(Grant(s, call))
  {
    if call in s.refs && !s.refs[call].holding && !Held(s.refs, s.refs[call].mutex) {
      forall c <- s.refs | s.refs[c].holding ensures s.refs[c].mutex != s.refs[call].mutex {
      }
    }
  }

  lemma NextKeeps(s: State, a: Action)
    requires Inv(s)
    ensures Inv(Next(s, a))
  {
    match a
    case Enter(call, id) => SweepKeeps(s, call, id);
    case Lookup => LookUpKeeps(s);
    case Acquire(call) => GrantKeeps(s, call);
    case Drop(call) =>
  }

  lemma {:induction false} RunKeeps(actions: seq<Action>)
    ensures Inv(Run(EMPTY, actions))
  {
    if actions != [] {
      RunKeeps(actions[..|actions| - 1]);
      hide Inv, Next;
      NextKeeps(Run(EMPTY, actions[..|actions| - 1]), actions[|actions| - 1]);
    }
  }

  /** In every interleaving all live holders and waiters of an id share one mutex,
      different ids have different mutexes, and two guards of one id never coexist. */
  lemma MutualExclusion(actions: seq<Action>)
    ensures var refs := Run(EMPTY, actions).refs;
      && (forall c, d :: c in refs && d in refs ==> (refs[c].id == refs[d].id <==> refs[c].mutex == refs[d].mutex))
      && (forall c, d ::
            c in refs && d in refs && refs[c].holding && refs[d].holding && refs[c].id == refs[d].id ==> c == d)
  {
    RunKeeps(actions);
  }

  /** A waiting call gets the mutex exactly when no call of its id holds it: the locks of
      other ids never stand in the way. */
  lemma GrantedIff(actions: seq<Action>, call: Call)
    ensures var s := Run(EMPTY, actions); var t := Next(s, Acquire(call));
      && t.refs.Keys == s.refs.Keys
      && (call in s.refs ==>
        (t.refs[call].holding <==>
          forall c <- s.refs :: s.refs[c].id == s.refs[call].id && s.refs[c].holding ==> c == call))
      && (forall c <- s.refs :: c != call ==> t.refs[c] == s.refs[c])
  {
    MutualExclusion(actions);
    RunKeeps(actions);
    hide Run;
    var s := Run(EMPTY, actions);
    if call in s.refs && !s.refs[call].holding {
      if c :| c in s.refs && s.refs[c].id == s.refs[call].id && s.refs[c].holding {
        assert s.refs[c].mutex == s.refs[call].mutex;
      }
    }
  }

  /** When the holder's guard is dropped any call that waits for the id can have it. */
  lemma HandsOver(actions: seq<Action>, holder: Call, waiter: Call)
    requires var refs := Run(EMPTY, actions).refs;
      && holder in refs && waiter in refs && holder != waiter
      && refs[holder].id == refs[waiter].id && refs[holder].holding
    ensures var t := Next(Next(Run(EMPTY, actions), Drop(holder)), Acquire(waiter));
      holder !in t.refs && waiter in t.refs && t.refs[waiter].holding
  {
    var dropped := actions + [Drop(holder)];
    assert dropped[..|actions|] == actions;
    assert Run(EMPTY, dropped) == Next(Run(EMPTY, actions), Drop(holder));
    MutualExclusion(actions);
    GrantedIff(dropped, waiter);
  }

  /** A call leaves in the registry only its own id and ids that some call was
      waiting for or holding when it swept: the registry cannot grow for good. */
  lemma {:induction false} RegistryIsLive(actions: seq<Action>, call: Call, id: Id, drops: seq<Action>)
    requires Run(EMPTY, actions).inside.None? && call !in Run(EMPTY, actions).refs
    requires forall a <- drops :: a.Drop? || a.Acquire?
    ensures var s := Run(EMPTY, actions);
      var t := LookUp(Run(Sweep(s, call, id), drops));
      && (forall x <- t.locks :: x == id || exists c <- s.refs :: s.refs[c].id == x)
      && call in t.refs && t.refs[call].id == id && id in t.locks && t.locks[id] == t.refs[call].mutex
  {
    var s := Run(EMPTY, actions);
    RunKeeps(actions);
    hide Run;
    SweepKeeps(s, call, id);
    var w := Sweep(s, call, id);
    WhileInside(w, drops);
    LookUpKeeps(Run(w, drops));
  }

  lemma {:induction false} WhileInside(s: State, drops: seq<Action>)
    requires Inv(s) && forall a <- drops :: a.Drop? || a.Acquire?
    ensures Run(s, drops).locks == s.locks && Run(s, drops).inside == s.inside && Inv(Run(s, drops))
  {
    if drops != [] {
      WhileInside(s, drops[..|drops| - 1]);
      assert drops[|drops| - 1] in drops;
      NextKeeps(Run(s, drops[..|drops| - 1]), drops[|drops| - 1]);
    }
  }

  // ---- The client object ----

  class SupervisorClient {
    var locks: map<Id, Mutex>
    var refs: map<Call, Ref>
    var inside: Option<(Call, Id)>
    var next: Mutex

    ghost function Abs(): (s: State)
      reads this
    {
      State(locks, refs, inside, next)
    }

    constructor ()
      ensures Abs() == EMPTY
    {
      locks, refs, inside, next := map[], map[], None, 0;
    }

    /** `lifecycle_lock` up to the lookup. */
    method EnterRegistry(call: Call, id: Id)
      requires inside.None? && call !in refs
      modifies this
      ensures Abs() == Next(old(Abs()), Enter(call, id))
    {
      inside := Some((call, id));
      locks := map x | x in locks && Alive(refs, locks[x]) :: locks[x];
    }

    /** The lookup; the call then waits for the mutex it got. */
    method LookUpLock() returns (mutex: Mutex)
      requires inside.Some?
      modifies this
      ensures Abs() == Next(old(Abs()), Lookup)
      ensures old(inside).value.0 in refs && refs[old(inside).value.0] == Ref(old(inside).value.1, mutex, false)
    {
      var (call, id) := inside.value;
      if id in locks && Alive(refs, locks[id]) {
        mutex := locks[id];
      } else {
        mutex := next;
        next := next + 1;
        locks := locks[id := mutex];
      }
      refs := refs[call := Ref(id, mutex, false)];
      inside := None;
    }
  }
}
