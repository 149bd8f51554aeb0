/** Messages queued while a reply is streaming, and the one being released. */
module QueuedMessages {
  import opened Prelude

  type Key = string
  type Input = nat

  /** A dispatch is compared by identity: the number of its creation. */
  datatype Dispatch = Dispatch(identity: nat, input: Input)

  datatype State = State(
    queues: map<Key, seq<Input>>,
    dispatching: map<Key, Dispatch>,
    created: nat,
    // Per key: everything enqueued, and everything a finished dispatch delivered,
    // since the key was last cleared.
    enqueued: map<Key, seq<Input>>,
    delivered: map<Key, seq<Input>>)

  const EMPTY := State(map[], map[], 0, map[], map[])

  function At(m: map<Key, seq<Input>>, key: Key): (s: seq<Input>)
  {
    if key in m then m[key] else []
  }

  datatype Action =
    | Enqueue(key: Key, inputs: seq<Input>)
    | Begin(key: Key)
    | Finish(key: Key, dispatch: Dispatch, retry: bool)
    | Clear(key: Key)
    | ClearAll

  function EnqueueAll(s: State, key: Key, inputs: seq<Input>): State {
    s.(queues := s.queues[key := At(s.queues, key) + inputs],
       enqueued := s.enqueued[key := At(s.enqueued, key) + inputs])
  }

  function BeginOne(s: State, key: Key): State {
    var current := At(s.queues, key);
    if key in s.dispatching || current == [] then s
    else
      s.(queues := if |current| == 1 then s.queues - {key} else s.queues[key := current[1..]],
         dispatching := s.dispatching[key := Dispatch(s.created, current[0])],
         created := s.created + 1)
  }

  function FinishOne(s: State, key: Key, dispatch: Dispatch, retry: bool): State {
    if key !in s.dispatching || s.dispatching[key] != dispatch then s
    else if retry then
      s.(dispatching := s.dispatching - {key}, queues := s.queues[key := [dispatch.input] + At(s.queues, key)])
    else
      s.(dispatching := s.dispatching - {key},
         delivered := s.delivered[key := At(s.delivered, key) + [dispatch.input]])
  }

  function ClearOne(s: State, key: Key): State {
    s.(queues := s.queues - {key}, dispatching := s.dispatching - {key},
       enqueued := s.enqueued - {key}, delivered := s.delivered - {key})
  }

  function Next(s: State, a: Action): State {
    match a
    case Enqueue(key, inputs) => EnqueueAll(s, key, inputs)
    case Begin(key) => BeginOne(s, key)
    case Finish(key, dispatch, retry) => FinishOne(s, key, dispatch, retry)
    case Clear(key) => ClearOne(s, key)
    case ClearAll => s.(queues := map[], dispatching := map[], enqueued := map[], delivered := map[])
  }

  function Run(s: State, actions: seq<Action>): State {
    if actions == [] then s else Next(Run(s, actions[..|actions| - 1]), actions[|actions| - 1])
  }

  /** The released input of a key, if one is in flight. */
  function InFlight(s: State, key: Key): (f: seq<Input>)
  {
    if key in s.dispatching then [s.dispatching[key].input] else []
  }

  ghost predicate Conserves(s: State, key: Key) {
    At(s.delivered, key) + InFlight(s, key) + At(s.queues, key) == At(s.enqueued, key)
  }

  /** Dispatches made so far have numbers below `created`. */
  ghost predicate Numbered(s: State) {
    forall key <- s.dispatching :: s.dispatching[key].identity < s.created
  }

  lemma EnqueueConserves(s: State, k: Key, inputs: seq<Input>, key: Key)
    requires Conserves(s, key)
    ensures Conserves(EnqueueAll(s, k, inputs), key)
  {
    if k == key {
      assert At(s.delivered, key) + InFlight(s, key) + (At(s.queues, key) + inputs)
        == (At(s.delivered, key) + InFlight(s, key) + At(s.queues, key)) + inputs;
    }
  }

  lemma BeginConserves(s: State, k: Key, key: Key)
    requires Conserves(s, key)
    ensures Conserves(BeginOne(s, k), key)
  {
    var current := At(s.queues, k);
    if k !in s.dispatching && current != [] {
      var t := BeginOne(s, k);
      assert At(t.queues, k) == current[1..];
      if k == key {
        assert At(s.delivered, key) + [] + current == At(s.delivered, key) + [current[0]] + current[1..];
      }
    }
  }

  lemma FinishConserves(s: State, k: Key, dispatch: Dispatch, retry: bool, key: Key)
    requires Conserves(s, key)
    ensures Conserves(FinishOne(s, k, dispatch, retry), key)
  {
    if k == key && k in s.dispatching && s.dispatching[k] == dispatch {
      var (d, x, q) := (At(s.delivered, key), [dispatch.input], At(s.queues, key));
      assert d + [] + (x + q) == d + x + q;
      assert (d + x) + [] + q == d + x + q;
    }
  }

  lemma NextConserves(s: State, a: Action, key: Key)
    requires Conserves(s, key) && Numbered(s)
    ensures Conserves(Next(s, a), key) && Numbered(Next(s, a))
  {
    assert Numbered(Next(s, a)) by { hide Conserves; }
    hide Numbered;
    match a
    case Enqueue(k, inputs) => EnqueueConserves(s, k, inputs, key);
    case Begin(k) => BeginConserves(s, k, key);
    case Finish(k, dispatch, retry) => FinishConserves(s, k, dispatch, retry, key);
    case Clear(k) =>
    case ClearAll =>
  }

  /** Per key, and however often dispatches are retried: what was delivered, then the
      input in flight, then the queue, is exactly what was enqueued since the last clear. */
  lemma {:induction false} QueueConserves(actions: seq<Action>, key: Key)
    ensures Conserves(Run(EMPTY, actions), key) && Numbered(Run(EMPTY, actions))
  {
    if actions != [] {
      QueueConserves(actions[..|actions| - 1], key);
      hide Next, Conserves, Numbered;
      NextConserves(Run(EMPTY, actions[..|actions| - 1]), actions[|actions| - 1], key);
    }
  }

  /** What was delivered for a key, told from the actions: the inputs of the releases
      in flight that were finished without a retry, since the last clear. */
  function Deliveries(actions: seq<Action>, key: Key): (inputs: seq<Input>)
  {
    if actions == [] then []
    else
      var n := |actions| - 1;
      var (s, before) := (Run(EMPTY, actions[..n]), Deliveries(actions[..n], key));
      match actions[n]
      case Finish(k, dispatch, false) =>
        if k == key && key in s.dispatching && s.dispatching[key] == dispatch then before + [dispatch.input] else before
      case Clear(k) => if k == key then [] else before
      case ClearAll => []
      case _ => before
  }

  /** And what waits: enqueued behind, released from the front, put back there by a retry. */
  function Waiting(actions: seq<Action>, key: Key): (inputs: seq<Input>)
  {
    if actions == [] then []
    else
      var n := |actions| - 1;
      var (s, before) := (Run(EMPTY, actions[..n]), Waiting(actions[..n], key));
      match actions[n]
      case Enqueue(k, inputs) => if k == key then before + inputs else before
      case Begin(k) => if k == key && key !in s.dispatching && before != [] then before[1..] else before
      case Finish(k, dispatch, true) =>
        if k == key && key in s.dispatching && s.dispatching[key] == dispatch then [dispatch.input] + before else before
      case Clear(k) => if k == key then [] else before
      case ClearAll => []
      case _ => before
  }

  /** The store delivers and keeps exactly that, over every run. */
  lemma {:induction false} QueueIsTold(actions: seq<Action>, key: Key)
    ensures At(Run(EMPTY, actions).delivered, key) == Deliveries(actions, key)
    ensures At(Run(EMPTY, actions).queues, key) == Waiting(actions, key)
  {
    if actions != [] {
      QueueIsTold(actions[..|actions| - 1], key);
    }
  }

  /** A release takes the first input that waits, if none of its key is in flight. */
  lemma ReleasedIff(actions: seq<Action>, key: Key)
    ensures var s := Run(EMPTY, actions); var t := Next(s, Begin(key));
      && (key in s.dispatching ==> t == s)
      && (key !in s.dispatching ==> (key in t.dispatching <==> Waiting(actions, key) != []))
      && (key !in s.dispatching && key in t.dispatching ==> t.dispatching[key].input == Waiting(actions, key)[0])
  {
    QueueIsTold(actions, key);
    hide Run, Waiting;
  }

  /** Finished, cleared or superseded dispatches are outdated for good. */
  ghost predicate Outdated(s: State, key: Key, dispatch: Dispatch) {
    dispatch.identity < s.created && (key in s.dispatching ==> s.dispatching[key] != dispatch)
  }

  lemma OutdatedStays(s: State, a: Action, key: Key, dispatch: Dispatch)
    requires Outdated(s, key, dispatch)
    ensures Outdated(Next(s, a), key, dispatch)
  {
  }

  lemma {:induction false} OutdatedForever(s: State, actions: seq<Action>, key: Key, dispatch: Dispatch, retry: bool)
    requires Outdated(s, key, dispatch)
    ensures Outdated(Run(s, actions), key, dispatch)
    ensures FinishOne(Run(s, actions), key, dispatch, retry) == Run(s, actions)
  {
    if actions != [] {
      OutdatedForever(s, actions[..|actions| - 1], key, dispatch, retry);
      hide Next;
      OutdatedStays(Run(s, actions[..|actions| - 1]), actions[|actions| - 1], key, dispatch);
    }
  }

  /** A release that was finished or cleared cannot be finished again, restore its
      input or unlock a later release, whatever happened since. */
  lemma LateFinishIgnored(before: seq<Action>, end: Action, after: seq<Action>, key: Key, retry: bool)
    requires var s := Run(EMPTY, before);
      key in s.dispatching && (end == Clear(key) || end == ClearAll
        || (end.Finish? && end.key == key && end.dispatch == s.dispatching[key]))
    ensures var dispatch := Run(EMPTY, before).dispatching[key];
      var t := Run(Next(Run(EMPTY, before), end), after);
      FinishOne(t, key, dispatch, retry) == t
  {
    var s := Run(EMPTY, before);
    QueueConserves(before, key);
    hide Run;
    OutdatedForever(Next(s, end), after, key, s.dispatching[key], retry);
  }

  class QueuedMessagesStore {
    var queues: map<Key, seq<Input>>
    var dispatching: map<Key, Dispatch>
    var created: nat
    ghost var enqueued: map<Key, seq<Input>>
    ghost var delivered: map<Key, seq<Input>>

    ghost function Abs(): (s: State)
      reads this
    {
      State(queues, dispatching, created, enqueued, delivered)
    }

    constructor ()
      ensures Abs() == EMPTY
    {
      queues, dispatching, created := map[], map[], 0;
      enqueued, delivered := map[], map[];
    }

    method EnqueueInputs(key: Key, inputs: seq<Input>)
      modifies this
      ensures Abs() == Next(old(Abs()), Enqueue(key, inputs))
    {
      queues := queues[key := At(queues, key) + inputs];
      enqueued := enqueued[key := At(enqueued, key) + inputs];
    }

    /** At most one release per key: a second call while one is in flight gets nothing. */
    method BeginDispatch(key: Key) returns (dispatch: Option<Dispatch>)
      modifies this
      ensures Abs() == Next(old(Abs()), Begin(key))
      ensures dispatch.Some? <==> key !in old(dispatching) && At(old(queues), key) != []
      ensures dispatch.Some? ==> key in dispatching && dispatching[key] == dispatch.value
      ensures dispatch.Some? ==> dispatch.value.input == At(old(queues), key)[0]
    {
      if key in dispatching {
        return None;
      }
      var current := At(queues, key);
      if |current| == 0 {
        return None;
      }
      var next, rest := current[0], current[1..];
      dispatch := Some(Dispatch(created, next));
      created := created + 1;
      if |rest| == 0 {
        queues := queues - {key};
      } else {
        queues := queues[key := rest];
      }
      dispatching := dispatching[key := dispatch.value];
    }

    method FinishDispatch(key: Key, dispatch: Dispatch, retry: bool)
      modifies this
      ensures Abs() == Next(old(Abs()), Finish(key, dispatch, retry))
    {
      if key !in dispatching || dispatching[key] != dispatch {
        return;
      }
      dispatching := dispatching - {key};
      if !retry {
        delivered := delivered[key := At(delivered, key) + [dispatch.input]];
        return;
      }
      queues := queues[key := [dispatch.input] + At(queues, key)];
    }

    method ClearKey(key: Key)
      modifies this
      ensures Abs() == Next(old(Abs()), Clear(key))
    {
      enqueued, delivered := enqueued - {key}, delivered - {key};
      if key !in queues && key !in dispatching {
        assert queues - {key} == queues && dispatching - {key} == dispatching;
        return;
      }
      queues := queues - {key};
      dispatching := dispatching - {key};
    }
  }
}
