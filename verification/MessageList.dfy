/** The message list of one conversation: merging fetched history, ordering, upserting. */
module MessageList {
  import opened Prelude

  type Id = nat

  /** A message's `seq`: missing or empty, decimal digits, or any other text. */
  datatype Sequence = Absent | Numeric(n: nat) | Opaque(text: nat)

  datatype Message = Message(id: Id, seqno: Sequence, body: nat)

  function Ids(messages: seq<Message>): (ids: seq<Id>)
    ensures |ids| == |messages| && forall i :: 0 <= i < |ids| ==> ids[i] == messages[i].id
  {
    seq(|messages|, i requires 0 <= i < |messages| => messages[i].id)
  }

  // ---- Restricting a list of ids ----

  /** The elements of `s` that are in `a`, or those that are not, in their order. */
  function Keep(s: seq<Id>, a: set<Id>, inside: bool): (k: seq<Id>)
  {
    if s == [] then []
    else if (s[0] in a) == inside then [s[0]] + Keep(s[1..], a, inside)
    else Keep(s[1..], a, inside)
  }

  lemma {:induction false} KeepAppend(s: seq<Id>, t: seq<Id>, a: set<Id>, inside: bool)
    ensures Keep(s + t, a, inside) == Keep(s, a, inside) + Keep(t, a, inside)
  {
    if s == [] {
      assert s + t == t;
    } else {
      assert (s + t)[1..] == s[1..] + t;
      KeepAppend(s[1..], t, a, inside);
    }
  }

  lemma {:induction false} KeepAll(s: seq<Id>, a: set<Id>, inside: bool)
    requires forall x <- s :: (x in a) == inside
    ensures Keep(s, a, inside) == s && Keep(s, a, !inside) == []
  {
    if s != [] {
      KeepAll(s[1..], a, inside);
    }
  }

  lemma {:induction false} KeepElements(s: seq<Id>, a: set<Id>, inside: bool)
    ensures forall x :: x in Keep(s, a, inside) <==> x in s && (x in a) == inside
  {
    if s != [] {
      KeepElements(s[1..], a, inside);
    }
  }

  lemma {:induction false} KeepCommutes(s: seq<Id>, a: set<Id>, b: set<Id>)
    ensures Keep(Keep(s, a, true), b, true) == Keep(Keep(s, b, true), a, true)
  {
    if s != [] {
      KeepCommutes(s[1..], a, b);
      if s[0] in a && s[0] in b {
        assert ([s[0]] + Keep(s[1..], a, true))[1..] == Keep(s[1..], a, true);
        assert ([s[0]] + Keep(s[1..], b, true))[1..] == Keep(s[1..], b, true);
      } else if s[0] in a {
        assert ([s[0]] + Keep(s[1..], a, true))[1..] == Keep(s[1..], a, true);
      } else if s[0] in b {
        assert ([s[0]] + Keep(s[1..], b, true))[1..] == Keep(s[1..], b, true);
      }
    }
  }

  lemma DistinctTail(s: seq<Id>)
    requires s != [] && Distinct(s)
    ensures Distinct(s[1..]) && s[0] !in s[1..]
  {
    assert forall i :: 0 <= i < |s[1..]| ==> s[1..][i] == s[i + 1];
  }

  /** A list is duplicate-free when both of its parts are. */
  lemma {:induction false} DistinctParts(s: seq<Id>, a: set<Id>)
    requires Distinct(Keep(s, a, true)) && Distinct(Keep(s, a, false))
    ensures Distinct(s)
  {
    if s != [] {
      if s[0] in a {
        assert Keep(s, a, true)[1..] == Keep(s[1..], a, true);
        DistinctTail(Keep(s, a, true));
        KeepElements(s[1..], a, true);
      } else {
        assert Keep(s, a, false)[1..] == Keep(s[1..], a, false);
        DistinctTail(Keep(s, a, false));
        KeepElements(s[1..], a, false);
      }
      DistinctParts(s[1..], a);
      assert s[0] !in s[1..];
    }
  }

  // ---- The walk of `mergeHistoryIntoLocal` ----

  /** `historyIndexById`: the last index of an id. */
  function LastIndex(s: seq<Id>, id: Id): (at: Option<nat>)
    ensures at.None? <==> id !in s
    ensures at.Some? ==> at.value < |s| && s[at.value] == id
  {
    if s == [] then None
    else if s[|s| - 1] == id then Some(|s| - 1)
    else LastIndex(s[..|s| - 1], id)
  }

  /** Of several rows with one id, the last counts. */
  lemma {:induction false} LastIndexIsLast(s: seq<Id>, id: Id)
    ensures id in s ==>
      var at := LastIndex(s, id); forall j :: at.value < j < |s| ==> s[j] != id
  {
    if s != [] && s[|s| - 1] != id {
      LastIndexIsLast(s[..|s| - 1], id);
      assert forall j :: 0 <= j < |s| - 1 ==> s[..|s| - 1][j] == s[j];
    }
  }

  /** The ids in the order the walk emits them. */
  function Walk(history: seq<Id>, cursor: nat, local: seq<Id>): (w: seq<Id>)
    requires cursor <= |history|
    decreases local
  {
    if local == [] then history[cursor..]
    else
      match LastIndex(history, local[0])
      case None => [local[0]] + Walk(history, cursor, local[1..])
      case Some(at) =>
        if at < cursor then Walk(history, cursor, local[1..])
        else history[cursor..at + 1] + Walk(history, at + 1, local[1..])
  }

  /** The row the walk emits for a fetched message: the fetched one when the server
      has numbered it, otherwise the local copy when there is one. */
  function Choice(row: Message, local: seq<Message>): (chosen: Message)
    ensures chosen.id == row.id
  {
    if !row.seqno.Absent? then row
    else
      var at := LastIndex(Ids(local), row.id);
      if at.Some? then local[at.value] else row
  }

  /** A row is the choice for its id: fetched ids as above, local-only ids their local row. */
  predicate RightRow(row: Message, history: seq<Message>, local: seq<Message>) {
    if row.id in Ids(history) then exists h <- history :: h.id == row.id && row == Choice(h, local)
    else row in local
  }

  ghost predicate RightRows(rows: seq<Message>, history: seq<Message>, local: seq<Message>) {
    forall row <- rows :: RightRow(row, history, local)
  }

  lemma PushChoice(rows: seq<Message>, history: seq<Message>, local: seq<Message>, i: nat)
    requires i < |history| && RightRows(rows, history, local)
    ensures RightRows(rows + [Choice(history[i], local)], history, local)
  {
    var row := Choice(history[i], local);
    assert row.id == Ids(history)[i];
    assert history[i] in history && history[i].id == row.id;
  }

  lemma PushLocal(rows: seq<Message>, history: seq<Message>, local: seq<Message>, i: nat)
    requires i < |local| && local[i].id !in Ids(history) && RightRows(rows, history, local)
    ensures RightRows(rows + [local[i]], history, local)
  {
    assert local[i] in local;
  }

  /** What one item of the walk emits: a local-only id, or fetched ids. */
  function Emitted(history: seq<Id>, cursor: nat, item: Id): (ids: seq<Id>)
    requires cursor <= |history|
  {
    var at := LastIndex(history, item);
    if at.None? then [item] else history[cursor..NextCursor(history, cursor, item)]
  }

  function NextCursor(history: seq<Id>, cursor: nat, item: Id): (next: nat)
    requires cursor <= |history|
    ensures cursor <= next <= |history|
  {
    var at := LastIndex(history, item);
    if at.Some? && cursor <= at.value then at.value + 1 else cursor
  }

  /** One local item of the walk. */
  lemma WalkStep(history: seq<Id>, cursor: nat, local: seq<Id>, k: nat)
    requires cursor <= |history| && k < |local|
    ensures Walk(history, cursor, local[k..])
      == Emitted(history, cursor, local[k]) + Walk(history, NextCursor(history, cursor, local[k]), local[k + 1..])
  {
    assert local[k..][0] == local[k] && local[k..][1..] == local[k + 1..];
  }

  method MergeWalk(history: seq<Message>, local: seq<Message>) returns (merged: seq<Message>)
    ensures Ids(merged) == Walk(Ids(history), 0, Ids(local))
    ensures RightRows(merged, history, local)
    ensures Distinct(Ids(history)) && Distinct(Ids(local)) ==> ShowsRows(merged, history, local)
  {
    hide RightRows, Walk, LastIndex, Choice, ShowsRows;
    ghost var ids, target := Ids(history), Walk(Ids(history), 0, Ids(local));
    merged := [];
    NoRows(history, local);
    var cursor := 0;
    assert Ids(local)[0..] == Ids(local);
    for k := 0 to |local|
      invariant 0 <= cursor <= |history|
      invariant Ids(merged) + Walk(ids, cursor, Ids(local)[k..]) == target
      invariant RightRows(merged, history, local)
    {
      var item := local[k];
      var at := LastIndex(Ids(history), item.id);
      WalkStep(ids, cursor, Ids(local), k);
      if at.None? {
        PushLocal(merged, history, local, k);
        Pushed(merged, item);
        merged := merged + [item];
        continue;
      }
      ghost var from, before := cursor, merged;
      while cursor <= at.value && cursor < |history|
        invariant from <= cursor <= |history|
        invariant cursor <= if at.value < from then from else at.value + 1
        invariant Ids(merged) == Ids(before) + ids[from..cursor]
        invariant RightRows(merged, history, local)
      {
        PushChoice(merged, history, local, cursor);
        Pushed(merged, Choice(history[cursor], local));
        merged := merged + [Choice(history[cursor], local)];
        cursor := cursor + 1;
      }
    }
    WalkRest(ids, cursor, Ids(local)[|local|..]);
    ghost var from, before := cursor, merged;
    while cursor < |history|
      invariant from <= cursor <= |history|
      invariant Ids(merged) == Ids(before) + ids[from..cursor]
      invariant RightRows(merged, history, local)
    {
      PushChoice(merged, history, local, cursor);
      Pushed(merged, Choice(history[cursor], local));
      merged := merged + [Choice(history[cursor], local)];
      cursor := cursor + 1;
    }
    assert ids[from..] == ids[from..cursor];
    WalkShows(history, local, merged);
  }

  /** For duplicate-free lists that says which row stands for each id. */
  lemma WalkShows(history: seq<Message>, local: seq<Message>, merged: seq<Message>)
    requires Ids(merged) == Walk(Ids(history), 0, Ids(local)) && RightRows(merged, history, local)
    ensures Distinct(Ids(history)) && Distinct(Ids(local)) ==> ShowsRows(merged, history, local)
  {
    if Distinct(Ids(history)) && Distinct(Ids(local)) {
      MergeIsUnion(Ids(history), Ids(local));
      hide Walk, RightRows, ShowsRows;
      ShownIds(merged, history, local);
    }
  }

  lemma Pushed(rows: seq<Message>, row: Message)
    ensures Ids(rows + [row]) == Ids(rows) + [row.id]
  {
  }

  lemma WalkRest(history: seq<Id>, cursor: nat, local: seq<Id>)
    requires cursor <= |history| && local == []
    ensures Walk(history, cursor, local) == history[cursor..]
  {
  }

  lemma NoRows(history: seq<Message>, local: seq<Message>)
    ensures RightRows([], history, local)
  {
  }

  lemma EmittedParts(history: seq<Id>, cursor: nat, item: Id, all: set<Id>)
    requires cursor <= |history| && forall x :: x in all <==> x in history
    ensures var next := NextCursor(history, cursor, item);
      && Keep(Emitted(history, cursor, item), all, true) == history[cursor..next]
      && history[cursor..next] + history[next..] == history[cursor..]
    ensures Keep(Emitted(history, cursor, item), all, false) == Keep([item], all, false)
  {
    KeepAll(Emitted(history, cursor, item), all, item in all);
    KeepAll([item], all, item in all);
  }

  lemma {:induction false} FetchedInOrder(history: seq<Id>, cursor: nat, local: seq<Id>, all: set<Id>)
    requires cursor <= |history| && forall x :: x in all <==> x in history
    ensures Keep(Walk(history, cursor, local), all, true) == history[cursor..]
    ensures Keep(Walk(history, cursor, local), all, false) == Keep(local, all, false)
    decreases local
  {
    if local == [] {
      KeepAll(history[cursor..], all, true);
    } else {
      assert local[0..] == local && local == [local[0]] + local[1..];
      hide Walk, Keep, Emitted, NextCursor;
      var next := NextCursor(history, cursor, local[0]);
      var emitted, rest := Emitted(history, cursor, local[0]), Walk(history, next, local[1..]);
      WalkStep(history, cursor, local, 0);
      FetchedInOrder(history, next, local[1..], all);
      EmittedParts(history, cursor, local[0], all);
      KeepAppend([local[0]], local[1..], all, false);
      KeepAppend(emitted, rest, all, true);
      KeepAppend(emitted, rest, all, false);
    }
  }

  /** Merging duplicate-free lists: every id of either list exactly once, fetched
      rows in server order, local-only rows in local order. */
  lemma MergeIsUnion(history: seq<Id>, local: seq<Id>)
    requires Distinct(history) && Distinct(local)
    ensures var w := Walk(history, 0, local);
      && Distinct(w)
      && Elements(w) == Elements(history) + Elements(local)
      && Keep(w, Elements(history), true) == history
      && Keep(w, Elements(history), false) == Keep(local, Elements(history), false)
  {
    var w := Walk(history, 0, local);
    FetchedInOrder(history, 0, local, Elements(history));
    assert history[0..] == history;
    DistinctKept(local, Elements(history), false);
    DistinctParts(w, Elements(history));
    KeepElements(w, Elements(history), true);
    KeepElements(w, Elements(history), false);
    KeepElements(local, Elements(history), false);
    forall x ensures x in w <==> x in history || x in local {
      if x in history {
        assert x in Keep(w, Elements(history), true);
      } else if x in local {
        assert x in Keep(w, Elements(history), false);
      }
    }
  }

  lemma {:induction false} DistinctKept(s: seq<Id>, a: set<Id>, inside: bool)
    requires Distinct(s)
    ensures Distinct(Keep(s, a, inside))
  {
    if s != [] {
      assert forall i :: 0 <= i < |s[1..]| ==> s[1..][i] == s[i + 1];
      DistinctKept(s[1..], a, inside);
      KeepElements(s[1..], a, inside);
    }
  }

  /** When the next common id of `history` from `cursor` on is `item`, everything
      before it is unknown locally. */
  lemma {:induction false} FirstCommon(history: seq<Id>, cursor: nat, at: nat, known: set<Id>, rest: seq<Id>)
    requires cursor <= |history| && at < |history| && Distinct(history)
    requires Keep(history[cursor..], known, true) == [history[at]] + rest
    ensures cursor <= at
    ensures Keep(history[cursor..at + 1], known, true) == [history[at]]
    ensures Keep(history[at + 1..], known, true) == rest
    decreases |history| - cursor
  {
    var tail := history[cursor..];
    KeepElements(tail, known, true);
    assert history[at] in Keep(tail, known, true);
    assert tail[1..] == history[cursor + 1..];
    if tail[0] in known {
      assert Keep(tail, known, true)[0] == tail[0];
      assert Keep(tail, known, true)[1..] == Keep(tail[1..], known, true);
      assert cursor == at;
      assert history[cursor..at + 1] == [history[at]];
    } else {
      FirstCommon(history, cursor + 1, at, known, rest);
      assert history[cursor..at + 1] == [tail[0]] + history[cursor + 1..at + 1];
    }
  }

  lemma WalkUnfold(history: seq<Id>, cursor: nat, local: seq<Id>)
    requires cursor <= |history| && local != []
    ensures var at := LastIndex(history, local[0]);
      && (at.None? ==> Walk(history, cursor, local) == [local[0]] + Walk(history, cursor, local[1..]))
      && (at.Some? && cursor <= at.value ==>
        Walk(history, cursor, local) == history[cursor..at.value + 1] + Walk(history, at.value + 1, local[1..]))
  {
  }

  lemma KeepUnfold(s: seq<Id>, a: set<Id>)
    requires s != []
    ensures Keep(s, a, true) == if s[0] in a then [s[0]] + Keep(s[1..], a, true) else Keep(s[1..], a, true)
    ensures s == [s[0]] + s[1..]
  {
  }

  lemma {:induction false} LocalInOrder(history: seq<Id>, cursor: nat, local: seq<Id>, known: set<Id>, all: set<Id>)
    requires cursor <= |history| && Distinct(history) && forall x <- local :: x in known
    requires forall x :: x in all <==> x in history
    requires Keep(history[cursor..], known, true) == Keep(local, all, true)
    ensures Keep(Walk(history, cursor, local), known, true) == local
    decreases local
  {
    if local != [] {
      var rest := local[1..];
      var at := LastIndex(history, local[0]);
      WalkUnfold(history, cursor, local);
      KeepUnfold(local, all);
      KeepAll([local[0]], known, true);
      hide Walk, Keep, LastIndex, Distinct;
      if at.None? {
        LocalInOrder(history, cursor, rest, known, all);
        KeepAppend([local[0]], Walk(history, cursor, rest), known, true);
      } else {
        FirstCommon(history, cursor, at.value, known, Keep(rest, all, true));
        LocalInOrder(history, at.value + 1, rest, known, all);
        KeepAppend(history[cursor..at.value + 1], Walk(history, at.value + 1, rest), known, true);
      }
    }
  }

  /** Local rows keep their local order exactly when both lists agree on the order
      of the ids they share. */
  lemma LocalOrderIff(history: seq<Id>, local: seq<Id>)
    requires Distinct(history) && Distinct(local)
    ensures Keep(Walk(history, 0, local), Elements(local), true) == local
      <==> Keep(history, Elements(local), true) == Keep(local, Elements(history), true)
  {
    assert history[0..] == history;
    var w := Walk(history, 0, local);
    if Keep(history, Elements(local), true) == Keep(local, Elements(history), true) {
      LocalInOrder(history, 0, local, Elements(local), Elements(history));
    }
    if Keep(w, Elements(local), true) == local {
      KeepCommutes(w, Elements(local), Elements(history));
      FetchedInOrder(history, 0, local, Elements(history));
    }
  }

  // ---- `orderServerMessages` ----

  predicate IsNumeric(m: Message) {
    m.seqno.Numeric?
  }

  function NumberOf(m: Message): (n: nat)
  {
    if IsNumeric(m) then m.seqno.n else 0
  }

  function Numerics(messages: seq<Message>): (n: seq<Message>)
    ensures forall m <- n :: IsNumeric(m)
  {
    if messages == [] then []
    else if IsNumeric(messages[0]) then [messages[0]] + Numerics(messages[1..])
    else Numerics(messages[1..])
  }

  /** The rows with one sequence number, in their order. */
  function Sharing(messages: seq<Message>, n: nat): (s: seq<Message>)
  {
    if messages == [] then []
    else if messages[0].seqno == Numeric(n) then [messages[0]] + Sharing(messages[1..], n)
    else Sharing(messages[1..], n)
  }

  predicate Sorted(messages: seq<Message>) {
    forall i, j :: 0 <= i < j < |messages| ==> NumberOf(messages[i]) <= NumberOf(messages[j])
  }

  /** A stable sort: a row goes in front of the first larger or equal one of the sorted rest. */
  function Insert(m: Message, sorted: seq<Message>): (r: seq<Message>)
    requires IsNumeric(m) && forall x <- sorted :: IsNumeric(x)
    ensures forall x :: x in r <==> x == m || x in sorted
    ensures |r| == |sorted| + 1
  {
    if sorted == [] || NumberOf(m) <= NumberOf(sorted[0]) then [m] + sorted
    else
      assert forall x <- sorted :: x == sorted[0] || x in sorted[1..];
      [sorted[0]] + Insert(m, sorted[1..])
  }

  function StableSort(messages: seq<Message>): (r: seq<Message>)
    requires forall m <- messages :: IsNumeric(m)
    ensures forall m <- r :: IsNumeric(m)
    ensures |r| == |messages|
  {
    if messages == [] then [] else Insert(messages[0], StableSort(messages[1..]))
  }

  /** Every numbered slot takes the next row of `formal`. */
  function Fill(messages: seq<Message>, formal: seq<Message>): (r: seq<Message>)
    requires |formal| == |Numerics(messages)|
  {
    if messages == [] then []
    else if IsNumeric(messages[0]) then [formal[0]] + Fill(messages[1..], formal[1..])
    else [messages[0]] + Fill(messages[1..], formal)
  }

  function OrderServerMessages(messages: seq<Message>): (r: seq<Message>)
  {
    Fill(messages, StableSort(Numerics(messages)))
  }

  lemma {:induction false} InsertSorts(m: Message, sorted: seq<Message>)
    requires IsNumeric(m) && (forall x <- sorted :: IsNumeric(x)) && Sorted(sorted)
    ensures Sorted(Insert(m, sorted))
  {
    if sorted != [] && NumberOf(m) > NumberOf(sorted[0]) {
      assert forall x <- sorted[1..] :: x in sorted;
      InsertSorts(m, sorted[1..]);
      assert forall x <- Insert(m, sorted[1..]) :: NumberOf(sorted[0]) <= NumberOf(x);
    }
  }

  lemma {:induction false} InsertIsStable(m: Message, sorted: seq<Message>, n: nat)
    requires IsNumeric(m) && forall x <- sorted :: IsNumeric(x)
    ensures Sharing(Insert(m, sorted), n) == Sharing([m] + sorted, n)
  {
    assert ([m] + sorted)[1..] == sorted;
    if sorted != [] && NumberOf(m) > NumberOf(sorted[0]) {
      var rest := sorted[1..];
      InsertIsStable(m, rest, n);
      assert ([m] + rest)[1..] == rest;
      assert ([sorted[0]] + Insert(m, rest))[1..] == Insert(m, rest);
    }
  }

  lemma {:induction false} SortSorts(messages: seq<Message>)
    requires forall m <- messages :: IsNumeric(m)
    ensures Sorted(StableSort(messages))
  {
    if messages != [] {
      SortSorts(messages[1..]);
      InsertSorts(messages[0], StableSort(messages[1..]));
    }
  }

  lemma {:induction false} SortIsStable(messages: seq<Message>, n: nat)
    requires forall m <- messages :: IsNumeric(m)
    ensures Sharing(StableSort(messages), n) == Sharing(messages, n)
  {
    if messages != [] {
      var sorted := StableSort(messages[1..]);
      SortIsStable(messages[1..], n);
      InsertIsStable(messages[0], sorted, n);
      assert ([messages[0]] + sorted)[1..] == sorted;
    }
  }

  lemma {:induction false} SortedStays(messages: seq<Message>)
    requires (forall m <- messages :: IsNumeric(m)) && Sorted(messages)
    ensures StableSort(messages) == messages
  {
    if messages != [] {
      SortedStays(messages[1..]);
    }
  }

  lemma {:induction false} FillKeeps(messages: seq<Message>, formal: seq<Message>)
    requires |formal| == |Numerics(messages)| && forall m <- formal :: IsNumeric(m)
    ensures |Fill(messages, formal)| == |messages|
    ensures forall i :: 0 <= i < |messages| ==>
      if IsNumeric(messages[i]) then IsNumeric(Fill(messages, formal)[i]) else Fill(messages, formal)[i] == messages[i]
  {
    if messages != [] {
      FillKeeps(messages[1..], if IsNumeric(messages[0]) then formal[1..] else formal);
    }
  }

  lemma {:induction false} FillPlaces(messages: seq<Message>, formal: seq<Message>)
    requires |formal| == |Numerics(messages)| && forall m <- formal :: IsNumeric(m)
    ensures Numerics(Fill(messages, formal)) == formal
  {
    if messages != [] {
      if IsNumeric(messages[0]) {
        FillPlaces(messages[1..], formal[1..]);
        assert ([formal[0]] + Fill(messages[1..], formal[1..]))[1..] == Fill(messages[1..], formal[1..]);
      } else {
        FillPlaces(messages[1..], formal);
        assert ([messages[0]] + Fill(messages[1..], formal))[1..] == Fill(messages[1..], formal);
      }
    }
  }

  lemma Cancel<T>(a: multiset<T>, b: multiset<T>, c: multiset<T>)
    requires a + c == b + c
    ensures a == b
  {
    assert a + c - c == a && b + c - c == b;
  }

  lemma Regroup<T>(a: multiset<T>, b: multiset<T>, c: multiset<T>, d: multiset<T>, x: multiset<T>, y: multiset<T>)
    requires a + b == c + d
    ensures (x + a) + (y + b) == (c + y) + (d + x)
  {
    assert (x + a) + (y + b) == (a + b) + (x + y);
    assert (c + y) + (d + x) == (c + d) + (x + y);
  }

  lemma MultisetCons<T>(s: seq<T>)
    requires s != []
    ensures multiset(s) == multiset(s[1..]) + multiset{s[0]}
  {
    assert s == [s[0]] + s[1..];
  }

  lemma {:induction false} FillMultiset(messages: seq<Message>, formal: seq<Message>)
    requires |formal| == |Numerics(messages)|
    ensures multiset(Fill(messages, formal)) + multiset(Numerics(messages)) == multiset(messages) + multiset(formal)
  {
    if messages != [] {
      MultisetCons(messages);
      if IsNumeric(messages[0]) {
        FillMultiset(messages[1..], formal[1..]);
        MultisetCons(formal);
        assert Fill(messages, formal) == [formal[0]] + Fill(messages[1..], formal[1..]);
        assert Numerics(messages) == [messages[0]] + Numerics(messages[1..]);
        var f := Fill(messages[1..], formal[1..]);
        var n := Numerics(messages[1..]);
        assert multiset([formal[0]] + f) == multiset{formal[0]} + multiset(f);
        assert multiset([messages[0]] + n) == multiset{messages[0]} + multiset(n);
        Regroup(multiset(f), multiset(n), multiset(messages[1..]), multiset(formal[1..]),
          multiset{formal[0]}, multiset{messages[0]});
      } else {
        FillMultiset(messages[1..], formal);
        assert Fill(messages, formal) == [messages[0]] + Fill(messages[1..], formal);
        assert Numerics(messages) == Numerics(messages[1..]);
        var f := Fill(messages[1..], formal);
        assert multiset([messages[0]] + f) == multiset{messages[0]} + multiset(f);
        var (x, n, m, g) := (multiset{messages[0]}, multiset(Numerics(messages)), multiset(messages[1..]),
          multiset(formal));
        assert (x + multiset(f)) + n == x + (multiset(f) + n);
        assert (m + x) + g == x + (m + g);
      }
    }
  }

  lemma {:induction false} FillOwn(messages: seq<Message>)
    ensures Fill(messages, Numerics(messages)) == messages
  {
    if messages != [] {
      FillOwn(messages[1..]);
    }
  }

  lemma {:induction false} InsertMultiset(m: Message, sorted: seq<Message>)
    requires IsNumeric(m) && forall x <- sorted :: IsNumeric(x)
    ensures multiset(Insert(m, sorted)) == multiset{m} + multiset(sorted)
  {
    if sorted != [] && NumberOf(m) > NumberOf(sorted[0]) {
      InsertMultiset(m, sorted[1..]);
      assert sorted == [sorted[0]] + sorted[1..];
    }
  }

  lemma {:induction false} SortMultiset(messages: seq<Message>)
    requires forall m <- messages :: IsNumeric(m)
    ensures multiset(StableSort(messages)) == multiset(messages)
  {
    if messages != [] {
      SortMultiset(messages[1..]);
      InsertMultiset(messages[0], StableSort(messages[1..]));
      assert messages == [messages[0]] + messages[1..];
    }
  }

  /** Only numbered rows move, and only among their own slots; there they end up
      sorted, equal numbers in their old order. */
  lemma OrderIsStableInPlace(messages: seq<Message>)
    ensures var r := OrderServerMessages(messages);
      && |r| == |messages| && multiset(r) == multiset(messages)
      && (forall i :: 0 <= i < |r| ==> if IsNumeric(messages[i]) then IsNumeric(r[i]) else r[i] == messages[i])
      && Sorted(Numerics(r))
      && forall n :: Sharing(Numerics(r), n) == Sharing(Numerics(messages), n)
  {
    var formal := Numerics(messages);
    var sorted := StableSort(formal);
    FillKeeps(messages, sorted);
    FillPlaces(messages, sorted);
    FillMultiset(messages, sorted);
    SortMultiset(formal);
    Cancel(multiset(OrderServerMessages(messages)), multiset(messages), multiset(formal));
    SortSorts(formal);
    forall n ensures Sharing(sorted, n) == Sharing(formal, n) {
      SortIsStable(formal, n);
    }
  }

  lemma OrderIsIdempotent(messages: seq<Message>)
    ensures OrderServerMessages(OrderServerMessages(messages)) == OrderServerMessages(messages)
  {
    var r := OrderServerMessages(messages);
    OrderIsStableInPlace(messages);
    SortedStays(Numerics(r));
    FillOwn(r);
  }

  // ---- The two ways a list changes ----

  lemma {:induction false} OnceEach(s: seq<Id>)
    requires Distinct(s)
    ensures forall x <- s :: multiset(s)[x] == 1
  {
    if s != [] {
      DistinctTail(s);
      OnceEach(s[1..]);
      MultisetCons(s);
    }
  }

  lemma {:induction false} DistinctFromCounts(s: seq<Id>)
    requires forall x <- s :: multiset(s)[x] == 1
    ensures Distinct(s)
  {
    if s != [] {
      MultisetCons(s);
      assert multiset(s)[s[0]] == 1;
      assert s[0] !in multiset(s[1..]);
      forall x <- s[1..] ensures multiset(s[1..])[x] == 1 {
        assert x in s;
        assert x in multiset(s[1..]);
      }
      DistinctFromCounts(s[1..]);
      DistinctCons(s);
    }
  }

  lemma DistinctCons(s: seq<Id>)
    requires s != [] && Distinct(s[1..]) && s[0] !in s[1..]
    ensures Distinct(s)
  {
    forall i, j | 0 <= i < j < |s| ensures s[i] != s[j] {
      assert s[j] == s[1..][j - 1];
      if i > 0 { assert s[i] == s[1..][i - 1]; }
    }
  }

  lemma RemoveAt<T>(b: seq<T>, j: nat)
    requires j < |b|
    ensures multiset(b) == multiset(b[..j] + b[j + 1..]) + multiset{b[j]}
  {
    assert b == b[..j] + ([b[j]] + b[j + 1..]);
  }

  lemma {:induction false} SameIds(a: seq<Message>, b: seq<Message>)
    requires multiset(a) == multiset(b)
    ensures multiset(Ids(a)) == multiset(Ids(b))
    decreases a
  {
    if a == [] {
      assert |multiset(b)| == 0;
    } else {
      assert a[0] in multiset(b);
      var j :| 0 <= j < |b| && b[j] == a[0];
      var rest := b[..j] + b[j + 1..];
      MultisetCons(a);
      RemoveAt(b, j);
      Cancel(multiset(a[1..]), multiset(rest), multiset{a[0]});
      SameIds(a[1..], rest);
      MultisetCons(Ids(a));
      RemoveAt(Ids(b), j);
      assert Ids(a)[1..] == Ids(a[1..]);
      assert Ids(b)[..j] + Ids(b)[j + 1..] == Ids(rest);
    }
  }

  /** Reordering keeps the rows, their ids, and that no id occurs twice. */
  lemma OrderKeepsIds(messages: seq<Message>)
    ensures var r := OrderServerMessages(messages);
      && (Distinct(Ids(messages)) ==> Distinct(Ids(r)))
      && Elements(Ids(r)) == Elements(Ids(messages))
      && forall m :: m in r <==> m in messages
  {
    var r := OrderServerMessages(messages);
    OrderIsStableInPlace(messages);
    hide OrderServerMessages;
    SameIds(r, messages);
    assert forall x :: x in Ids(r) <==> x in multiset(Ids(r));
    assert forall x :: x in Ids(messages) <==> x in multiset(Ids(messages));
    if Distinct(Ids(messages)) {
      OnceEach(Ids(messages));
      DistinctFromCounts(Ids(r));
    }
    assert forall m :: m in r <==> m in multiset(r);
    assert forall m :: m in messages <==> m in multiset(messages);
  }

  /** Which row stands for each id: a fetched row the server has numbered as fetched,
      one it has not as the local row of that id when there is one, and a row only
      this side knows as it is here. */
  ghost predicate ShowsRows(r: seq<Message>, history: seq<Message>, local: seq<Message>) {
    && (forall h <- history :: !h.seqno.Absent? ==> h in r)
    && (forall h <- history, l <- local :: h.seqno.Absent? && l.id == h.id ==> l in r)
    && (forall h <- history :: h.seqno.Absent? && h.id !in Ids(local) ==> h in r)
    && (forall l <- local :: l.id !in Ids(history) ==> l in r)
  }

  lemma OnlyRow(messages: seq<Message>, m: Message, n: Message)
    requires Distinct(Ids(messages)) && m in messages && n in messages && m.id == n.id
    ensures m == n
  {
    var i :| 0 <= i < |messages| && messages[i] == m;
    var j :| 0 <= j < |messages| && messages[j] == n;
    assert Ids(messages)[i] == Ids(messages)[j];
  }

  lemma RowOf(messages: seq<Message>, id: Id)
    requires id in Ids(messages)
    ensures exists m <- messages :: m.id == id
  {
    var i :| 0 <= i < |messages| && Ids(messages)[i] == id;
    assert messages[i] in messages;
  }

  lemma FetchedRow(history: seq<Message>, local: seq<Message>, r: seq<Message>, h: Message)
    requires RightRows(r, history, local) && Distinct(Ids(history)) && h in history && h.id in Ids(r)
    ensures Choice(h, local) in r
  {
    RowOf(r, h.id);
    var row :| row in r && row.id == h.id;
    assert RightRow(row, history, local);
    MembersIds(history);
    var g :| g in history && g.id == row.id && row == Choice(g, local);
    OnlyRow(history, g, h);
  }

  lemma RightRowsShow(history: seq<Message>, local: seq<Message>, r: seq<Message>)
    requires RightRows(r, history, local) && Distinct(Ids(history)) && Distinct(Ids(local))
    requires forall id :: id in Ids(r) <==> id in Ids(history) || id in Ids(local)
    ensures ShowsRows(r, history, local)
  {
    MembersIds(history);
    MembersIds(local);
    forall h <- history ensures Choice(h, local) in r {
      FetchedRow(history, local, r, h);
    }
    forall h <- history, l <- local | h.seqno.Absent? && l.id == h.id ensures l in r {
      OnlyRow(local, l, Choice(h, local));
    }
    forall l <- local | l.id !in Ids(history) ensures l in r {
      RowOf(r, l.id);
      var row :| row in r && row.id == l.id;
      assert RightRow(row, history, local);
      OnlyRow(local, row, l);
    }
  }

  /** The rows the walk chose, in the order it emits their ids, put in server order. */
  ghost predicate OrderedWalk(r: seq<Message>, history: seq<Message>, local: seq<Message>) {
    exists rows :: RightRows(rows, history, local)
      && Ids(rows) == Walk(Ids(history), 0, Ids(local)) && r == OrderServerMessages(rows)
  }

  /** The merged list shows every id of either list, once; rows are as the walk chose them. */
  method MergeHistoryIntoLocal(history: seq<Message>, local: seq<Message>) returns (r: seq<Message>)
    ensures local == [] ==> r == history
    ensures local != [] ==> Sorted(Numerics(r))
    ensures Distinct(Ids(history)) && Distinct(Ids(local)) ==>
      Distinct(Ids(r)) && Elements(Ids(r)) == Elements(Ids(history)) + Elements(Ids(local))
    ensures Distinct(Ids(history)) && Distinct(Ids(local)) ==> ShowsRows(r, history, local)
    ensures RightRows(r, history, local)
    ensures local != [] ==> OrderedWalk(r, history, local)
  {
    if |local| == 0 {
      HistoryRows(history);
      HistoryShows(history);
      return history;
    }
    var merged := MergeWalk(history, local);
    hide Walk, RightRow;
    if Distinct(Ids(history)) && Distinct(Ids(local)) {
      MergeIsUnion(Ids(history), Ids(local));
    }
    OrderKeepsIds(merged);
    OrderIsStableInPlace(merged);
    hide OrderServerMessages;
    r := OrderServerMessages(merged);
    if Distinct(Ids(history)) && Distinct(Ids(local)) {
      ShownIds(r, history, local);
    }
  }

  lemma HistoryShows(history: seq<Message>)
    ensures ShowsRows(history, history, [])
  {
  }

  lemma ShownIds(r: seq<Message>, history: seq<Message>, local: seq<Message>)
    requires RightRows(r, history, local) && Distinct(Ids(history)) && Distinct(Ids(local))
    requires Elements(Ids(r)) == Elements(Ids(history)) + Elements(Ids(local))
    ensures ShowsRows(r, history, local)
  {
    hide RightRows, ShowsRows;
    forall id ensures id in Ids(r) <==> id in Ids(history) || id in Ids(local) {
      assert id in Elements(Ids(r)) <==> id in Elements(Ids(history)) || id in Elements(Ids(local));
    }
    RightRowsShow(history, local, r);
  }

  lemma HistoryRows(history: seq<Message>)
    ensures RightRows(history, history, [])
  {
    forall row <- history ensures RightRow(row, history, []) {
      var i :| 0 <= i < |history| && history[i] == row;
      assert Ids(history)[i] == row.id && Choice(row, []) == row;
    }
  }

  /** `findIndex`. */
  function FirstIndex(s: seq<Id>, id: Id): (at: Option<nat>)
    ensures at.None? <==> id !in s
    ensures at.Some? ==> at.value < |s| && s[at.value] == id
  {
    if s == [] then None
    else if s[0] == id then Some(0)
    else
      match FirstIndex(s[1..], id)
      case None => None
      case Some(at) => Some(at + 1)
  }

  function UpsertMessage(messages: seq<Message>, message: Message): (r: seq<Message>)
  {
    var at := FirstIndex(Ids(messages), message.id);
    if at.None? then OrderServerMessages(messages + [message])
    else
      var item := messages[at.value];
      OrderServerMessages(messages[at.value := if !item.seqno.Absent? && message.seqno.Absent? then item else message])
  }

  lemma AppendDistinct(messages: seq<Message>, message: Message)
    requires Distinct(Ids(messages)) && message.id !in Ids(messages)
    ensures Distinct(Ids(messages + [message]))
    ensures Elements(Ids(messages + [message])) == Elements(Ids(messages)) + {message.id}
  {
    assert Ids(messages + [message]) == Ids(messages) + [message.id];
    var ids := Ids(messages);
    forall i, j | 0 <= i < j < |ids| + 1 ensures (ids + [message.id])[i] != (ids + [message.id])[j] {
      if j == |ids| { assert ids[i] in ids; }
    }
  }

  lemma ReplaceDistinct(messages: seq<Message>, at: nat, row: Message)
    requires at < |messages| && row.id == messages[at].id
    ensures Ids(messages[at := row]) == Ids(messages)
  {
  }

  /** Upserting keeps ids distinct and every other row as it was; the row shown for
      the id is the new one, unless that would replace a row the server has
      numbered by one it has not. */
  lemma UpsertShows(messages: seq<Message>, message: Message)
    requires Distinct(Ids(messages))
    ensures var r := UpsertMessage(messages, message);
      && Distinct(Ids(r))
      && Elements(Ids(r)) == Elements(Ids(messages)) + {message.id}
      && (forall row: Message :: row.id != message.id ==> (row in r <==> row in messages))
      && (message.id !in Ids(messages) ==> message in r)
      && (forall row <- messages :: row.id == message.id ==>
           (if !row.seqno.Absent? && message.seqno.Absent? then row else message) in r)
  {
    hide OrderServerMessages;
    var at := FirstIndex(Ids(messages), message.id);
    if at.None? {
      AppendDistinct(messages, message);
      OrderKeepsIds(messages + [message]);
      assert forall row <- messages :: row.id in Ids(messages) by { MembersIds(messages); }
    } else {
      var item := messages[at.value];
      var row := if !item.seqno.Absent? && message.seqno.Absent? then item else message;
      ReplaceDistinct(messages, at.value, row);
      OrderKeepsIds(messages[at.value := row]);
      OneHolder(messages, at.value);
      assert messages[at.value := row][at.value] == row;
      OthersStay(messages, at.value, row);
    }
  }

  lemma MembersIds(messages: seq<Message>)
    ensures forall row <- messages :: row.id in Ids(messages)
  {
    forall row <- messages ensures row.id in Ids(messages) {
      var i :| 0 <= i < |messages| && messages[i] == row;
      assert Ids(messages)[i] == row.id;
    }
  }

  lemma OneHolder(messages: seq<Message>, at: nat)
    requires at < |messages| && Distinct(Ids(messages))
    ensures forall row <- messages :: row.id == messages[at].id ==> row == messages[at]
  {
    forall i | 0 <= i < |messages| && messages[i].id == messages[at].id ensures i == at {
      assert Ids(messages)[i] == Ids(messages)[at];
    }
  }

  lemma OthersStay(messages: seq<Message>, at: nat, row: Message)
    requires at < |messages| && row.id == messages[at].id
    ensures forall other: Message :: other.id != row.id ==> (other in messages[at := row] <==> other in messages)
  {
    forall other: Message | other.id != row.id && other in messages ensures other in messages[at := row] {
      var i :| 0 <= i < |messages| && messages[i] == other;
      assert messages[at := row][i] == other;
    }
  }

  /** An unnumbered message the list did not know goes to the end. */
  lemma UpsertAppends(messages: seq<Message>, message: Message)
    requires message.id !in Ids(messages) && !IsNumeric(message)
    ensures var r := UpsertMessage(messages, message); r != [] && r[|r| - 1] == message
  {
    OrderIsStableInPlace(messages + [message]);
    hide OrderServerMessages;
  }
}
