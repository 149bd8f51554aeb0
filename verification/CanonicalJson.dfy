/** Stable identity bytes of JSON values, and the legacy readings of their floats. */
module CanonicalJson {
  import opened Prelude
  import opened JsonPointer

  type Bytes = seq<Byte>

  // ---- `sort_all_objects` ----

  function KeyLess(a: string, b: string): (less: bool)
  {
    if b == "" then false
    else if a == "" then true
    else a[0] < b[0] || (a[0] == b[0] && KeyLess(a[1..], b[1..]))
  }

  /** The order of keys: the first difference decides, and a prefix comes first. */
  lemma {:induction false} KeyLessIsLexicographic(a: string, b: string)
    ensures KeyLess(a, b) <==>
      exists k :: 0 <= k <= |a| && k < |b| && a[..k] == b[..k] && (k == |a| || a[k] < b[k])
  {
    if a != "" && b != "" && a[0] == b[0] {
      KeyLessIsLexicographic(a[1..], b[1..]);
      if KeyLess(a, b) {
        var k :| 0 <= k <= |a[1..]| && k < |b[1..]| && a[1..][..k] == b[1..][..k]
          && (k == |a[1..]| || a[1..][k] < b[1..][k]);
        assert a[..k + 1] == [a[0]] + a[1..][..k] && b[..k + 1] == [b[0]] + b[1..][..k];
      }
      if k :| 0 <= k <= |a| && k < |b| && a[..k] == b[..k] && (k == |a| || a[k] < b[k]) {
        assert k > 0;
        assert a[1..][..k - 1] == a[..k][1..] && b[1..][..k - 1] == b[..k][1..];
      }
    } else if KeyLess(a, b) {
      assert a[..0] == b[..0];
    } else {
      forall k | 0 < k <= |a| && k < |b| ensures a[..k] != b[..k] {
        assert a[..k][0] == a[0] && b[..k][0] == b[0];
      }
    }
  }

  function InsertEntry(e: Entry, sorted: seq<Entry>): (r: seq<Entry>)
    ensures forall x :: x in r <==> x == e || x in sorted
  {
    if sorted == [] || !KeyLess(sorted[0].key, e.key) then [e] + sorted
    else
      assert forall x <- sorted :: x == sorted[0] || x in sorted[1..];
      [sorted[0]] + InsertEntry(e, sorted[1..])
  }

  function SortEntries(entries: seq<Entry>): (r: seq<Entry>)
    ensures forall x :: x in r <==> x in entries
  {
    if entries == [] then [] else InsertEntry(entries[0], SortEntries(entries[1..]))
  }

  function SortAll(v: Value): (r: Value)
    decreases v, |Kids(v)| + 1
  {
    var sorted := Rebuild(v, SortKids(v, 0));
    match sorted
    case Obj(entries) => Obj(SortEntries(entries))
    case _ => sorted
  }

  function SortKids(v: Value, i: nat): (kids: seq<Value>)
    requires i <= |Kids(v)|
    ensures |kids| == |Kids(v)| - i
    decreases v, |Kids(v)| - i
  {
    if i == |Kids(v)| then [] else [SortAll(Kids(v)[i])] + SortKids(v, i + 1)
  }

  predicate KeysAscend(entries: seq<Entry>) {
    forall i, j :: 0 <= i < j < |entries| ==> KeyLess(entries[i].key, entries[j].key)
  }

  predicate DistinctKeys(entries: seq<Entry>) {
    forall i, j :: 0 <= i < j < |entries| ==> entries[i].key != entries[j].key
  }

  /** Every object lists its keys in ascending order. */
  predicate Canonical(v: Value)
    decreases v
  {
    && (v.Obj? ==> KeysAscend(v.entries))
    && forall i :: 0 <= i < |Kids(v)| ==> Canonical(Kids(v)[i])
  }

  lemma {:induction false} LessOrders(a: string, b: string, c: string)
    ensures !KeyLess(a, a)
    ensures KeyLess(a, b) && KeyLess(b, c) ==> KeyLess(a, c)
    ensures a != b ==> KeyLess(a, b) || KeyLess(b, a)
  {
    if a != "" {
      LessOrders(a[1..], if b == "" then "" else b[1..], if c == "" then "" else c[1..]);
      if b != "" && a != b && a[0] == b[0] {
        assert a == [a[0]] + a[1..] && b == [b[0]] + b[1..];
      }
    }
  }

  lemma {:induction false} InsertAscends(e: Entry, sorted: seq<Entry>)
    requires KeysAscend(sorted) && forall x <- sorted :: x.key != e.key
    ensures KeysAscend(InsertEntry(e, sorted))
  {
    if sorted != [] {
      LessOrders(sorted[0].key, e.key, "");
      if KeyLess(sorted[0].key, e.key) {
        InsertAscends(e, sorted[1..]);
        var rest := InsertEntry(e, sorted[1..]);
        forall x <- rest ensures KeyLess(sorted[0].key, x.key) {
          if x != e { assert x in sorted[1..]; }
        }
      } else {
        forall x <- sorted ensures KeyLess(e.key, x.key) {
          LessOrders(e.key, sorted[0].key, x.key);
        }
      }
    }
  }

  lemma {:induction false} SortAscends(entries: seq<Entry>)
    requires DistinctKeys(entries)
    ensures KeysAscend(SortEntries(entries))
  {
    if entries != [] {
      assert forall i :: 0 <= i < |entries[1..]| ==> entries[1..][i] == entries[i + 1];
      SortAscends(entries[1..]);
      forall x <- SortEntries(entries[1..]) ensures x.key != entries[0].key {
        assert x in entries[1..];
        var i :| 0 <= i < |entries[1..]| && entries[1..][i] == x;
        assert entries[i + 1] == x;
      }
      InsertAscends(entries[0], SortEntries(entries[1..]));
    }
  }

  lemma AscendingAreDistinct(entries: seq<Entry>)
    requires KeysAscend(entries)
    ensures DistinctKeys(entries)
  {
    forall i, j | 0 <= i < j < |entries| ensures entries[i].key != entries[j].key {
      LessOrders(entries[i].key, entries[j].key, "");
    }
  }

  lemma {:induction false} SortedKids(v: Value, i: nat)
    requires WellFormed(v) && i <= |Kids(v)|
    ensures forall k <- SortKids(v, i) :: Canonical(k) && WellFormed(k)
    decreases v, |Kids(v)| - i
  {
    if i < |Kids(v)| {
      assert WellFormed(Kids(v)[i]);
      SortedIsCanonical(Kids(v)[i]);
      SortedKids(v, i + 1);
    }
  }

  /** Sorting makes every object's keys ascend, and keeps the value well-formed. */
  lemma {:induction false} SortedIsCanonical(v: Value)
    requires WellFormed(v)
    ensures Canonical(SortAll(v)) && WellFormed(SortAll(v))
    decreases v, |Kids(v)| + 1
  {
    var kids := SortKids(v, 0);
    SortedKids(v, 0);
    var r := Rebuild(v, kids);
    if v.Obj? {
      SortAscends(r.entries);
      AscendingAreDistinct(SortEntries(r.entries));
      forall i | 0 <= i < |SortEntries(r.entries)|
        ensures Canonical(SortEntries(r.entries)[i].value) && WellFormed(SortEntries(r.entries)[i].value)
      {
        var e := SortEntries(r.entries)[i];
        assert e in r.entries;
        var j :| 0 <= j < |r.entries| && r.entries[j] == e;
        assert kids[j] == e.value;
      }
    }
  }

  // ---- What sorting identifies ----

  /** The same value up to the order in which its objects, at every level, list their entries. */
  ghost predicate Equiv(v: Value, w: Value)
    decreases v
  {
    match v
    case Arr(items) =>
      w.Arr? && |w.items| == |items| && forall i :: 0 <= i < |items| ==> Equiv(items[i], w.items[i])
    case Obj(entries) =>
      && w.Obj?
      && (forall i :: 0 <= i < |entries| ==> Has(w.entries, entries[i]))
      && (forall j :: 0 <= j < |w.entries| ==> IsHad(entries, w.entries[j]))
    case _ => w == v
  }

  ghost predicate SameEntry(e: Entry, f: Entry)
    decreases e, 0
  {
    e.key == f.key && Equiv(e.value, f.value)
  }

  ghost predicate Has(entries: seq<Entry>, e: Entry)
    decreases e, 1
  {
    exists j :: 0 <= j < |entries| && SameEntry(e, entries[j])
  }

  ghost predicate IsHad(entries: seq<Entry>, f: Entry)
    decreases entries
  {
    exists i :: 0 <= i < |entries| && SameEntry(entries[i], f)
  }

  lemma {:induction false} AscendingUnique(a: seq<Entry>, b: seq<Entry>)
    requires KeysAscend(a) && KeysAscend(b) && forall x :: x in a <==> x in b
    ensures a == b
  {
    NonEmpty(a);
    NonEmpty(b);
    assert Elements(a) == Elements(b);
    if a != [] {
      assert a[0] in b && b[0] in a;
      LessOrders(a[0].key, b[0].key, a[0].key);
      LessOrders(a[0].key, a[0].key, a[0].key);
      assert a[0] == b[0];
      AscendingTail(a);
      AscendingTail(b);
      forall x ensures x in a[1..] <==> x in b[1..] {
        assert x in a <==> x == a[0] || x in a[1..];
        assert x in b <==> x == b[0] || x in b[1..];
      }
      AscendingUnique(a[1..], b[1..]);
      assert a == [a[0]] + a[1..] && b == [b[0]] + b[1..];
    }
  }

  lemma NonEmpty(s: seq<Entry>)
    ensures Elements(s) == {} ==> s == []
  {
    if s != [] {
      assert s[0] in Elements(s);
    }
  }

  lemma AscendingTail(a: seq<Entry>)
    requires KeysAscend(a) && a != []
    ensures KeysAscend(a[1..]) && a[0] !in a[1..]
  {
    AscendingAreDistinct(a);
    assert forall i :: 0 <= i < |a[1..]| ==> a[1..][i] == a[i + 1];
  }

  predicate EachIn(a: seq<Entry>, b: seq<Entry>) {
    forall i :: 0 <= i < |a| ==> a[i] in b
  }

  lemma SameSortedEach(a: seq<Entry>, b: seq<Entry>)
    requires SortEntries(a) == SortEntries(b)
    ensures EachIn(a, b)
  {
    forall i | 0 <= i < |a| ensures a[i] in b {
      assert a[i] in SortEntries(a);
    }
  }

  lemma SortsAlikeIff(a: seq<Entry>, b: seq<Entry>)
    requires DistinctKeys(a) && DistinctKeys(b)
    ensures SortEntries(a) == SortEntries(b) <==> EachIn(a, b) && EachIn(b, a)
  {
    SortAscends(a);
    SortAscends(b);
    if EachIn(a, b) && EachIn(b, a) {
      AscendingUnique(SortEntries(a), SortEntries(b));
    }
    if SortEntries(a) == SortEntries(b) {
      SameSortedEach(a, b);
      SameSortedEach(b, a);
    }
  }

  lemma {:induction false} SortKidsAt(v: Value, i: nat, k: nat)
    requires i + k < |Kids(v)|
    ensures SortKids(v, i)[k] == SortAll(Kids(v)[i + k])
    decreases k
  {
    hide SortAll;
    if k > 0 {
      SortKidsAt(v, i + 1, k - 1);
    }
  }

  /** An object's entries with their values sorted, before they are put in order. */
  function SortedValues(v: Value): (entries: seq<Entry>)
    requires v.Obj?
    ensures SortAll(v) == Obj(SortEntries(entries))
  {
    Rebuild(v, SortKids(v, 0)).entries
  }

  lemma SortedValuesAre(v: Value)
    requires v.Obj?
    ensures var s := SortedValues(v);
      && |s| == |v.entries|
      && forall i :: 0 <= i < |s| ==> s[i] == Entry(v.entries[i].key, SortAll(v.entries[i].value))
  {
    forall i | 0 <= i < |v.entries| ensures SortKids(v, 0)[i] == SortAll(v.entries[i].value) {
      SortKidsAt(v, 0, i);
    }
  }

  lemma SortedShape(v: Value)
    ensures v.Obj? <==> SortAll(v).Obj?
    ensures v.Arr? <==> SortAll(v).Arr?
    ensures v.Arr? ==> (
      && |SortAll(v).items| == |v.items|
      && forall i :: 0 <= i < |v.items| ==> SortAll(v).items[i] == SortAll(v.items[i]))
    ensures !v.Arr? && !v.Obj? ==> SortAll(v) == v
  {
    if v.Arr? {
      forall i | 0 <= i < |v.items| ensures SortKids(v, 0)[i] == SortAll(v.items[i]) {
        SortKidsAt(v, 0, i);
      }
    }
  }

  /** Sorting gives two values the same form exactly when they are the same up to the
      order of keys: nothing is dropped, added or merged. */
  lemma {:induction false} SortedAlikeIff(v: Value, w: Value)
    requires WellFormed(v) && WellFormed(w)
    ensures SortAll(v) == SortAll(w) <==> Equiv(v, w)
    decreases v, 1
  {
    SortedShape(v);
    SortedShape(w);
    if v.Arr? && w.Arr? {
      if |v.items| == |w.items| {
        forall i | 0 <= i < |v.items|
          ensures SortAll(v.items[i]) == SortAll(w.items[i]) <==> Equiv(v.items[i], w.items[i])
        {
          assert WellFormed(Kids(v)[i]) && WellFormed(Kids(w)[i]);
          SortedAlikeIff(v.items[i], w.items[i]);
        }
      }
    } else if v.Obj? && w.Obj? {
      ObjectsAlikeIff(v, w);
    }
  }

  lemma {:induction false} ObjectsAlikeIff(v: Value, w: Value)
    requires v.Obj? && w.Obj? && WellFormed(v) && WellFormed(w)
    ensures SortAll(v) == SortAll(w) <==> Equiv(v, w)
    decreases v, 0
  {
    var a, b := SortedValues(v), SortedValues(w);
    SortedValuesAre(v);
    SortedValuesAre(w);
    SortsAlikeIff(a, b);
    hide SortAll, SortEntries, SortedValues, Equiv, DistinctKeys;
    forall i, j | 0 <= i < |a| && 0 <= j < |b| ensures a[i] == b[j] <==> SameEntry(v.entries[i], w.entries[j]) {
      assert WellFormed(Kids(v)[i]) && WellFormed(Kids(w)[j]);
      SortedAlikeIff(v.entries[i].value, w.entries[j].value);
    }
    SameElementsIff(v, w, a, b);
  }

  lemma SameElementsIff(v: Value, w: Value, a: seq<Entry>, b: seq<Entry>)
    requires v.Obj? && w.Obj? && |a| == |v.entries| && |b| == |w.entries|
    requires forall i, j :: 0 <= i < |a| && 0 <= j < |b| ==> (a[i] == b[j] <==> SameEntry(v.entries[i], w.entries[j]))
    ensures EachIn(a, b) && EachIn(b, a) <==> Equiv(v, w)
  {
    hide SameEntry;
    forall i | 0 <= i < |a|
      ensures a[i] in b <==> Has(w.entries, v.entries[i])
    {
      if a[i] in b {
        var j :| 0 <= j < |b| && a[i] == b[j];
        assert SameEntry(v.entries[i], w.entries[j]);
      }
    }
    forall j | 0 <= j < |b|
      ensures b[j] in a <==> IsHad(v.entries, w.entries[j])
    {
      if b[j] in a {
        var i :| 0 <= i < |a| && a[i] == b[j];
        assert SameEntry(v.entries[i], w.entries[j]);
      }
    }
  }

  lemma {:induction false} CanonicalStays(v: Value)
    requires Canonical(v)
    ensures SortAll(v) == v
    decreases v
  {
    SortedShape(v);
    forall i | 0 <= i < |Kids(v)| ensures SortAll(Kids(v)[i]) == Kids(v)[i] {
      CanonicalStays(Kids(v)[i]);
    }
    if v.Obj? {
      SortedValuesAre(v);
      assert SortedValues(v) == v.entries by {
        assert forall i :: 0 <= i < |v.entries| ==> SortAll(Kids(v)[i]) == v.entries[i].value;
      }
      AscendingAreDistinct(v.entries);
      SortAscends(v.entries);
      AscendingUnique(SortEntries(v.entries), v.entries);
    } else if v.Arr? {
      assert SortAll(v).items == v.items;
    }
  }

  /** The sorted value is the value itself up to the order of keys. */
  lemma SortedIsEquiv(v: Value)
    requires WellFormed(v)
    ensures Equiv(v, SortAll(v)) && SortAll(SortAll(v)) == SortAll(v)
  {
    SortedIsCanonical(v);
    CanonicalStays(SortAll(v));
    SortedAlikeIff(v, SortAll(v));
  }

  // ---- Doubles near a double ----

  const DRIFT := 3
  const FLOAT_LIMIT := 3
  const SIGN_BIT := 0x8000_0000_0000_0000

  predicate Finite(bits: Bits) {
    bits / 0x10_0000_0000_0000 % 0x800 != 0x7FF
  }

  predicate SameSign(a: Bits, b: Bits) {
    (a >= SIGN_BIT) == (b >= SIGN_BIT)
  }

  function Lowest(bits: Bits): (low: Bits)
    ensures low <= bits
  {
    if bits >= DRIFT then bits - DRIFT else 0
  }

  /** The candidates among the doubles from the lowest neighbour up to `end`. */
  function Candidates(bits: Bits, end: Bits): (c: seq<Bits>)
    requires Lowest(bits) <= end
    decreases end
  {
    if end == Lowest(bits) then []
    else
      Candidates(bits, end - 1) + if Finite(end - 1) && SameSign(end - 1, bits) then [end - 1] else []
  }

  function Readings(bits: Bits): (c: seq<Bits>)
  {
    Candidates(bits, bits + DRIFT + 1)
  }

  lemma {:induction false} CandidatesAre(bits: Bits, end: Bits)
    requires Lowest(bits) <= end
    ensures forall x :: x in Candidates(bits, end) <==> Lowest(bits) <= x < end && Finite(x) && SameSign(x, bits)
    ensures |Candidates(bits, end)| <= end - Lowest(bits)
    decreases end
  {
    if end > Lowest(bits) {
      CandidatesAre(bits, end - 1);
    }
  }

  /** The readings are exactly the finite doubles of the same sign within three
      units in the last place: at most seven, the exact one among them. */
  lemma ReadingsAre(bits: Bits)
    ensures forall x: Bits :: x in Readings(bits) <==>
      bits <= x + DRIFT && x <= bits + DRIFT && Finite(x) && SameSign(x, bits)
    ensures |Readings(bits)| <= 7
    ensures Finite(bits) ==> bits in Readings(bits)
  {
    CandidatesAre(bits, bits + DRIFT + 1);
  }

  // ---- Through pointers ----

  function PointerOf(v: Value, pointer: string): (r: Option<Value>)
  {
    var tokens := Tokens(pointer);
    if tokens.None? then None else Resolve(v, tokens.value)
  }

  /** `*pointer_mut(pointer) = x`, when there is such a place. */
  function Put(v: Value, pointer: string, x: Value): (r: Value)
  {
    var tokens := Tokens(pointer);
    if tokens.None? then v else Assign(v, tokens.value, x)
  }

  predicate IsFloatAt(v: Value, pointer: string) {
    var r := PointerOf(v, pointer);
    r.Some? && r.value.Float?
  }

  predicate AllFloats(v: Value, pointers: seq<string>) {
    forall p <- pointers :: IsFloatAt(v, p)
  }

  lemma RebuiltFinds(v: Value, kids: seq<Value>, token: string)
    requires |kids| == |Kids(v)|
    ensures FindKid(Rebuild(v, kids), token) == FindKid(v, token)
  {
    if v.Obj? {
      SameKeysFind(v.entries, Rebuild(v, kids).entries, Unescape(token));
    }
  }

  lemma {:induction false} SameKeysFind(a: seq<Entry>, b: seq<Entry>, key: string)
    requires |a| == |b| && forall i :: 0 <= i < |a| ==> a[i].key == b[i].key
    ensures FindKey(a, key) == FindKey(b, key)
  {
    if a != [] {
      assert forall i :: 0 <= i < |a[1..]| ==> a[1..][i] == a[i + 1] && b[1..][i] == b[i + 1];
      SameKeysFind(a[1..], b[1..], key);
    }
  }

  lemma {:induction false} AssignTwice(v: Value, tokens: seq<string>, x: Value, y: Value)
    ensures Assign(Assign(v, tokens, x), tokens, y) == Assign(v, tokens, y)
    decreases tokens
  {
    if tokens != [] {
      var at := FindKid(v, tokens[0]);
      if at.Some? {
        var kids := Kids(v)[at.value := Assign(Kids(v)[at.value], tokens[1..], x)];
        RebuiltFinds(v, kids, tokens[0]);
        AssignTwice(Kids(v)[at.value], tokens[1..], x, y);
        var others := Kids(v)[at.value := Assign(Kids(v)[at.value], tokens[1..], y)];
        assert kids[at.value := Assign(kids[at.value], tokens[1..], y)] == others;
        RebuildTwice(v, kids, others);
      }
    }
  }

  lemma {:induction false} AssignOwn(v: Value, tokens: seq<string>)
    requires Resolve(v, tokens).Some?
    ensures Assign(v, tokens, Resolve(v, tokens).value) == v
    decreases tokens
  {
    if tokens != [] {
      var at := FindKid(v, tokens[0]).value;
      AssignOwn(Kids(v)[at], tokens[1..]);
      assert Kids(v)[at := Kids(v)[at]] == Kids(v);
      RebuildOwn(v);
    }
  }

  lemma {:induction false} FloatStays(v: Value, at: seq<string>, other: seq<string>, x: Bits)
    requires Resolve(v, at).Some? && Resolve(v, at).value.Float?
    requires Resolve(v, other).Some? && Resolve(v, other).value.Float?
    ensures var r := Resolve(Assign(v, at, Float(x)), other); r.Some? && r.value.Float?
    ensures Resolve(Assign(v, at, Float(x)), at) == Some(Float(x))
    decreases at
  {
    if at != [] {
      var i := FindKid(v, at[0]).value;
      var kids := Kids(v)[i := Assign(Kids(v)[i], at[1..], Float(x))];
      RebuiltFinds(v, kids, at[0]);
      if other != [] {
        RebuiltFinds(v, kids, other[0]);
        if FindKid(v, other[0]) == Some(i) {
          FloatStays(Kids(v)[i], at[1..], other[1..], x);
        } else {
          FloatStays(Kids(v)[i], at[1..], at[1..], x);
        }
      }
    }
  }

  /** Writing a float and reading, rewriting or restoring it. */
  lemma PutFloat(v: Value, p: string, x: Bits)
    requires IsFloatAt(v, p)
    ensures PointerOf(Put(v, p, Float(x)), p) == Some(Float(x))
    ensures forall y :: Put(Put(v, p, Float(x)), p, y) == Put(v, p, y)
    ensures Put(v, p, PointerOf(v, p).value) == v
  {
    var tokens := Tokens(p).value;
    FloatStays(v, tokens, tokens, x);
    AssignOwn(v, tokens);
    forall y ensures Assign(Assign(v, tokens, Float(x)), tokens, y) == Assign(v, tokens, y) {
      AssignTwice(v, tokens, Float(x), y);
    }
  }

  lemma PutKeepsFloats(v: Value, p: string, x: Bits, pointers: seq<string>)
    requires IsFloatAt(v, p) && AllFloats(v, pointers)
    ensures AllFloats(Put(v, p, Float(x)), pointers)
  {
    forall q <- pointers ensures IsFloatAt(Put(v, p, Float(x)), q) {
      assert IsFloatAt(v, q);
      FloatStays(v, Tokens(p).value, Tokens(q).value, x);
    }
  }

  // ---- `vary` ----

  /** The values `vary` encodes, in order. */
  function Varied(work: Value, floats: seq<string>): (values: seq<Value>)
    decreases floats, 0
  {
    if floats == [] then [work]
    else if !IsFloatAt(work, floats[0]) then []
    else VariedOver(work, floats, Readings(PointerOf(work, floats[0]).value.bits))
  }

  function VariedOver(work: Value, floats: seq<string>, candidates: seq<Bits>): (values: seq<Value>)
    requires floats != []
    decreases floats[1..], |candidates| + 1
  {
    if candidates == [] then []
    else
      var n := |candidates| - 1;
      VariedOver(work, floats, candidates[..n]) + Varied(Put(work, floats[0], Float(candidates[n])), floats[1..])
  }

  /** The encodings that succeed. */
  function Encodings(encode: Value -> Option<Bytes>, values: seq<Value>): (out: seq<Bytes>)
  {
    if values == [] then []
    else
      var bytes := encode(values[0]);
      (if bytes.Some? then [bytes.value] else []) + Encodings(encode, values[1..])
  }

  lemma {:induction false} EncodingsAppend(encode: Value -> Option<Bytes>, a: seq<Value>, b: seq<Value>)
    ensures Encodings(encode, a + b) == Encodings(encode, a) + Encodings(encode, b)
  {
    if a == [] {
      assert a + b == b;
    } else {
      assert (a + b)[1..] == a[1..] + b;
      EncodingsAppend(encode, a[1..], b);
    }
  }

  class Enumerator {
    const encode: Value -> Option<Bytes>
    var work: Value
    var out: seq<Bytes>

    constructor (encode: Value -> Option<Bytes>, work: Value)
      ensures this.encode == encode && this.work == work && out == []
    {
      this.encode, this.work, out := encode, work, [];
    }

    /** Tries every reading of every listed float in place; afterwards the working
        value is what it was. */
    method Vary(floats: seq<string>)
      requires AllFloats(work, floats)
      modifies this
      ensures work == old(work)
      ensures out == old(out) + Encodings(encode, Varied(old(work), floats))
      decreases floats, 2
    {
      ghost var value, before := work, out;
      if floats == [] {
        EncodedOne(encode, value, before);
        var bytes := encode(work);
        if bytes.Some? {
          out := out + [bytes.value];
        }
        return;
      }
      assert IsFloatAt(work, floats[0]);
      var exact := PointerOf(work, floats[0]).value.bits;
      NothingTried(encode, value, floats, exact, before);
      AllTried(encode, value, floats, exact, before);
      assert Written(value, floats[0], work);
      hide *;
      TryReadings(value, floats, exact, before);
      Restored(value, floats[0], work, exact);
      work := Put(work, floats[0], Float(exact));
    }

    /** The loop over the neighbours of the first float. */
    method TryReadings(ghost value: Value, floats: seq<string>, exact: Bits, ghost before: seq<Bytes>)
      requires floats != [] && AllFloats(value, floats) && Written(value, floats[0], work)
      requires out == Tried(encode, value, floats, exact, Lowest(exact), before)
      modifies this
      ensures Written(value, floats[0], work)
      ensures out == Tried(encode, value, floats, exact, exact + DRIFT + 1, before)
      decreases floats, 1
    {
      var low := Lowest(exact);
      assert low <= exact;
      hide *;
      for neighbour := low to exact + DRIFT + 1
        invariant out == Tried(encode, value, floats, exact, neighbour, before)
        invariant Written(value, floats[0], work)
      {
        TriedNext(encode, value, floats, exact, neighbour, before);
        if !Finite(neighbour) || !SameSign(neighbour, exact) {
          continue;
        }
        TryReading(value, floats, neighbour);
      }
    }

    /** One reading of the first float, with every choice for the others. */
    method TryReading(ghost value: Value, floats: seq<string>, candidate: Bits)
      requires floats != [] && AllFloats(value, floats) && Written(value, floats[0], work)
      modifies this
      ensures Written(value, floats[0], work)
      ensures out == old(out) + Encodings(encode, Varied(Put(value, floats[0], Float(candidate)), floats[1..]))
      decreases floats, 0
    {
      hide *;
      Rewritten(value, floats[0], work, candidate, floats);
      work := Put(work, floats[0], Float(candidate));
      Vary(floats[1..]);
    }
  }

  /** What is pushed once the loop has passed the readings below `neighbour`. */
  function Tried(encode: Value -> Option<Bytes>, value: Value, floats: seq<string>, exact: Bits, neighbour: Bits,
      before: seq<Bytes>)
    : (out: seq<Bytes>)
    requires floats != [] && Lowest(exact) <= neighbour
  {
    before + Encodings(encode, VariedOver(value, floats, Candidates(exact, neighbour)))
  }

  lemma NothingTried(encode: Value -> Option<Bytes>, value: Value, floats: seq<string>, exact: Bits, before: seq<Bytes>)
    requires floats != []
    ensures Tried(encode, value, floats, exact, Lowest(exact), before) == before
  {
  }

  lemma AllTried(encode: Value -> Option<Bytes>, value: Value, floats: seq<string>, exact: Bits, before: seq<Bytes>)
    requires floats != [] && PointerOf(value, floats[0]) == Some(Float(exact))
    ensures Tried(encode, value, floats, exact, exact + DRIFT + 1, before)
      == before + Encodings(encode, Varied(value, floats))
  {
  }

  lemma TriedNext(encode: Value -> Option<Bytes>, value: Value, floats: seq<string>, exact: Bits, candidate: Bits,
      before: seq<Bytes>)
    requires floats != [] && Lowest(exact) <= candidate
    ensures Tried(encode, value, floats, exact, candidate + 1, before)
      == if Finite(candidate) && SameSign(candidate, exact) then
           Tried(encode, value, floats, exact, candidate, before)
           + Encodings(encode, Varied(Put(value, floats[0], Float(candidate)), floats[1..]))
         else Tried(encode, value, floats, exact, candidate, before)
  {
    CandidateStep(exact, candidate);
    VariedNext(encode, value, floats, Candidates(exact, candidate), candidate, before);
    hide Candidates, VariedOver, Varied, Encodings, Put, Finite, SameSign;
  }

  /** The working value, perhaps with some double written at the pointer. */
  ghost predicate Written(value: Value, pointer: string, work: Value) {
    work == value || exists x: Bits :: work == Put(value, pointer, Float(x))
  }

  lemma EncodedOne(encode: Value -> Option<Bytes>, value: Value, before: seq<Bytes>)
    ensures before + Encodings(encode, Varied(value, []))
      == if encode(value).Some? then before + [encode(value).value] else before
  {
    assert Encodings(encode, [value][1..]) == [];
  }

  lemma CandidateStep(bits: Bits, candidate: Bits)
    requires Lowest(bits) <= candidate
    ensures Candidates(bits, candidate + 1)
      == if Finite(candidate) && SameSign(candidate, bits) then Candidates(bits, candidate) + [candidate]
         else Candidates(bits, candidate)
  {
  }

  lemma Rewritten(value: Value, pointer: string, work: Value, candidate: Bits, floats: seq<string>)
    requires floats != [] && pointer == floats[0] && AllFloats(value, floats)
    requires Written(value, pointer, work)
    ensures Put(work, pointer, Float(candidate)) == Put(value, pointer, Float(candidate))
    ensures Written(value, pointer, Put(value, pointer, Float(candidate)))
    ensures AllFloats(Put(value, pointer, Float(candidate)), floats[1..])
  {
    assert IsFloatAt(value, pointer);
    if work != value {
      var x: Bits :| work == Put(value, pointer, Float(x));
      PutFloat(value, pointer, x);
    }
    PutKeepsFloats(value, pointer, candidate, floats[1..]);
  }

  lemma Restored(value: Value, pointer: string, work: Value, exact: Bits)
    requires PointerOf(value, pointer) == Some(Float(exact))
    requires Written(value, pointer, work)
    ensures Put(work, pointer, Float(exact)) == value
  {
    PutFloat(value, pointer, exact);
    if work != value {
      var x: Bits :| work == Put(value, pointer, Float(x));
      PutFloat(value, pointer, x);
    }
  }

  lemma VariedNext(encode: Value -> Option<Bytes>, value: Value, floats: seq<string>, candidates: seq<Bits>,
      candidate: Bits, before: seq<Bytes>)
    requires floats != []
    ensures before + Encodings(encode, VariedOver(value, floats, candidates + [candidate]))
      == before + Encodings(encode, VariedOver(value, floats, candidates))
         + Encodings(encode, Varied(Put(value, floats[0], Float(candidate)), floats[1..]))
  {
    assert (candidates + [candidate])[..|candidates|] == candidates;
    EncodingsAppend(encode, VariedOver(value, floats, candidates),
      Varied(Put(value, floats[0], Float(candidate)), floats[1..]));
  }

  /** `legacy_variants`. */
  method LegacyVariants(encode: Value -> Option<Bytes>, value: Value) returns (r: Option<seq<Bytes>>)
    requires WellFormed(value)
    ensures r.None? <==> |Paths(SortAll(value))| > FLOAT_LIMIT
    ensures r.Some? ==> r.value == Encodings(encode, Varied(SortAll(value), CollectFloats(SortAll(value), "")))
  {
    var work := SortAll(value);
    SortedIsCanonical(value);
    var floats := CollectFloats(work, "");
    Collected(work);
    if |floats| > FLOAT_LIMIT {
      return None;
    }
    CollectedAreFloats(work);
    var e := new Enumerator(encode, work);
    e.Vary(floats);
    return Some(e.out);
  }

  lemma CollectedAreFloats(v: Value)
    requires WellFormed(v)
    ensures AllFloats(v, CollectFloats(v, ""))
  {
    Collected(v);
    var c := CollectFloats(v, "");
    forall p <- c ensures IsFloatAt(v, p) {
      var k :| 0 <= k < |c| && c[k] == p;
      PathReads(v, k);
    }
  }

  // ---- Exactly a product set ----

  /** Every choice of readings for the floats from `j` on. */
  function Choices(bits: seq<Bits>, j: nat): (c: seq<seq<Bits>>)
    requires j <= |bits|
    ensures forall i :: 0 <= i < |c| ==> |c[i]| == |bits|
    decreases |bits| - j, 0
  {
    if j == |bits| then [bits] else ChoicesOver(bits, j, Readings(bits[j]))
  }

  function ChoicesOver(bits: seq<Bits>, j: nat, candidates: seq<Bits>): (c: seq<seq<Bits>>)
    requires j < |bits|
    ensures forall i :: 0 <= i < |c| ==> |c[i]| == |bits|
    decreases |bits| - j - 1, |candidates| + 1
  {
    if candidates == [] then []
    else
      var n := |candidates| - 1;
      ChoicesOver(bits, j, candidates[..n]) + Choices(bits[j := candidates[n]], j + 1)
  }

  predicate IsChoice(bits: seq<Bits>, c: seq<Bits>, j: nat) {
    |c| == |bits| && forall i :: 0 <= i < |bits| ==> if i < j then c[i] == bits[i] else c[i] in Readings(bits[i])
  }

  lemma {:induction false} ChoicesAre(bits: seq<Bits>, j: nat)
    requires j <= |bits|
    ensures forall c :: c in Choices(bits, j) <==> IsChoice(bits, c, j)
    decreases |bits| - j, 0
  {
    if j < |bits| {
      ChoicesOverAre(bits, j, Readings(bits[j]));
      assert Choices(bits, j) == ChoicesOver(bits, j, Readings(bits[j]));
      hide Readings, Choices, ChoicesOver;
      assert forall c :: IsChoiceOver(bits, c, j, Readings(bits[j])) <==> IsChoice(bits, c, j);
    } else {
      forall c ensures c in Choices(bits, j) <==> IsChoice(bits, c, j) {
        if IsChoice(bits, c, j) { assert c == bits; }
      }
    }
  }

  predicate IsChoiceOver(bits: seq<Bits>, c: seq<Bits>, j: nat, candidates: seq<Bits>) {
    && |c| == |bits|
    && forall i :: 0 <= i < |bits| ==>
      if i < j then c[i] == bits[i] else if i == j then c[i] in candidates else c[i] in Readings(bits[i])
  }

  lemma {:induction false} ChoicesOverAre(bits: seq<Bits>, j: nat, candidates: seq<Bits>)
    requires j < |bits|
    ensures forall c :: c in ChoicesOver(bits, j, candidates) <==> IsChoiceOver(bits, c, j, candidates)
    decreases |bits| - j - 1, |candidates| + 1
  {
    if candidates != [] {
      var n := |candidates| - 1;
      ChoicesOverAre(bits, j, candidates[..n]);
      ChoicesAre(bits[j := candidates[n]], j + 1);
      hide Readings, Choices, ChoicesOver;
      forall c ensures IsChoiceOver(bits, c, j, candidates) <==>
        IsChoiceOver(bits, c, j, candidates[..n]) || IsChoice(bits[j := candidates[n]], c, j + 1)
      {
        ChoiceSplits(bits, c, j, candidates);
      }
      ChoicesOverUnfold(bits, j, candidates);
    } else {
      forall c ensures !IsChoiceOver(bits, c, j, candidates) {
        if |c| == |bits| { assert c[j] !in candidates; }
      }
    }
  }

  lemma ChoicesOverUnfold(bits: seq<Bits>, j: nat, candidates: seq<Bits>)
    requires j < |bits| && candidates != []
    ensures ChoicesOver(bits, j, candidates)
      == ChoicesOver(bits, j, candidates[..|candidates| - 1]) + Choices(bits[j := candidates[|candidates| - 1]], j + 1)
  {
  }

  lemma ChoiceSplits(bits: seq<Bits>, c: seq<Bits>, j: nat, candidates: seq<Bits>)
    requires j < |bits| && candidates != []
    ensures var n := |candidates| - 1;
      IsChoiceOver(bits, c, j, candidates) <==>
        IsChoiceOver(bits, c, j, candidates[..n]) || IsChoice(bits[j := candidates[n]], c, j + 1)
  {
    hide Readings;
    var n := |candidates| - 1;
    assert candidates == candidates[..n] + [candidates[n]];
  }

  lemma {:induction false} CandidatesDistinct(bits: Bits, end: Bits)
    requires Lowest(bits) <= end
    ensures Distinct(Candidates(bits, end))
    decreases end
  {
    if end > Lowest(bits) {
      CandidatesDistinct(bits, end - 1);
      CandidatesAre(bits, end - 1);
    }
  }

  lemma DistinctAppend<T>(a: seq<T>, b: seq<T>)
    requires Distinct(a) && Distinct(b) && forall x <- a :: x !in b
    ensures Distinct(a + b)
  {
    forall i, j | 0 <= i < j < |a + b| ensures (a + b)[i] != (a + b)[j] {
      if i < |a| <= j {
        assert a[i] in a && b[j - |a|] in b;
      }
    }
  }

  /** No choice is tried twice. */
  lemma {:induction false} ChoicesDistinct(bits: seq<Bits>, j: nat)
    requires j <= |bits|
    ensures Distinct(Choices(bits, j))
    decreases |bits| - j, 0
  {
    if j < |bits| {
      CandidatesDistinct(bits[j], bits[j] + DRIFT + 1);
      ChoicesOverDistinct(bits, j, Readings(bits[j]));
    }
  }

  lemma {:induction false} ChoicesOverDistinct(bits: seq<Bits>, j: nat, candidates: seq<Bits>)
    requires j < |bits| && Distinct(candidates)
    ensures Distinct(ChoicesOver(bits, j, candidates))
    decreases |bits| - j - 1, |candidates| + 1
  {
    if candidates != [] {
      var n := |candidates| - 1;
      var these := bits[j := candidates[n]];
      ChoicesOverUnfold(bits, j, candidates);
      ChoicesOverAre(bits, j, candidates[..n]);
      ChoicesAre(these, j + 1);
      hide ChoicesOver, Choices, Readings;
      ChoicesOverDistinct(bits, j, candidates[..n]);
      ChoicesDistinct(these, j + 1);
      forall c <- ChoicesOver(bits, j, candidates[..n]) ensures c !in Choices(these, j + 1) {
        assert c[j] in candidates[..n] && candidates[n] !in candidates[..n];
      }
      DistinctAppend(ChoicesOver(bits, j, candidates[..n]), Choices(these, j + 1));
    }
  }

  function Power(b: nat, e: nat): (p: nat)
  {
    if e == 0 then 1 else b * Power(b, e - 1)
  }

  lemma {:induction false} ChoicesBounded(bits: seq<Bits>, j: nat)
    requires j <= |bits|
    ensures |Choices(bits, j)| <= Power(7, |bits| - j)
    decreases |bits| - j, 0
  {
    if j < |bits| {
      assert Choices(bits, j) == ChoicesOver(bits, j, Readings(bits[j]));
      assert Power(7, |bits| - j) == 7 * Power(7, |bits| - j - 1);
      hide *;
      ReadingsAre(bits[j]);
      ChoicesOverBounded(bits, j, Readings(bits[j]));
      TimesGrows(|Readings(bits[j])|, 7, Power(7, |bits| - j - 1));
    }
  }

  lemma OneMore(n: nat, c: nat)
    ensures (n + 1) * c == n * c + c
  {
  }

  lemma TimesGrows(a: nat, b: nat, c: nat)
    requires a <= b
    ensures a * c <= b * c
  {
  }

  lemma {:induction false} ChoicesOverBounded(bits: seq<Bits>, j: nat, candidates: seq<Bits>)
    requires j < |bits|
    ensures |ChoicesOver(bits, j, candidates)| <= |candidates| * Power(7, |bits| - j - 1)
    decreases |bits| - j - 1, |candidates| + 1
  {
    if candidates != [] {
      var n := |candidates| - 1;
      ChoicesOverUnfold(bits, j, candidates);
      hide *;
      ChoicesOverBounded(bits, j, candidates[..n]);
      ChoicesBounded(bits[j := candidates[n]], j + 1);
      OneMore(n, Power(7, |bits| - j - 1));
    }
  }

  /** The value with each list of floats in turn. */
  function Built(v: Value, choices: seq<seq<Bits>>): (values: seq<Value>)
    requires forall i :: 0 <= i < |choices| ==> |choices[i]| == |Paths(v)|
  {
    seq(|choices|, i requires 0 <= i < |choices| => WithFloats(v, choices[i]))
  }

  /** The j-th collected pointer reads and writes the j-th float, whatever the others are. */
  lemma PointerIsFloat(v: Value, bits: seq<Bits>, j: nat, x: Bits)
    requires WellFormed(v) && |bits| == |Paths(v)| && j < |bits|
    ensures var p := CollectFloats(v, "");
      && |p| == |bits|
      && PointerOf(WithFloats(v, bits), p[j]) == Some(Float(bits[j]))
      && Put(WithFloats(v, bits), p[j], Float(x)) == WithFloats(v, bits[j := x])
  {
    Collected(v);
    WithShape(v, bits);
    var w := WithFloats(v, bits);
    PathReads(w, j);
    PathWrites(w, j, x);
    WithTwice(v, bits, bits[j := x]);
  }

  lemma {:induction false} VariedIsProduct(v: Value, bits: seq<Bits>, j: nat)
    requires WellFormed(v) && j <= |bits| == |Paths(v)|
    ensures |CollectFloats(v, "")| == |bits|
    ensures Varied(WithFloats(v, bits), CollectFloats(v, "")[j..]) == Built(v, Choices(bits, j))
    decreases |bits| - j, 0
  {
    Collected(v);
    var p := CollectFloats(v, "");
    if j < |bits| {
      PointerIsFloat(v, bits, j, 0);
      assert p[j..][0] == p[j];
      VariedOverIsProduct(v, bits, j, Readings(bits[j]));
    }
  }

  lemma {:induction false} VariedOverIsProduct(v: Value, bits: seq<Bits>, j: nat, candidates: seq<Bits>)
    requires WellFormed(v) && j < |bits| == |Paths(v)| == |CollectFloats(v, "")|
    ensures VariedOver(WithFloats(v, bits), CollectFloats(v, "")[j..], candidates)
      == Built(v, ChoicesOver(bits, j, candidates))
    decreases |bits| - j - 1, |candidates| + 1
  {
    var p := CollectFloats(v, "");
    assert p[j..][0] == p[j] && p[j..][1..] == p[j + 1..];
    if candidates != [] {
      var n := |candidates| - 1;
      VariedOverUnfold(WithFloats(v, bits), p[j..], candidates);
      ChoicesOverUnfold(bits, j, candidates);
      hide WellFormed, Varied, VariedOver, Choices, ChoicesOver, Put, WithFloats, CollectFloats, PointerOf, Built;
      VariedOverIsProduct(v, bits, j, candidates[..n]);
      PointerIsFloat(v, bits, j, candidates[n]);
      VariedIsProduct(v, bits[j := candidates[n]], j + 1);
      BuiltAppend(v, ChoicesOver(bits, j, candidates[..n]), Choices(bits[j := candidates[n]], j + 1));
    } else {
      NothingBuilt(v, bits, j);
    }
  }

  lemma NothingBuilt(v: Value, bits: seq<Bits>, j: nat)
    requires j < |bits|
    ensures Built(v, []) == [] && ChoicesOver(bits, j, []) == []
  {
  }

  lemma VariedOverUnfold(work: Value, floats: seq<string>, candidates: seq<Bits>)
    requires floats != [] && candidates != []
    ensures VariedOver(work, floats, candidates)
      == VariedOver(work, floats, candidates[..|candidates| - 1])
         + Varied(Put(work, floats[0], Float(candidates[|candidates| - 1])), floats[1..])
  {
  }

  lemma BuiltAppend(v: Value, a: seq<seq<Bits>>, b: seq<seq<Bits>>)
    requires forall i :: 0 <= i < |a| ==> |a[i]| == |Paths(v)|
    requires forall i :: 0 <= i < |b| ==> |b[i]| == |Paths(v)|
    ensures Built(v, a + b) == Built(v, a) + Built(v, b)
  {
    hide Paths, WithFloats;
  }

  /** The legacy variants of a value with at most three floats are the canonical
      encodings of the value with each float independently replaced by each of its
      readings, each choice once, nothing else and at most 7^k of them; the exact
      value is one. */
  lemma VariantsAreProduct(encode: Value -> Option<Bytes>, value: Value)
    requires WellFormed(value)
    ensures var work := SortAll(value);
      var choices := Choices(Floats(work), 0);
      && Encodings(encode, Varied(work, CollectFloats(work, ""))) == Encodings(encode, Built(work, choices))
      && (forall c :: c in choices <==> IsChoice(Floats(work), c, 0))
      && Distinct(choices) && |choices| <= Power(7, |Floats(work)|)
      && ((forall b <- Floats(work) :: Finite(b)) ==> work in Built(work, choices))
  {
    var work := SortAll(value);
    SortedIsCanonical(value);
    var bits := Floats(work);
    WithOwn(work);
    hide SortAll, WellFormed, Varied, Encodings, Choices, WithFloats, CollectFloats, Floats, Paths, Finite, Readings;
    VariedIsProduct(work, bits, 0);
    assert CollectFloats(work, "")[0..] == CollectFloats(work, "");
    ChoicesAre(bits, 0);
    ChoicesBounded(bits, 0);
    ChoicesDistinct(bits, 0);
    if forall b <- bits :: Finite(b) {
      forall i | 0 <= i < |bits| ensures bits[i] in Readings(bits[i]) {
        ReadingsAre(bits[i]);
      }
      assert IsChoice(bits, bits, 0);
      var i :| 0 <= i < |Choices(bits, 0)| && Choices(bits, 0)[i] == bits;
      assert Built(work, Choices(bits, 0))[i] == work;
    }
  }
}
