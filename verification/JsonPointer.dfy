/**
 JSON values, their floats in document order, and the pointers (RFC 6901) that
 name them: a collected pointer reads and writes exactly its own float.
 */
module JsonPointer {
  import opened Prelude

  /** A double as the bits of its representation (IEEE 754 binary64). */
  type Bits = nat

  datatype Value =
    | Null
    | Bool(b: bool)
    | Integer(n: int)
    | Float(bits: Bits)
    | Text(text: string)
    | Arr(items: seq<Value>)
    | Obj(entries: seq<Entry>)

  datatype Entry = Entry(key: string, value: Value)

  // ---- Children, by token ----

  function Kids(v: Value): (kids: seq<Value>)
    ensures forall i :: 0 <= i < |kids| ==> kids[i] < v
  {
    match v
    case Arr(items) => items
    case Obj(entries) => seq(|entries|, i requires 0 <= i < |entries| => entries[i].value)
    case _ => []
  }

  /** The same value with other children. */
  function Rebuild(v: Value, kids: seq<Value>): (r: Value)
    requires |kids| == |Kids(v)|
    ensures Kids(r) == kids
  {
    match v
    case Arr(items) => Arr(kids)
    case Obj(entries) =>
      var r := Obj(seq(|entries|, i requires 0 <= i < |entries| => Entry(entries[i].key, kids[i])));
      assert Kids(r) == kids;
      r
    case _ => v
  }

  // ---- Escaping ----

  /** `replace('~', "~0").replace('/', "~1")`. */
  function Escape(key: string): (s: string)
    ensures '/' !in s
  {
    if key == "" then ""
    else (if key[0] == '~' then "~0" else if key[0] == '/' then "~1" else [key[0]]) + Escape(key[1..])
  }

  /** Replaces every two-character `pattern`, left to right. */
  function Replace(s: string, first: char, second: char, by': char): (r: string)
  {
    if s == "" then ""
    else if |s| >= 2 && s[0] == first && s[1] == second then [by'] + Replace(s[2..], first, second, by')
    else [s[0]] + Replace(s[1..], first, second, by')
  }

  function Unescape(token: string): (s: string)
  {
    Replace(Replace(token, '~', '1', '/'), '~', '0', '~')
  }

  /** After the first replacement only `~0` is left of the escapes. */
  function HalfEscape(key: string): (s: string)
  {
    if key == "" then "" else (if key[0] == '~' then "~0" else [key[0]]) + HalfEscape(key[1..])
  }

  lemma {:induction false} FirstPass(key: string)
    ensures Replace(Escape(key), '~', '1', '/') == HalfEscape(key)
  {
    if key != "" {
      FirstPass(key[1..]);
      var rest := Escape(key[1..]);
      if key[0] == '~' {
        assert Escape(key)[1..] == "0" + rest && ("0" + rest)[1..] == rest;
        assert Replace("0" + rest, '~', '1', '/') == "0" + Replace(rest, '~', '1', '/');
      } else if key[0] == '/' {
        assert Escape(key)[2..] == rest;
      } else {
        assert Escape(key)[1..] == rest;
      }
    }
  }

  lemma {:induction false} SecondPass(key: string)
    ensures Replace(HalfEscape(key), '~', '0', '~') == key
  {
    if key != "" {
      SecondPass(key[1..]);
      if key[0] == '~' {
        assert HalfEscape(key)[2..] == HalfEscape(key[1..]);
      } else {
        assert HalfEscape(key)[1..] == HalfEscape(key[1..]);
      }
    }
  }

  lemma UnescapeInverts(key: string)
    ensures Unescape(Escape(key)) == key
  {
    FirstPass(key);
    SecondPass(key);
  }

  // ---- Array indices ----

  function Digit(d: nat): (c: char)
    requires d < 10
  {
    '0' + d as char
  }

  function Decimal(n: nat): (s: string)
    ensures s != "" && forall c <- s :: '0' <= c <= '9'
    ensures s[0] == '0' ==> |s| == 1
    ensures s[0] == '0' ==> n == 0
  {
    if n < 10 then [Digit(n)] else Decimal(n / 10) + [Digit(n % 10)]
  }

  function ParseDigits(s: string): (n: Option<nat>)
  {
    if s == "" then Some(0)
    else
      var c := s[|s| - 1];
      var front := ParseDigits(s[..|s| - 1]);
      if front.None? || c < '0' || c > '9' then None else Some(front.value * 10 + (c as int - '0' as int))
  }

  /** No sign, no leading zero. */
  function ParseIndex(s: string): (n: Option<nat>)
  {
    if s == "" || s[0] == '+' || (s[0] == '0' && |s| != 1) then None else ParseDigits(s)
  }

  lemma {:induction false} DigitsInvert(n: nat)
    ensures ParseDigits(Decimal(n)) == Some(n)
  {
    if n < 10 {
      assert [Digit(n)][..0] == "";
    } else {
      DigitsInvert(n / 10);
      assert (Decimal(n / 10) + [Digit(n % 10)])[..|Decimal(n / 10)|] == Decimal(n / 10);
    }
  }

  lemma {:induction false} NoEscapes(s: string)
    requires '~' !in s
    ensures Unescape(s) == s
  {
    ReplaceNone(s, '~', '1', '/');
    ReplaceNone(s, '~', '0', '~');
  }

  lemma {:induction false} ReplaceNone(s: string, first: char, second: char, by': char)
    requires first !in s
    ensures Replace(s, first, second, by') == s
  {
    if s != "" {
      ReplaceNone(s[1..], first, second, by');
    }
  }

  // ---- Pointers ----

  function Split(s: string): (tokens: seq<string>)
    ensures tokens != []
  {
    if s == "" then [""]
    else
      var front := Split(s[..|s| - 1]);
      var c := s[|s| - 1];
      if c == '/' then front + [""] else front[|front| - 1 := front[|front| - 1] + [c]]
  }

  /** The tokens of a pointer, still escaped: none for the empty pointer. */
  function Tokens(pointer: string): (tokens: Option<seq<string>>)
  {
    if pointer == "" then Some([])
    else if pointer[0] != '/' then None
    else Some(Split(pointer)[1..])
  }

  lemma {:induction false} SplitAppend(s: string, token: string)
    requires '/' !in token
    ensures Split(s + "/" + token) == Split(s) + [token]
  {
    var all := s + "/" + token;
    if token == "" {
      assert all[..|all| - 1] == s;
    } else {
      var front := token[..|token| - 1];
      assert all[..|all| - 1] == s + "/" + front;
      SplitAppend(s, front);
      assert front + [token[|token| - 1]] == token;
    }
  }

  lemma TokensAppend(pointer: string, token: string)
    requires Tokens(pointer).Some? && '/' !in token
    ensures Tokens(pointer + "/" + token) == Some(Tokens(pointer).value + [token])
  {
    SplitAppend(pointer, token);
    assert (pointer + "/" + token)[0] == '/';
    assert (Split(pointer) + [token])[1..] == Split(pointer)[1..] + [token];
  }

  function FindKey(entries: seq<Entry>, key: string): (at: Option<nat>)
    ensures at.Some? ==> at.value < |entries| && entries[at.value].key == key
  {
    if entries == [] then None
    else if entries[0].key == key then Some(0)
    else
      match FindKey(entries[1..], key)
      case None => None
      case Some(i) => Some(i + 1)
  }

  /** Which child a token names. */
  function FindKid(v: Value, token: string): (at: Option<nat>)
    ensures at.Some? ==> at.value < |Kids(v)|
  {
    match v
    case Arr(items) =>
      var i := ParseIndex(Unescape(token));
      if i.Some? && i.value < |items| then i else None
    case Obj(entries) => FindKey(entries, Unescape(token))
    case _ => None
  }

  function Resolve(v: Value, tokens: seq<string>): (r: Option<Value>)
    decreases tokens
  {
    if tokens == [] then Some(v)
    else
      var at := FindKid(v, tokens[0]);
      if at.None? then None else Resolve(Kids(v)[at.value], tokens[1..])
  }

  function Assign(v: Value, tokens: seq<string>, x: Value): (r: Value)
    decreases tokens
  {
    if tokens == [] then x
    else
      var at := FindKid(v, tokens[0]);
      if at.None? then v
      else Rebuild(v, Kids(v)[at.value := Assign(Kids(v)[at.value], tokens[1..], x)])
  }

  // ---- Floats in document order ----

  /** The escaped token of the i-th child. */
  function Label(v: Value, i: nat): (token: string)
    requires i < |Kids(v)|
    ensures '/' !in token
  {
    match v
    case Arr(_) => Decimal(i)
    case Obj(entries) => Escape(entries[i].key)
    case _ => ""
  }

  /** `collect_floats`. */
  function CollectFloats(v: Value, pointer: string): (out: seq<string>)
    decreases v, |Kids(v)| + 1
  {
    if v.Float? then [pointer] else CollectFrom(v, 0, pointer)
  }

  function CollectFrom(v: Value, i: nat, pointer: string): (out: seq<string>)
    requires i <= |Kids(v)|
    decreases v, |Kids(v)| - i
  {
    if i == |Kids(v)| then []
    else CollectFloats(Kids(v)[i], pointer + "/" + Label(v, i)) + CollectFrom(v, i + 1, pointer)
  }

  /** The token paths of the floats. */
  function Paths(v: Value): (paths: seq<seq<string>>)
    decreases v, |Kids(v)| + 1
  {
    if v.Float? then [[]] else PathsFrom(v, 0)
  }

  function Under(token: string, paths: seq<seq<string>>): (r: seq<seq<string>>)
    ensures |r| == |paths| && forall i :: 0 <= i < |r| ==> r[i] == [token] + paths[i]
  {
    seq(|paths|, i requires 0 <= i < |paths| => [token] + paths[i])
  }

  function PathsFrom(v: Value, i: nat): (paths: seq<seq<string>>)
    requires i <= |Kids(v)|
    decreases v, |Kids(v)| - i
  {
    if i == |Kids(v)| then [] else Under(Label(v, i), Paths(Kids(v)[i])) + PathsFrom(v, i + 1)
  }

  function Floats(v: Value): (bits: seq<Bits>)
    ensures |bits| == |Paths(v)|
    decreases v, |Kids(v)| + 1
  {
    if v.Float? then [v.bits] else FloatsFrom(v, 0)
  }

  function FloatsFrom(v: Value, i: nat): (bits: seq<Bits>)
    requires i <= |Kids(v)|
    ensures |bits| == |PathsFrom(v, i)|
    decreases v, |Kids(v)| - i
  {
    if i == |Kids(v)| then [] else Floats(Kids(v)[i]) + FloatsFrom(v, i + 1)
  }

  /** The value with its floats replaced, in document order. */
  function WithFloats(v: Value, bits: seq<Bits>): (r: Value)
    requires |bits| == |Paths(v)|
    decreases v, |Kids(v)| + 1
  {
    if v.Float? then Float(bits[0]) else Rebuild(v, WithFrom(v, 0, bits))
  }

  function WithFrom(v: Value, i: nat, bits: seq<Bits>): (kids: seq<Value>)
    requires i <= |Kids(v)| && |bits| == |PathsFrom(v, i)|
    ensures |kids| == |Kids(v)| - i
    decreases v, |Kids(v)| - i
  {
    if i == |Kids(v)| then []
    else
      var k := |Paths(Kids(v)[i])|;
      [WithFloats(Kids(v)[i], bits[..k])] + WithFrom(v, i + 1, bits[k..])
  }

  /** Object keys are distinct at every level. */
  predicate WellFormed(v: Value)
    decreases v
  {
    && (v.Obj? ==> forall i, j :: 0 <= i < j < |v.entries| ==> v.entries[i].key != v.entries[j].key)
    && forall i :: 0 <= i < |Kids(v)| ==> WellFormed(Kids(v)[i])
  }

  lemma {:induction false} FindOwnKey(entries: seq<Entry>, i: nat)
    requires i < |entries|
    requires forall a, b :: 0 <= a < b < |entries| ==> entries[a].key != entries[b].key
    ensures FindKey(entries, entries[i].key) == Some(i)
  {
    if i > 0 {
      assert forall a :: 0 <= a < |entries[1..]| ==> entries[1..][a] == entries[a + 1];
      FindOwnKey(entries[1..], i - 1);
    }
  }

  /** A child's own name finds it. */
  lemma FindOwnKid(v: Value, i: nat)
    requires WellFormed(v) && i < |Kids(v)|
    ensures FindKid(v, Label(v, i)) == Some(i)
  {
    if v.Obj? {
      UnescapeInverts(v.entries[i].key);
      FindOwnKey(v.entries, i);
    } else {
      var s := Decimal(i);
      NoEscapes(s);
      DigitsInvert(i);
      assert s[0] in s;
      assert ParseIndex(s) == Some(i);
    }
  }

  // ---- Collected pointers are the paths ----

  /** Pointer by pointer, the tokens are `base` and then the path. */
  ghost predicate Spells(pointers: seq<string>, base: seq<string>, paths: seq<seq<string>>) {
    |pointers| == |paths| && forall k :: 0 <= k < |pointers| ==> Tokens(pointers[k]) == Some(base + paths[k])
  }

  lemma SpellsJoin(a: seq<string>, b: seq<string>, base: seq<string>, pa: seq<seq<string>>, pb: seq<seq<string>>)
    requires Spells(a, base, pa) && Spells(b, base, pb)
    ensures Spells(a + b, base, pa + pb)
  {
    hide Tokens;
  }

  lemma SpellsUnder(pointers: seq<string>, base: seq<string>, name: string, paths: seq<seq<string>>)
    requires Spells(pointers, base + [name], paths)
    ensures Spells(pointers, base, Under(name, paths))
  {
    hide Tokens;
    forall k | 0 <= k < |paths| ensures (base + [name]) + paths[k] == base + ([name] + paths[k]) {
    }
  }

  lemma {:induction false} CollectedFrom(v: Value, i: nat, pointer: string)
    requires i <= |Kids(v)| && Tokens(pointer).Some?
    ensures Spells(CollectFrom(v, i, pointer), Tokens(pointer).value, PathsFrom(v, i))
    decreases v, |Kids(v)| - i
  {
    if i < |Kids(v)| {
      var (base, name, kid) := (Tokens(pointer).value, Label(v, i), Kids(v)[i]);
      hide Spells, Tokens, CollectFloats, Paths, Under, Label;
      TokensAppend(pointer, name);
      CollectedBelow(kid, pointer + "/" + name);
      SpellsUnder(CollectFloats(kid, pointer + "/" + name), base, name, Paths(kid));
      CollectedFrom(v, i + 1, pointer);
      SpellsJoin(CollectFloats(kid, pointer + "/" + name), CollectFrom(v, i + 1, pointer), base,
        Under(name, Paths(kid)), PathsFrom(v, i + 1));
    }
  }

  lemma {:induction false} CollectedBelow(v: Value, pointer: string)
    requires Tokens(pointer).Some?
    ensures Spells(CollectFloats(v, pointer), Tokens(pointer).value, Paths(v))
    decreases v, |Kids(v)| + 1
  {
    if v.Float? {
      assert Tokens(pointer).value + [] == Tokens(pointer).value;
    } else {
      CollectedFrom(v, 0, pointer);
    }
  }

  /** Every collected pointer parses to the path of its float. */
  lemma Collected(v: Value)
    ensures var c := CollectFloats(v, "");
      |c| == |Paths(v)| && forall k :: 0 <= k < |c| ==> Tokens(c[k]) == Some(Paths(v)[k])
  {
    CollectedBelow(v, "");
    hide CollectFloats, Paths;
    assert forall k :: 0 <= k < |Paths(v)| ==> [] + Paths(v)[k] == Paths(v)[k];
  }

  // ---- Reading and writing one float ----

  lemma {:induction false} PathReads(v: Value, k: nat)
    requires WellFormed(v) && k < |Paths(v)|
    ensures Resolve(v, Paths(v)[k]) == Some(Float(Floats(v)[k]))
    decreases v, |Kids(v)| + 1
  {
    if !v.Float? {
      PathReadsFrom(v, 0, k);
    }
  }

  lemma {:induction false} PathReadsFrom(v: Value, i: nat, k: nat)
    requires WellFormed(v) && i <= |Kids(v)| && k < |PathsFrom(v, i)|
    ensures Resolve(v, PathsFrom(v, i)[k]) == Some(Float(FloatsFrom(v, i)[k]))
    decreases v, |Kids(v)| - i
  {
    if k < |Paths(Kids(v)[i])| {
      FromHead(v, i, k);
      PathReads(Kids(v)[i], k);
      OwnStep(v, i, Paths(Kids(v)[i])[k]);
    } else {
      FromTail(v, i, k);
      PathReadsFrom(v, i + 1, k - |Paths(Kids(v)[i])|);
    }
  }

  lemma OwnStep(v: Value, i: nat, path: seq<string>)
    requires WellFormed(v) && i < |Kids(v)|
    ensures Resolve(v, [Label(v, i)] + path) == Resolve(Kids(v)[i], path)
    ensures forall x :: Assign(v, [Label(v, i)] + path, x) == Rebuild(v, Kids(v)[i := Assign(Kids(v)[i], path, x)])
  {
    FindOwnKid(v, i);
    hide FindKid, Label, WellFormed;
    assert ([Label(v, i)] + path)[1..] == path;
  }

  lemma FromTail(v: Value, i: nat, k: nat)
    requires i < |Kids(v)| && |Paths(Kids(v)[i])| <= k < |PathsFrom(v, i)|
    ensures k - |Paths(Kids(v)[i])| < |PathsFrom(v, i + 1)|
    ensures PathsFrom(v, i)[k] == PathsFrom(v, i + 1)[k - |Paths(Kids(v)[i])|]
    ensures FloatsFrom(v, i)[k] == FloatsFrom(v, i + 1)[k - |Paths(Kids(v)[i])|]
  {
  }

  lemma FromHead(v: Value, i: nat, k: nat)
    requires i < |Kids(v)| && k < |Paths(Kids(v)[i])|
    ensures k < |PathsFrom(v, i)|
    ensures PathsFrom(v, i)[k] == [Label(v, i)] + Paths(Kids(v)[i])[k]
    ensures FloatsFrom(v, i)[k] == Floats(Kids(v)[i])[k]
  {
  }

  lemma {:induction false} WithOwn(v: Value)
    ensures WithFloats(v, Floats(v)) == v
    decreases v, |Kids(v)| + 1
  {
    if !v.Float? {
      WithOwnFrom(v, 0);
      assert Kids(v)[0..] == Kids(v);
      RebuildOwn(v);
    }
  }

  lemma RebuildOwn(v: Value)
    ensures Rebuild(v, Kids(v)) == v
  {
    if v.Obj? {
      assert Rebuild(v, Kids(v)).entries == v.entries;
    }
  }

  lemma {:induction false} WithOwnFrom(v: Value, i: nat)
    requires i <= |Kids(v)|
    ensures WithFrom(v, i, FloatsFrom(v, i)) == Kids(v)[i..]
    decreases v, |Kids(v)| - i
  {
    if i < |Kids(v)| {
      var kid := Kids(v)[i];
      FloatsSlices(v, i);
      WithUnfold(v, i, FloatsFrom(v, i));
      hide *;
      WithOwn(kid);
      WithOwnFrom(v, i + 1);
      HeadTail(Kids(v), i);
    } else {
      assert Kids(v)[i..] == [];
    }
  }

  lemma HeadTail<T>(s: seq<T>, i: nat)
    requires i < |s|
    ensures s[i..] == [s[i]] + s[i + 1..]
  {
  }

  lemma WithUnfold(v: Value, i: nat, bits: seq<Bits>)
    requires i < |Kids(v)| && |bits| == |PathsFrom(v, i)|
    ensures |Paths(Kids(v)[i])| <= |bits|
    ensures WithFrom(v, i, bits)
      == [WithFloats(Kids(v)[i], bits[..|Paths(Kids(v)[i])|])] + WithFrom(v, i + 1, bits[|Paths(Kids(v)[i])|..])
  {
  }

  lemma FloatsSlices(v: Value, i: nat)
    requires i < |Kids(v)|
    ensures var n := |Paths(Kids(v)[i])|;
      && n <= |FloatsFrom(v, i)|
      && FloatsFrom(v, i)[..n] == Floats(Kids(v)[i]) && FloatsFrom(v, i)[n..] == FloatsFrom(v, i + 1)
  {
  }

  lemma {:induction false} PathWrites(v: Value, k: nat, x: Bits)
    requires WellFormed(v) && k < |Paths(v)|
    ensures Assign(v, Paths(v)[k], Float(x)) == WithFloats(v, Floats(v)[k := x])
    decreases v, |Kids(v)| + 1
  {
    if !v.Float? {
      PathWritesFrom(v, 0, k, x);
      assert Kids(v)[..0] + WithFrom(v, 0, FloatsFrom(v, 0)[k := x]) == WithFrom(v, 0, FloatsFrom(v, 0)[k := x]);
    }
  }

  lemma WithFromHead(v: Value, i: nat, k: nat, x: Bits)
    requires i < |Kids(v)| && k < |Paths(Kids(v)[i])|
    ensures k < |FloatsFrom(v, i)|
    ensures WithFrom(v, i, FloatsFrom(v, i)[k := x])
      == [WithFloats(Kids(v)[i], Floats(Kids(v)[i])[k := x])] + Kids(v)[i + 1..]
  {
    var kid := Kids(v)[i];
    var bits := FloatsFrom(v, i)[k := x];
    assert bits[..|Paths(kid)|] == Floats(kid)[k := x] && bits[|Paths(kid)|..] == FloatsFrom(v, i + 1);
    WithOwnFrom(v, i + 1);
  }

  lemma WithFromTail(v: Value, i: nat, k: nat, x: Bits)
    requires i < |Kids(v)| && |Paths(Kids(v)[i])| <= k < |PathsFrom(v, i)|
    ensures WithFrom(v, i, FloatsFrom(v, i)[k := x])
      == [Kids(v)[i]] + WithFrom(v, i + 1, FloatsFrom(v, i + 1)[k - |Paths(Kids(v)[i])| := x])
  {
    var kid := Kids(v)[i];
    var n := |Paths(kid)|;
    var bits := FloatsFrom(v, i)[k := x];
    assert bits[..n] == Floats(kid) && bits[n..] == FloatsFrom(v, i + 1)[k - n := x];
    WithOwn(kid);
  }

  lemma PutAt<T>(s: seq<T>, i: nat, x: T)
    requires i < |s|
    ensures s[i := x] == s[..i] + ([x] + s[i + 1..])
  {
  }

  lemma ShiftOne<T>(s: seq<T>, i: nat, rest: seq<T>)
    requires i < |s|
    ensures s[..i] + ([s[i]] + rest) == s[..i + 1] + rest
  {
  }

  lemma WriteHead(v: Value, i: nat, k: nat, x: Bits)
    requires WellFormed(v) && i < |Kids(v)| && k < |Paths(Kids(v)[i])|
    requires Assign(Kids(v)[i], Paths(Kids(v)[i])[k], Float(x)) == WithFloats(Kids(v)[i], Floats(Kids(v)[i])[k := x])
    ensures k < |PathsFrom(v, i)|
    ensures Assign(v, PathsFrom(v, i)[k], Float(x))
      == Rebuild(v, Kids(v)[..i] + WithFrom(v, i, FloatsFrom(v, i)[k := x]))
  {
    FromHead(v, i, k);
    WithFromHead(v, i, k, x);
    hide *;
    OwnStep(v, i, Paths(Kids(v)[i])[k]);
    var new' := WithFloats(Kids(v)[i], Floats(Kids(v)[i])[k := x]);
    PutAt(Kids(v), i, new');
  }

  lemma WriteTail(v: Value, i: nat, k: nat, x: Bits)
    requires i < |Kids(v)| && |Paths(Kids(v)[i])| <= k < |PathsFrom(v, i)|
    ensures k - |Paths(Kids(v)[i])| < |PathsFrom(v, i + 1)|
    ensures PathsFrom(v, i)[k] == PathsFrom(v, i + 1)[k - |Paths(Kids(v)[i])|]
    ensures Kids(v)[..i] + WithFrom(v, i, FloatsFrom(v, i)[k := x])
      == Kids(v)[..i + 1] + WithFrom(v, i + 1, FloatsFrom(v, i + 1)[k - |Paths(Kids(v)[i])| := x])
  {
    hide *;
    FromTail(v, i, k);
    WithFromTail(v, i, k, x);
    var rest := WithFrom(v, i + 1, FloatsFrom(v, i + 1)[k - |Paths(Kids(v)[i])| := x]);
    ShiftOne(Kids(v), i, rest);
  }

  lemma {:induction false} PathWritesFrom(v: Value, i: nat, k: nat, x: Bits)
    requires WellFormed(v) && i <= |Kids(v)| && k < |PathsFrom(v, i)|
    ensures Assign(v, PathsFrom(v, i)[k], Float(x))
      == Rebuild(v, Kids(v)[..i] + WithFrom(v, i, FloatsFrom(v, i)[k := x]))
    decreases v, |Kids(v)| - i
  {
    assert i < |Kids(v)|;
    hide Assign, WithFrom, WithFloats, Rebuild, Label, Paths, Floats;
    if k < |Paths(Kids(v)[i])| {
      assert WellFormed(Kids(v)[i]);
      PathWrites(Kids(v)[i], k, x);
      WriteHead(v, i, k, x);
    } else {
      WriteTail(v, i, k, x);
      PathWritesFrom(v, i + 1, k - |Paths(Kids(v)[i])|, x);
    }
  }

  // ---- Replacing floats keeps everything else ----

  lemma SameLabels(v: Value, kids: seq<Value>)
    requires |kids| == |Kids(v)|
    ensures forall i :: 0 <= i < |kids| ==> Label(Rebuild(v, kids), i) == Label(v, i)
    ensures Rebuild(v, kids).Float? <==> v.Float?
  {
  }

  lemma RebuiltWellFormed(v: Value, kids: seq<Value>)
    requires WellFormed(v) && |kids| == |Kids(v)| && forall i :: 0 <= i < |kids| ==> WellFormed(kids[i])
    ensures WellFormed(Rebuild(v, kids))
  {
  }

  /** Same paths, exactly the new floats. */
  lemma {:induction false} WithShape(v: Value, bits: seq<Bits>)
    requires WellFormed(v) && |bits| == |Paths(v)|
    ensures var r := WithFloats(v, bits);
      Paths(r) == Paths(v) && Floats(r) == bits && WellFormed(r)
    decreases v, |Kids(v)| + 1
  {
    if !v.Float? {
      var kids := WithFrom(v, 0, bits);
      SameLabels(v, kids);
      assert kids[0..] == kids;
      WithShapeFrom(v, Rebuild(v, kids), 0, bits);
      RebuiltWellFormed(v, kids);
    }
  }

  lemma ShapeStep(v: Value, r: Value, i: nat, bits: seq<Bits>)
    requires i < |Kids(v)| == |Kids(r)| && |bits| == |PathsFrom(v, i)|
    requires Label(r, i) == Label(v, i)
    requires Paths(Kids(r)[i]) == Paths(Kids(v)[i]) && Floats(Kids(r)[i]) == bits[..|Paths(Kids(v)[i])|]
    requires PathsFrom(r, i + 1) == PathsFrom(v, i + 1) && FloatsFrom(r, i + 1) == bits[|Paths(Kids(v)[i])|..]
    ensures PathsFrom(r, i) == PathsFrom(v, i) && FloatsFrom(r, i) == bits
  {
    FromUnfold(v, i);
    FromUnfold(r, i);
    hide *;
    Rejoin(bits, |Paths(Kids(v)[i])|);
  }

  lemma FromUnfold(v: Value, i: nat)
    requires i < |Kids(v)|
    ensures PathsFrom(v, i) == Under(Label(v, i), Paths(Kids(v)[i])) + PathsFrom(v, i + 1)
    ensures FloatsFrom(v, i) == Floats(Kids(v)[i]) + FloatsFrom(v, i + 1)
  {
  }

  lemma Rejoin<T>(s: seq<T>, n: nat)
    requires n <= |s|
    ensures s[..n] + s[n..] == s
  {
  }

  lemma {:induction false} WithShapeFrom(v: Value, r: Value, i: nat, bits: seq<Bits>)
    requires WellFormed(v) && i <= |Kids(v)| == |Kids(r)| && |bits| == |PathsFrom(v, i)|
    requires Kids(r)[i..] == WithFrom(v, i, bits)
    requires forall j :: 0 <= j < |Kids(v)| ==> Label(r, j) == Label(v, j)
    ensures PathsFrom(r, i) == PathsFrom(v, i) && FloatsFrom(r, i) == bits
    ensures forall j :: i <= j < |Kids(r)| ==> WellFormed(Kids(r)[j])
    decreases v, |Kids(v)| - i
  {
    if i < |Kids(v)| {
      var kid := Kids(v)[i];
      KidsSplit(v, r, i, bits);
      assert WellFormed(kid);
      hide *;
      WithShape(kid, bits[..|Paths(kid)|]);
      WithShapeFrom(v, r, i + 1, bits[|Paths(kid)|..]);
      ShapeStep(v, r, i, bits);
    }
  }

  lemma KidsSplit(v: Value, r: Value, i: nat, bits: seq<Bits>)
    requires i < |Kids(v)| == |Kids(r)| && |bits| == |PathsFrom(v, i)|
    requires Kids(r)[i..] == WithFrom(v, i, bits)
    ensures |PathsFrom(v, i)| == |Paths(Kids(v)[i])| + |PathsFrom(v, i + 1)|
    ensures Kids(r)[i] == WithFloats(Kids(v)[i], bits[..|Paths(Kids(v)[i])|])
    ensures Kids(r)[i + 1..] == WithFrom(v, i + 1, bits[|Paths(Kids(v)[i])|..])
  {
    hide Paths, WithFloats, Kids;
    assert Kids(r)[i..][0] == Kids(r)[i] && Kids(r)[i..][1..] == Kids(r)[i + 1..];
  }

  lemma PathsSplit(v: Value, i: nat)
    requires i < |Kids(v)|
    ensures |PathsFrom(v, i)| == |Paths(Kids(v)[i])| + |PathsFrom(v, i + 1)|
  {
  }

  lemma RebuildTwice(v: Value, kids: seq<Value>, others: seq<Value>)
    requires |kids| == |Kids(v)| == |others|
    ensures Rebuild(Rebuild(v, kids), others) == Rebuild(v, others)
  {
    if v.Obj? {
      assert Rebuild(Rebuild(v, kids), others).entries == Rebuild(v, others).entries;
    }
  }

  /** Only the last replacement counts. */
  lemma {:induction false} WithTwice(v: Value, bits: seq<Bits>, other: seq<Bits>)
    requires WellFormed(v) && |bits| == |Paths(v)| == |other| == |Paths(WithFloats(v, bits))|
    ensures WithFloats(WithFloats(v, bits), other) == WithFloats(v, other)
    decreases v, |Kids(v)| + 1
  {
    if !v.Float? {
      var kids := WithFrom(v, 0, bits);
      SameLabels(v, kids);
      assert kids[0..] == kids;
      WithTwiceFrom(v, Rebuild(v, kids), 0, bits, other);
      RebuildTwice(v, kids, WithFrom(v, 0, other));
    }
  }

  lemma {:induction false} WithTwiceFrom(v: Value, r: Value, i: nat, bits: seq<Bits>, other: seq<Bits>)
    requires WellFormed(v) && i <= |Kids(v)| == |Kids(r)| && |bits| == |PathsFrom(v, i)| == |other| == |PathsFrom(r, i)|
    requires Kids(r)[i..] == WithFrom(v, i, bits)
    ensures WithFrom(r, i, other) == WithFrom(v, i, other)
    decreases v, |Kids(v)| - i
  {
    if i < |Kids(v)| {
      var kid := Kids(v)[i];
      var n := |Paths(kid)|;
      assert WellFormed(kid);
      KidsSplit(v, r, i, bits);
      WithShape(kid, bits[..n]);
      PathsSplit(r, i);
      WithTwice(kid, bits[..n], other[..n]);
      WithTwiceFrom(v, r, i + 1, bits[n..], other[n..]);
    }
  }
}
