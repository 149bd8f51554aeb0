/**
 Terminal input as UTF-16: repairing lone surrogates and cutting text into
 chunks on code-point boundaries.
 */
module Utf16 {
  import opened Prelude

  type CodeUnit = u: nat | u < 0x1_0000
  type Text = seq<CodeUnit>

  const REPLACEMENT: CodeUnit := 0xfffd
  const INPUT_CHUNK_SIZE := 16 * 1024

  predicate High(u: CodeUnit) { 0xd800 <= u <= 0xdbff }

  predicate Low(u: CodeUnit) { 0xdc00 <= u <= 0xdfff }

  /** A surrogate whose other half is not beside it. */
  predicate Lone(s: Text, i: nat)
    requires i < |s|
  {
    || (High(s[i]) && !(i + 1 < |s| && Low(s[i + 1])))
    || (Low(s[i]) && !(i > 0 && High(s[i - 1])))
  }

  predicate WellFormed(s: Text) {
    forall i :: 0 <= i < |s| ==> !Lone(s, i)
  }

  function Repaired(s: Text): (r: Text) {
    seq(|s|, i requires 0 <= i < |s| => if Lone(s, i) then REPLACEMENT else s[i])
  }

  lemma RepairedAt(s: Text, i: nat)
    requires i < |s|
    ensures !Lone(Repaired(s), i)
  {
    if High(s[i]) && !Lone(s, i) {
      assert !Lone(s, i + 1);
    } else if Low(s[i]) && !Lone(s, i) {
      assert !Lone(s, i - 1);
    }
  }

  lemma RepairedHasNoLone(s: Text)
    ensures |Repaired(s)| == |s| && WellFormed(Repaired(s))
  {
    forall i | 0 <= i < |s| ensures !Lone(Repaired(s), i) {
      RepairedAt(s, i);
    }
    hide Lone;
  }

  lemma RepairedSameIff(s: Text)
    ensures Repaired(s) == s <==> WellFormed(s)
  {
    var r := Repaired(s);
    if r == s {
      forall i | 0 <= i < |s| ensures !Lone(s, i) {
        assert r[i] == s[i];
      }
    }
  }

  /** Repairing keeps the length, always succeeds, touches lone surrogates only,
      and therefore changes nothing exactly on well-formed text. */
  lemma RepairedIsWellFormed(s: Text)
    ensures |Repaired(s)| == |s| && WellFormed(Repaired(s))
    ensures Repaired(s) == s <==> WellFormed(s)
    ensures Repaired(Repaired(s)) == Repaired(s)
  {
    hide Repaired, WellFormed;
    RepairedHasNoLone(s);
    RepairedSameIff(s);
    RepairedSameIff(Repaired(s));
  }

  method ToWellFormedUnicode(value: Text) returns (result: Text)
    ensures result == Repaired(value)
  {
    var normalized: Text := [];
    var segmentStart := 0;
    var index := 0;
    while index < |value|
      invariant 0 <= segmentStart <= index <= |value|
      invariant 0 < index < |value| && Low(value[index]) ==> !High(value[index - 1])
      invariant normalized + value[segmentStart..index] == Repaired(value)[..index]
      invariant segmentStart == 0 ==> normalized == []
    {
      var codeUnit := value[index];
      if 0xd800 <= codeUnit <= 0xdbff {
        if index + 1 < |value| && 0xdc00 <= value[index + 1] <= 0xdfff {
          assert !Lone(value, index) && !Lone(value, index + 1);
          assert value[segmentStart..index + 2] == value[segmentStart..index] + [value[index], value[index + 1]];
          index := index + 2;
          continue;
        }
      } else if codeUnit < 0xdc00 || codeUnit > 0xdfff {
        assert value[segmentStart..index + 1] == value[segmentStart..index] + [value[index]];
        index := index + 1;
        continue;
      }
      assert Lone(value, index);
      normalized := normalized + value[segmentStart..index] + [REPLACEMENT];
      index := index + 1;
      segmentStart := index;
    }
    result := if segmentStart == 0 then value else normalized + value[segmentStart..];
  }

  /** Code units of the code point that starts here. */
  function Units(s: Text, i: nat): (n: nat)
    requires i < |s|
    ensures 1 <= n <= 2 && i + n <= |s|
  {
    if High(s[i]) && i + 1 < |s| && Low(s[i + 1]) then 2 else 1
  }

  /** Its length in UTF-8 (section 3 of RFC 3629); a lone surrogate counts as its replacement. */
  function Utf8Size(s: Text, i: nat): (n: nat)
    requires i < |s|
  {
    if s[i] <= 0x7f then 1
    else if s[i] <= 0x7ff then 2
    else if Units(s, i) == 2 then 4
    else 3
  }

  /** The length of a text in UTF-8, code point by code point. */
  function Utf8Length(s: Text): (n: nat) {
    if s == [] then 0 else Utf8Size(s, 0) + Utf8Length(s[Units(s, 0)..])
  }

  /** Cutting between `a` and `b` splits no surrogate pair. */
  predicate CleanCut(a: Text, b: Text) {
    !(a != [] && b != [] && High(a[|a| - 1]) && Low(b[0]))
  }

  lemma {:induction false} Utf8LengthAdds(a: Text, b: Text)
    requires CleanCut(a, b)
    ensures Utf8Length(a + b) == Utf8Length(a) + Utf8Length(b)
  {
    if a == [] {
      assert a + b == b;
    } else {
      var n := Units(a, 0);
      assert Units(a + b, 0) == n && Utf8Size(a + b, 0) == Utf8Size(a, 0);
      assert (a + b)[n..] == a[n..] + b;
      Utf8LengthAdds(a[n..], b);
    }
  }

  method Utf8CodePointSize(value: Text, index: nat) returns (bytes: nat, codeUnits: nat)
    requires index < |value|
    ensures bytes == Utf8Size(value, index) && codeUnits == Units(value, index)
  {
    var first := value[index];
    if first <= 0x7f { return 1, 1; }
    if first <= 0x7ff { return 2, 1; }
    if 0xd800 <= first <= 0xdbff && index + 1 < |value| && 0xdc00 <= value[index + 1] <= 0xdfff {
      return 4, 2;
    }
    return 3, 1;
  }

  /** A list of chunks that may be sent: it spells the text, splits no pair, and
      no chunk is too long. */
  ghost predicate Sendable(value: Text, chunks: seq<Text>) {
    && Flatten(chunks) == value
    && (forall k :: 0 <= k < |chunks| ==> Utf8Length(chunks[k]) <= INPUT_CHUNK_SIZE)
    && (forall k :: 0 <= k < |chunks| - 1 ==> CleanCut(chunks[k], chunks[k + 1]))
    && (forall k :: 0 <= k < |chunks| - 1 ==> chunks[k] != [])
  }

  /** `chunk` is full: the code point behind it would not have fitted. */
  predicate FullBefore(chunk: Text, behind: Text) {
    behind != [] && Utf8Length(chunk) + Utf8Size(behind, 0) > INPUT_CHUNK_SIZE
  }

  ghost predicate Greedy(chunks: seq<Text>) {
    forall k :: 0 <= k < |chunks| - 1 ==> FullBefore(chunks[k], chunks[k + 1])
  }

  /** The chunks so far are sendable, greedy, and stop where the rest has to start a new chunk. */
  ghost predicate ChunkedUpTo(value: Text, chunks: seq<Text>, start: nat)
    requires start <= |value|
  {
    && Sendable(value[..start], chunks)
    && Greedy(chunks)
    && (forall k :: 0 <= k < |chunks| ==> chunks[k] != [])
    && (chunks != [] && start < |value| ==>
         CleanCut(chunks[|chunks| - 1], value[start..]) && FullBefore(chunks[|chunks| - 1], value[start..]))
  }

  method Utf8InputChunks(value: Text) returns (chunks: seq<Text>)
    ensures chunks != [] && Sendable(value, chunks) && Greedy(chunks)
  {
    if |value| == 0 {
      assert Flatten([value]) == value + Flatten([]);
      return [value];
    }
    hide Sendable, Greedy, ChunkedUpTo, FullBefore;
    chunks := [];
    var chunkStart := 0;
    var chunkBytes := 0;
    var index := 0;
    NothingChunked(value);
    while index < |value|
      invariant 0 <= chunkStart <= index <= |value| && chunkStart < |value|
      invariant chunkBytes == Utf8Length(value[chunkStart..index]) <= INPUT_CHUNK_SIZE
      invariant chunkBytes > 0 <==> chunkStart < index
      invariant CleanCut(value[..index], value[index..])
      invariant ChunkedUpTo(value, chunks, chunkStart)
      decreases |value| - index, chunkBytes
    {
      var bytes, codeUnits := Utf8CodePointSize(value, index);
      if chunkBytes + bytes > INPUT_CHUNK_SIZE {
        ChunkAdded(value, chunks, chunkStart, index);
        chunks := chunks + [value[chunkStart..index]];
        chunkStart := index;
        chunkBytes := 0;
        continue;
      }
      CodePointAdds(value, chunkStart, index);
      chunkBytes := chunkBytes + bytes;
      index := index + codeUnits;
    }
    assert value[chunkStart..index] == value[chunkStart..];
    ChunkAdded(value, chunks, chunkStart, index);
    chunks := chunks + [value[chunkStart..]];
    AllChunked(value, chunks);
  }

  lemma NothingChunked(value: Text)
    ensures ChunkedUpTo(value, [], 0)
  {
  }

  lemma AllChunked(value: Text, chunks: seq<Text>)
    requires ChunkedUpTo(value, chunks, |value|)
    ensures Sendable(value, chunks) && Greedy(chunks)
  {
    assert value[..|value|] == value;
  }

  /** Cutting a chunk off where the next code point no longer fits, or at the end. */
  lemma ChunkAdded(value: Text, chunks: seq<Text>, start: nat, end: nat)
    requires start < end <= |value| && ChunkedUpTo(value, chunks, start)
    requires CleanCut(value[..end], value[end..])
    requires Utf8Length(value[start..end]) <= INPUT_CHUNK_SIZE
    requires end < |value| ==> Utf8Length(value[start..end]) + Utf8Size(value, end) > INPUT_CHUNK_SIZE
    ensures ChunkedUpTo(value, chunks + [value[start..end]], end)
  {
    var chunk := value[start..end];
    FlattenSnoc(chunks, chunk);
    assert value[..start] + chunk == value[..end];
    ChunkIsNext(value, start, end, chunks);
    hide Utf8Length, Utf8Size;
    var all := chunks + [chunk];
    assert forall k :: 0 <= k < |chunks| ==> all[k] == chunks[k];
    if chunks != [] {
      assert FullBefore(chunks[|chunks| - 1], chunk);
    }
  }

  /** Reading one more code point adds its size and stops at a clean cut again. */
  lemma CodePointAdds(value: Text, start: nat, i: nat)
    requires start <= i < |value| && CleanCut(value[..i], value[i..])
    ensures var n := i + Units(value, i);
            && Utf8Length(value[start..n]) == Utf8Length(value[start..i]) + Utf8Size(value, i)
            && CleanCut(value[..n], value[n..])
  {
    var n := i + Units(value, i);
    var point := value[i..n];
    assert value[start..n] == value[start..i] + point;
    assert start < i ==> value[start..i][i - start - 1] == value[..i][i - 1];
    Utf8LengthAdds(value[start..i], point);
    assert Units(point, 0) == |point| && Utf8Size(point, 0) == Utf8Size(value, i);
    assert point[|point|..] == [];
    assert Utf8Length(point) == Utf8Size(point, 0) + Utf8Length(point[|point|..]);
  }

  /** The next chunk starts as the rest of the text does. */
  lemma ChunkIsNext(value: Text, start: nat, end: nat, chunks: seq<Text>)
    requires start < end <= |value|
    requires CleanCut(value[..end], value[end..])
    requires chunks != [] ==> CleanCut(chunks[|chunks| - 1], value[start..])
    ensures CleanCut(value[start..end], value[end..])
    ensures chunks != [] ==> CleanCut(chunks[|chunks| - 1], value[start..end])
    ensures Utf8Size(value[start..end], 0) == Utf8Size(value[start..], 0)
    ensures end < |value| ==> Utf8Size(value[end..], 0) == Utf8Size(value, end)
  {
    assert value[start..end][0] == value[start] == value[start..][0];
    assert value[start..end][end - start - 1] == value[end - 1] == value[..end][end - 1];
    assert end < |value| ==> value[end..][0] == value[end];
    assert end < |value| && High(value[end - 1]) ==> !Low(value[end]);
  }

  lemma TailSendable(chunks: seq<Text>)
    requires chunks != [] && Sendable(Flatten(chunks), chunks)
    ensures Sendable(Flatten(chunks[1..]), chunks[1..])
  {
    var rest := chunks[1..];
    assert forall k :: 0 <= k < |rest| ==> rest[k] == chunks[k + 1];
  }

  /** A sendable first chunk is cut cleanly from everything behind it. */
  lemma FirstCutClean(chunks: seq<Text>)
    requires chunks != [] && Sendable(Flatten(chunks), chunks)
    ensures CleanCut(chunks[0], Flatten(chunks[1..]))
  {
    if |chunks| > 1 {
      var rest := chunks[1..];
      assert Flatten(rest) == chunks[1] + Flatten(rest[1..]);
      if |chunks| == 2 {
        assert rest[1..] == [];
      }
    }
  }

  /** A chunk that reaches past a full greedy chunk is too long. */
  lemma ReachingPastIsTooLong(ahead: Text, g: Text, behind: Text, o: Text, behindOther: Text)
    requires g != [] && behind != [] && CleanCut(ahead, g) && CleanCut(g, behind)
    requires ahead + g + behind == o + behindOther && |o| > |ahead + g|
    requires CleanCut(o, behindOther)
    requires FullBefore(g, behind)
    ensures Utf8Length(o) > INPUT_CHUNK_SIZE
  {
    var tail := o[|ahead + g|..];
    assert o == (ahead + g) + tail by {
      assert o == (ahead + g + behind)[..|o|];
    }
    assert tail == behind[..|tail|];
    Utf8LengthAdds(ahead, g);
    assert (ahead + g)[|ahead + g| - 1] == g[|g| - 1];
    Utf8LengthAdds(ahead + g, tail);
    if |tail| == 1 && |behind| > 1 {
      assert o[|o| - 1] == behind[0];
      assert behindOther[0] == (o + behindOther)[|o|] == (ahead + g + behind)[|o|] == behind[1];
    }
    assert Utf8Size(tail, 0) == Utf8Size(behind, 0);
  }

  /** Where the other list stands after one chunk each: still not past the greedy one. */
  lemma StaysAhead(greedy: seq<Text>, other: seq<Text>, ahead: Text) returns (ahead': Text)
    requires |greedy| > 1 && other != [] && Greedy(greedy)
    requires Sendable(Flatten(greedy), greedy) && Sendable(Flatten(other), other)
    requires Flatten(other) == ahead + Flatten(greedy) && CleanCut(ahead, Flatten(greedy))
    ensures Flatten(other[1..]) == ahead' + Flatten(greedy[1..])
    ensures CleanCut(ahead', Flatten(greedy[1..])) && Flatten(greedy[1..]) != []
  {
    var g, o := greedy[0], other[0];
    var behind, behindOther := Flatten(greedy[1..]), Flatten(other[1..]);
    FirstCutClean(greedy);
    FirstCutClean(other);
    RestIsBehind(greedy);
    assert Flatten(greedy) == g + behind && Flatten(other) == o + behindOther;
    assert g != [];
    hide Sendable, Greedy, Flatten;
    assert ahead + g + behind == ahead + (g + behind);
    if |ahead + g| < |o| {
      ReachingPastIsTooLong(ahead, g, behind, o, behindOther);
      assert false;
    }
    ahead' := (ahead + g)[|o|..];
    assert behindOther == (o + behindOther)[|o|..] == (ahead + g + behind)[|o|..] == ahead' + behind;
    assert ahead' != [] ==> ahead'[|ahead'| - 1] == g[|g| - 1];
  }

  lemma RestIsBehind(greedy: seq<Text>)
    requires |greedy| > 1 && Greedy(greedy) && Sendable(Flatten(greedy), greedy)
    ensures FullBefore(greedy[0], Flatten(greedy[1..]))
  {
    TailSendable(greedy);
    FirstCutClean(greedy[1..]);
    assert Flatten(greedy[1..]) == greedy[1] + Flatten(greedy[2..]);
    assert FullBefore(greedy[0], greedy[1]);
  }

  /** Sending a text in greedy chunks takes the fewest chunks. */
  lemma {:induction false} GreedyIsShortest(greedy: seq<Text>, other: seq<Text>, ahead: Text)
    requires Greedy(greedy)
    requires Sendable(Flatten(greedy), greedy) && Sendable(Flatten(other), other)
    requires Flatten(other) == ahead + Flatten(greedy)
    requires CleanCut(ahead, Flatten(greedy)) && Flatten(greedy) != []
    ensures |greedy| <= |other|
  {
    if |greedy| > 1 {
      var ahead' := StaysAhead(greedy, other, ahead);
      TailSendable(greedy);
      TailSendable(other);
      assert forall k :: 0 <= k < |greedy| - 1 ==> greedy[1..][k] == greedy[k + 1];
      GreedyIsShortest(greedy[1..], other[1..], ahead');
    }
  }
}
