/**
 The hand-written Base64 decoder of the terminal, against the encoding of
 section 4 of RFC 4648.
 */
module Base64 {
  import opened Prelude

  /** What the decoder removes before it looks at anything else. */
  predicate Space(c: char) {
    || '\t' <= c <= '\r' || c == ' ' || c == '\U{a0}' || c == '\U{1680}' || '\U{2000}' <= c <= '\U{200a}'
    || c == '\U{2028}' || c == '\U{2029}' || c == '\U{202f}' || c == '\U{205f}' || c == '\U{3000}' || c == '\U{feff}'
  }

  function Strip(s: string): (r: string) {
    if s == "" then "" else if Space(s[0]) then Strip(s[1..]) else [s[0]] + Strip(s[1..])
  }

  type Sextet = x: nat | x < 64

  /** The alphabet: A-Z, a-z, 0-9, + and /. */
  function Digit(x: Sextet): (c: char)
  {
    if x < 26 then 'A' + x as char
    else if x < 52 then 'a' + (x - 26) as char
    else if x < 62 then '0' + (x - 52) as char
    else if x == 62 then '+'
    else '/'
  }

  /** Position in the alphabet, -1 outside it. */
  function IndexOf(c: char): (i: int)
    ensures -1 <= i < 64
    ensures i >= 0 <==> exists x: Sextet :: Digit(x) == c
    ensures i >= 0 ==> Digit(i) == c
  {
    var i :=
      if 'A' <= c <= 'Z' then (c - 'A') as int
      else if 'a' <= c <= 'z' then (c - 'a') as int + 26
      else if '0' <= c <= '9' then (c - '0') as int + 52
      else if c == '+' then 62
      else if c == '/' then 63
      else -1;
    assert i >= 0 ==> Digit(i) == c;
    i
  }

  lemma IndexOfDigit(x: Sextet)
    ensures IndexOf(Digit(x)) == x
    ensures Digit(x) != '=' && !Space(Digit(x))
  {
  }

  /** Past the end of the text the source looks up the empty string, which `indexOf` finds at 0. */
  function LeadAt(n: string, i: nat): (x: int)
    ensures -1 <= x < 64
  {
    if i < |n| then IndexOf(n[i]) else 0
  }

  /** The third and fourth digit of a group may be padding, which counts as 0. */
  function TrailAt(n: string, i: nat): (x: int)
    ensures -1 <= x < 64
  {
    if i < |n| && n[i] == '=' then 0 else LeadAt(n, i)
  }

  predicate GroupReadable(n: string, g: nat) {
    LeadAt(n, 4 * g) >= 0 && LeadAt(n, 4 * g + 1) >= 0 && TrailAt(n, 4 * g + 2) >= 0 && TrailAt(n, 4 * g + 3) >= 0
  }

  function GroupBits(n: string, g: nat): (bits: nat)
    requires GroupReadable(n, g)
    ensures bits < 0x100_0000
  {
    LeadAt(n, 4 * g) * 0x4_0000 + LeadAt(n, 4 * g + 1) * 0x1000 + TrailAt(n, 4 * g + 2) * 0x40 + TrailAt(n, 4 * g + 3)
  }

  /** `bits >> shift & 0xff` for the three bytes of a group. */
  function ByteOf(bits: nat, k: nat): (b: Byte)
    requires bits < 0x100_0000 && k < 3
  {
    if k == 0 then bits / 0x1_0000 % 0x100 else if k == 1 then bits / 0x100 % 0x100 else bits % 0x100
  }

  function Padding(n: string): (p: nat) {
    if |n| >= 2 && n[|n| - 1] == '=' && n[|n| - 2] == '=' then 2
    else if |n| >= 1 && n[|n| - 1] == '=' then 1
    else 0
  }

  function OutputLength(n: string): int {
    |n| * 3 / 4 - Padding(n)
  }

  function Groups(n: string): nat {
    (|n| + 3) / 4
  }

  predicate KnownChars(n: string) {
    forall i :: 0 <= i < |n| ==> n[i] == '=' || IndexOf(n[i]) >= 0
  }

  /** The texts that decode at all; `=` may stand in any third or fourth place. */
  predicate Accepts(n: string) {
    && |n| % 4 != 1
    && KnownChars(n)
    && OutputLength(n) >= 0
    && (forall g :: 0 <= g < Groups(n) ==> GroupReadable(n, g))
  }

  /** Byte `k` of the output. */
  function ByteAt(n: string, k: nat): (b: Byte) {
    if GroupReadable(n, k / 3) then ByteOf(GroupBits(n, k / 3), k % 3) else 0
  }

  function Decoded(n: string): (bytes: seq<Byte>)
    requires Accepts(n)
  {
    seq(OutputLength(n), k requires 0 <= k < OutputLength(n) => ByteAt(n, k))
  }

  method DecodeBase64(value: string) returns (result: Result<seq<Byte>>)
    ensures result == if Accepts(Strip(value)) then Ok(Decoded(Strip(value))) else Err
  {
    hide KnownChars, Strip, GroupReadable, GroupBits, ByteOf, ByteAt, LeadAt, TrailAt, Padding;
    var n := Strip(value);
    if |n| % 4 == 1 || !KnownChars(n) {
      return Err;
    }
    var outputLength := OutputLength(n);
    if outputLength < 0 {
      return Err;
    }
    var output := new Byte[outputLength];
    var outputIndex := 0;
    var g := 0;
    while 4 * g < |n|
      invariant 0 <= g <= Groups(n)
      invariant outputIndex == Min(3 * g, outputLength)
      invariant forall h :: 0 <= h < g ==> GroupReadable(n, h)
      invariant forall k :: 0 <= k < outputIndex ==> output[k] == ByteAt(n, k)
    {
      var a, b, c, d := LeadAt(n, 4 * g), LeadAt(n, 4 * g + 1), TrailAt(n, 4 * g + 2), TrailAt(n, 4 * g + 3);
      GroupReadableMeans(n, g);
      if a < 0 || b < 0 || c < 0 || d < 0 {
        return Err;
      }
      var bits := a * 0x4_0000 + b * 0x1000 + c * 0x40 + d;
      BytesOfGroup(n, g);
      if outputIndex < outputLength { output[outputIndex] := ByteOf(bits, 0); outputIndex := outputIndex + 1; }
      if outputIndex < outputLength { output[outputIndex] := ByteOf(bits, 1); outputIndex := outputIndex + 1; }
      if outputIndex < outputLength { output[outputIndex] := ByteOf(bits, 2); outputIndex := outputIndex + 1; }
      g := g + 1;
    }
    result := Ok(output[..]);
    assert output[..] == Decoded(n);
  }

  lemma GroupReadableMeans(n: string, g: nat)
    ensures GroupReadable(n, g) <==>
      LeadAt(n, 4 * g) >= 0 && LeadAt(n, 4 * g + 1) >= 0 && TrailAt(n, 4 * g + 2) >= 0 && TrailAt(n, 4 * g + 3) >= 0
  {
  }

  lemma BytesOfGroup(n: string, g: nat)
    requires GroupReadable(n, g)
    ensures var bits := LeadAt(n, 4 * g) * 0x4_0000 + LeadAt(n, 4 * g + 1) * 0x1000 + TrailAt(n, 4 * g + 2) * 0x40
      + TrailAt(n, 4 * g + 3);
            && 0 <= bits < 0x100_0000
            && ByteAt(n, 3 * g) == ByteOf(bits, 0)
            && ByteAt(n, 3 * g + 1) == ByteOf(bits, 1)
            && ByteAt(n, 3 * g + 2) == ByteOf(bits, 2)
  {
    assert (3 * g) / 3 == g && (3 * g + 1) / 3 == g && (3 * g + 2) / 3 == g;
    assert GroupBits(n, g) < 0x100_0000;
  }

  /** Section 4 of RFC 4648, with the padding of the last group optional. */
  function Encode(bytes: seq<Byte>, padded: bool): (text: string) {
    if bytes == [] then ""
    else if |bytes| == 1 then
      [Digit(bytes[0] / 4), Digit(bytes[0] % 4 * 16)] + if padded then "==" else ""
    else if |bytes| == 2 then
      [Digit(bytes[0] / 4), Digit(bytes[0] % 4 * 16 + bytes[1] / 16), Digit(bytes[1] % 16 * 4)]
        + if padded then "=" else ""
    else
      [Digit(bytes[0] / 4), Digit(bytes[0] % 4 * 16 + bytes[1] / 16),
       Digit(bytes[1] % 16 * 4 + bytes[2] / 64), Digit(bytes[2] % 64)] + Encode(bytes[3..], padded)
  }

  /** Four digits, none of them padding. */
  predicate FullQuad(quad: string) {
    |quad| == 4 && forall i :: 0 <= i < 4 ==> IndexOf(quad[i]) >= 0 && quad[i] != '='
  }

  function QuadBits(quad: string): (bits: nat)
    requires FullQuad(quad)
    ensures bits < 0x100_0000
  {
    IndexOf(quad[0]) * 0x4_0000 + IndexOf(quad[1]) * 0x1000 + IndexOf(quad[2]) * 0x40 + IndexOf(quad[3])
  }

  lemma QuadReadable(quad: string, rest: string)
    requires FullQuad(quad)
    ensures GroupReadable(quad + rest, 0) && GroupBits(quad + rest, 0) == QuadBits(quad)
  {
    var n := quad + rest;
    assert n[0] == quad[0] && n[1] == quad[1] && n[2] == quad[2] && n[3] == quad[3];
  }

  lemma QuadAccepted(quad: string, rest: string)
    requires FullQuad(quad) && Accepts(rest)
    ensures Accepts(quad + rest) && OutputLength(quad + rest) == 3 + OutputLength(rest)
  {
    var n := quad + rest;
    assert |n| == 4 + |rest| && Padding(n) == Padding(rest);
    hide GroupReadable, FullQuad, Padding;
    forall g | 0 <= g < Groups(n) ensures GroupReadable(n, g) {
      if g == 0 {
        QuadReadable(quad, rest);
      } else {
        assert GroupReadable(rest, g - 1);
        ShiftedGroup(quad, rest, g - 1);
      }
    }
  }

  lemma ByteBehind(quad: string, rest: string, k: nat)
    requires FullQuad(quad) && GroupReadable(rest, k / 3)
    ensures ByteAt(quad + rest, 3 + k) == ByteAt(rest, k)
  {
    assert (3 + k) / 3 == k / 3 + 1 && (3 + k) % 3 == k % 3;
    ShiftedGroup(quad, rest, k / 3);
  }

  lemma ByteInFront(quad: string, rest: string, k: nat)
    requires FullQuad(quad) && k < 3
    ensures ByteAt(quad + rest, k) == ByteOf(QuadBits(quad), k)
  {
    assert k / 3 == 0 && k % 3 == k;
    QuadReadable(quad, rest);
  }

  function FirstThree(quad: string): (b: seq<Byte>)
    requires FullQuad(quad)
  {
    [ByteOf(QuadBits(quad), 0), ByteOf(QuadBits(quad), 1), ByteOf(QuadBits(quad), 2)]
  }

  lemma ReadableAt(rest: string, k: nat)
    requires Accepts(rest) && k < OutputLength(rest)
    ensures GroupReadable(rest, k / 3)
  {
    assert k / 3 < Groups(rest);
  }

  lemma DecodedAt(n: string, k: nat)
    requires Accepts(n) && k < OutputLength(n)
    ensures |Decoded(n)| == OutputLength(n) && Decoded(n)[k] == ByteAt(n, k)
  {
    hide ByteAt, Accepts, OutputLength;
  }

  lemma ByteShifted(quad: string, rest: string, k: nat)
    requires FullQuad(quad) && Accepts(rest) && Accepts(quad + rest)
    requires OutputLength(quad + rest) == 3 + OutputLength(rest) && k < 3 + OutputLength(rest)
    ensures Decoded(quad + rest)[k] == (FirstThree(quad) + Decoded(rest))[k]
  {
    hide Accepts, GroupReadable, ByteOf, ByteAt, FullQuad, QuadBits, OutputLength, Decoded;
    DecodedAt(quad + rest, k);
    if k < 3 {
      ByteInFront(quad, rest, k);
    } else {
      DecodedAt(rest, k - 3);
      ReadableAt(rest, k - 3);
      ByteBehind(quad, rest, k - 3);
    }
  }

  /** One full group in front shifts everything behind it. */
  lemma GroupInFront(quad: string, rest: string)
    requires FullQuad(quad) && Accepts(rest)
    ensures Accepts(quad + rest)
    ensures Decoded(quad + rest) == FirstThree(quad) + Decoded(rest)
  {
    QuadAccepted(quad, rest);
    var length := OutputLength(rest);
    hide Accepts, GroupReadable, GroupBits, ByteOf, ByteAt, FullQuad, QuadBits, Groups, OutputLength;
    forall k | 0 <= k < 3 + length ensures Decoded(quad + rest)[k] == (FirstThree(quad) + Decoded(rest))[k] {
      ByteShifted(quad, rest, k);
    }
  }

  lemma ShiftedGroup(quad: string, rest: string, g: nat)
    requires |quad| == 4 && GroupReadable(rest, g)
    ensures GroupReadable(quad + rest, g + 1) && GroupBits(quad + rest, g + 1) == GroupBits(rest, g)
  {
    var n := quad + rest;
    assert forall i :: 4 <= i < |n| ==> n[i] == rest[i - 4];
    assert LeadAt(n, 4 * (g + 1)) == LeadAt(rest, 4 * g);
    assert LeadAt(n, 4 * (g + 1) + 1) == LeadAt(rest, 4 * g + 1);
    assert TrailAt(n, 4 * (g + 1) + 2) == TrailAt(rest, 4 * g + 2);
    assert TrailAt(n, 4 * (g + 1) + 3) == TrailAt(rest, 4 * g + 3);
  }

  /** The four digits of three bytes. */
  function Quad(x: Byte, y: Byte, z: Byte): string {
    [Digit(x / 4), Digit(x % 4 * 16 + y / 16), Digit(y % 16 * 4 + z / 64), Digit(z % 64)]
  }

  lemma QuadDecodes(x: Byte, y: Byte, z: Byte)
    ensures FullQuad(Quad(x, y, z))
    ensures QuadBits(Quad(x, y, z)) == x * 0x1_0000 + y * 0x100 + z
  {
    IndexOfDigit(x / 4);
    IndexOfDigit(x % 4 * 16 + y / 16);
    IndexOfDigit(y % 16 * 4 + z / 64);
    IndexOfDigit(z % 64);
    hide IndexOf, Digit;
  }

  lemma EncodeUnfolds(bytes: seq<Byte>, padded: bool)
    requires |bytes| >= 3
    ensures Encode(bytes, padded) == Quad(bytes[0], bytes[1], bytes[2]) + Encode(bytes[3..], padded)
  {
  }

  lemma RejoinedBytes(x: Byte, y: Byte, z: Byte)
    ensures ByteOf(x * 0x1_0000 + y * 0x100 + z, 0) == x
    ensures ByteOf(x * 0x1_0000 + y * 0x100 + z, 1) == y
    ensures ByteOf(x * 0x1_0000 + y * 0x100 + z, 2) == z
  {
  }

  lemma QuadSpells(x: Byte, y: Byte, z: Byte)
    ensures FullQuad(Quad(x, y, z)) && FirstThree(Quad(x, y, z)) == [x, y, z]
  {
    QuadDecodes(x, y, z);
    hide ByteOf, Quad, QuadBits, FullQuad, Digit;
    RejoinedBytes(x, y, z);
  }

  lemma SplitOff(bytes: seq<Byte>)
    requires |bytes| >= 3
    ensures bytes == [bytes[0], bytes[1], bytes[2]] + bytes[3..]
  {
  }

  lemma FullGroupDecodes(bytes: seq<Byte>, padded: bool)
    requires |bytes| >= 3
    requires Accepts(Encode(bytes[3..], padded)) && Decoded(Encode(bytes[3..], padded)) == bytes[3..]
    ensures Accepts(Encode(bytes, padded)) && Decoded(Encode(bytes, padded)) == bytes
  {
    EncodeUnfolds(bytes, padded);
    hide *;
    QuadSpells(bytes[0], bytes[1], bytes[2]);
    GroupInFront(Quad(bytes[0], bytes[1], bytes[2]), Encode(bytes[3..], padded));
    SplitOff(bytes);
  }

  lemma {:induction false} EncodingDecodes(bytes: seq<Byte>, padded: bool)
    ensures Accepts(Encode(bytes, padded)) && Decoded(Encode(bytes, padded)) == bytes
  {
    if bytes == [] {
      assert Encode(bytes, padded) == "";
    } else {
      hide Accepts, Decoded, Encode;
      if |bytes| == 1 {
        assert bytes == [bytes[0]];
        OneByteDecodes(bytes[0], padded);
      } else if |bytes| == 2 {
        assert bytes == [bytes[0], bytes[1]];
        TwoBytesDecode(bytes[0], bytes[1], padded);
      } else {
        EncodingDecodes(bytes[3..], padded);
        FullGroupDecodes(bytes, padded);
      }
    }
  }

  lemma OneByteDecodes(x: Byte, padded: bool)
    ensures Accepts(Encode([x], padded)) && Decoded(Encode([x], padded)) == [x]
  {
    var n := Encode([x], padded);
    assert |n| == 2 || (|n| == 4 && n[2] == '=' && n[3] == '=');
    IndexOfDigit(x / 4);
    IndexOfDigit(x % 4 * 16);
    hide Digit, IndexOf, Encode;
    assert LeadAt(n, 0) == x / 4 && LeadAt(n, 1) == x % 4 * 16 && TrailAt(n, 2) == 0 && TrailAt(n, 3) == 0;
    assert GroupReadable(n, 0);
    RejoinedBytes(x, 0, 0);
    assert GroupBits(n, 0) == x * 0x1_0000;
    assert OutputLength(n) == 1 && ByteAt(n, 0) == x;
  }

  lemma TwoByteDigits(x: Byte, y: Byte, padded: bool)
    ensures var n := Encode([x, y], padded);
            && (|n| == 3 || (|n| == 4 && n[3] == '='))
            && n[0] == Digit(x / 4) && n[1] == Digit(x % 4 * 16 + y / 16) && n[2] == Digit(y % 16 * 4)
  {
  }

  lemma TwoBytesDecode(x: Byte, y: Byte, padded: bool)
    ensures Accepts(Encode([x, y], padded)) && Decoded(Encode([x, y], padded)) == [x, y]
  {
    hide Digit, IndexOf, Encode;
    var n := Encode([x, y], padded);
    TwoByteDigits(x, y, padded);
    IndexOfDigit(x / 4);
    IndexOfDigit(x % 4 * 16 + y / 16);
    IndexOfDigit(y % 16 * 4);
    assert LeadAt(n, 0) == x / 4 && LeadAt(n, 1) == x % 4 * 16 + y / 16 && TrailAt(n, 2) == y % 16 * 4
      && TrailAt(n, 3) == 0;
    assert GroupReadable(n, 0);
    assert GroupBits(n, 0) == x * 0x1_0000 + y * 0x100;
    assert KnownChars(n);
    hide GroupBits, LeadAt, TrailAt, GroupReadable, KnownChars;
    RejoinedBytes(x, y, 0);
    assert OutputLength(n) == 2 && ByteAt(n, 0) == x && ByteAt(n, 1) == y;
  }

  lemma DigitsAreDark()
    ensures !Space('=') && forall x: Sextet :: !Space(Digit(x))
  {
  }

  /** An encoding holds no whitespace of its own. */
  lemma {:induction false} EncodingIsStripped(bytes: seq<Byte>, padded: bool)
    ensures Strip(Encode(bytes, padded)) == Encode(bytes, padded)
  {
    DigitsAreDark();
    hide Space, Digit;
    if |bytes| >= 3 {
      var quad := Encode(bytes, padded)[..4];
      EncodingIsStripped(bytes[3..], padded);
      var rest := Encode(bytes[3..], padded);
      assert Encode(bytes, padded) == quad + rest;
      StripInFront(quad, rest);
    } else {
      var n := Encode(bytes, padded);
      StripInFront(n, "");
      assert n + "" == n;
    }
  }

  lemma {:induction false} StripInFront(front: string, rest: string)
    requires forall i :: 0 <= i < |front| ==> !Space(front[i])
    ensures Strip(front + rest) == front + Strip(rest)
  {
    if front == "" {
      assert front + rest == rest;
    } else {
      assert (front + rest)[1..] == front[1..] + rest;
      StripInFront(front[1..], rest);
    }
  }

  /** The text is the code with white space inserted at any positions. */
  predicate Spaced(code: string, text: string) {
    if text == "" then code == ""
    else
      || (Space(text[0]) && Spaced(code, text[1..]))
      || (code != "" && text[0] == code[0] && Spaced(code[1..], text[1..]))
  }

  lemma {:induction false} StripsBack(code: string, text: string)
    requires Spaced(code, text)
    ensures Strip(text) == Strip(code)
  {
    if text != "" {
      if Space(text[0]) && Spaced(code, text[1..]) {
        StripsBack(code, text[1..]);
      } else {
        StripsBack(code[1..], text[1..]);
      }
    }
  }

  /** Decoding inverts encoding, padded or not, wherever white space was inserted. */
  lemma DecodeInvertsEncode(bytes: seq<Byte>, padded: bool, text: string)
    requires Spaced(Encode(bytes, padded), text)
    ensures Accepts(Strip(text)) && Decoded(Strip(text)) == bytes
  {
    hide *;
    StripsBack(Encode(bytes, padded), text);
    EncodingIsStripped(bytes, padded);
    EncodingDecodes(bytes, padded);
  }
}
