/** The key of a queue: `JSON.stringify` of the send target, proved injective by reading it back. */
module QueueKey {
  import opened Prelude
  import opened Utf16

  datatype Scope = Groups | DirectChats

  /** UTF-16 code units of the characters the encoding uses. */
  const QUOTE: CodeUnit := 0x22
  const BACKSLASH: CodeUnit := 0x5C
  const COMMA: CodeUnit := 0x2C
  const OPEN: CodeUnit := 0x5B
  const CLOSE: CodeUnit := 0x5D
  const SMALL_U: CodeUnit := 0x75

  function ScopeText(scope: Scope): (t: Text)
  {
    match scope
    // groups
    case Groups => [0x67, 0x72, 0x6F, 0x75, 0x70, 0x73]
    // direct-chats
    case DirectChats => [0x64, 0x69, 0x72, 0x65, 0x63, 0x74, 0x2D, 0x63, 0x68, 0x61, 0x74, 0x73]
  }

  const NULL_TEXT: Text := [0x6E, 0x75, 0x6C, 0x6C]

  function HexDigit(d: nat): (c: CodeUnit)
    requires d < 16
  {
    if d < 10 then 0x30 + d else 0x61 + d - 10
  }

  function HexValue(c: CodeUnit): (d: nat)
  {
    if 0x30 <= c <= 0x39 then c - 0x30 else if 0x61 <= c <= 0x66 then c - 0x61 + 10 else 0
  }

  /** `\uXXXX` in lower case. */
  function UnicodeEscape(c: CodeUnit): (t: Text)
  {
    [BACKSLASH, SMALL_U, HexDigit(c / 16 / 16 / 16), HexDigit(c / 16 / 16 % 16), HexDigit(c / 16 % 16),
      HexDigit(c % 16)]
  }

  /** The letter of a two-character escape, when the unit has one. */
  function ShortEscape(c: CodeUnit): (letter: Option<CodeUnit>)
  {
    if c == QUOTE || c == BACKSLASH then Some(c)
    else if c == 0x08 then Some(0x62)
    else if c == 0x09 then Some(0x74)
    else if c == 0x0A then Some(0x6E)
    else if c == 0x0C then Some(0x66)
    else if c == 0x0D then Some(0x72)
    else None
  }

  function EscapeUnit(s: Text, i: nat): (t: Text)
    requires i < |s|
  {
    var c := s[i];
    if ShortEscape(c).Some? then [BACKSLASH, ShortEscape(c).value]
    else if c < 0x20 || Lone(s, i) then UnicodeEscape(c)
    else [c]
  }

  function EscapeFrom(s: Text, i: nat): (t: Text)
    requires i <= |s|
    decreases |s| - i
  {
    if i == |s| then [] else EscapeUnit(s, i) + EscapeFrom(s, i + 1)
  }

  function Quote(s: Text): (t: Text)
  {
    [QUOTE] + EscapeFrom(s, 0) + [QUOTE]
  }

  /** `queuedMessagesKey`. */
  function QueuedMessagesKey(scope: Scope, conversation: Text, thread: Option<Text>): (key: Text)
  {
    [OPEN] + Quote(ScopeText(scope)) + [COMMA] + Quote(conversation) + [COMMA]
    + (if thread.Some? then Quote(thread.value) else NULL_TEXT) + [CLOSE]
  }

  // ---- Reading it back ----

  function Letter(c: CodeUnit): (unit: CodeUnit)
  {
    if c == 0x62 then 0x08
    else if c == 0x74 then 0x09
    else if c == 0x6E then 0x0A
    else if c == 0x66 then 0x0C
    else if c == 0x72 then 0x0D
    else c
  }

  datatype Reading = Reading(text: Text, rest: Text)

  function HexUnit(a: CodeUnit, b: CodeUnit, c: CodeUnit, d: CodeUnit): (unit: CodeUnit)
  {
    (((HexValue(a) * 16 + HexValue(b)) * 16 + HexValue(c)) * 16 + HexValue(d)) % 0x1_0000
  }

  /** Reads up to the closing quote. */
  function ReadString(t: Text): (r: Option<Reading>)
  {
    if t == [] then None
    else if t[0] == QUOTE then Some(Reading([], t[1..]))
    else if t[0] != BACKSLASH then Prefixed(t[0], ReadString(t[1..]))
    else if |t| >= 2 && t[1] != SMALL_U then Prefixed(Letter(t[1]), ReadString(t[2..]))
    else if |t| >= 6 then
      Prefixed(HexUnit(t[2], t[3], t[4], t[5]), ReadString(t[6..]))
    else None
  }

  function Prefixed(c: CodeUnit, r: Option<Reading>): (p: Option<Reading>)
  {
    if r.None? then None else Some(Reading([c] + r.value.text, r.value.rest))
  }

  lemma DigitReads(d: nat)
    requires d < 16
    ensures HexValue(HexDigit(d)) == d
  {
  }

  lemma SplitBy16(n: nat)
    ensures n == n / 16 * 16 + n % 16 && n % 16 < 16
  {
  }

  lemma HexReads(c: CodeUnit)
    ensures c / 16 / 16 / 16 < 16
    ensures HexUnit(HexDigit(c / 16 / 16 / 16), HexDigit(c / 16 / 16 % 16),
      HexDigit(c / 16 % 16), HexDigit(c % 16)) == c
  {
    SplitBy16(c);
    SplitBy16(c / 16);
    SplitBy16(c / 16 / 16);
    hide HexDigit, HexValue;
    DigitReads(c % 16);
    DigitReads(c / 16 % 16);
    DigitReads(c / 16 / 16 % 16);
    DigitReads(c / 16 / 16 / 16);
  }

  lemma UnitReads(s: Text, i: nat, rest: Text)
    requires i < |s|
    ensures ReadString(EscapeUnit(s, i) + rest) == Prefixed(s[i], ReadString(rest))
  {
    var c := s[i];
    var t := EscapeUnit(s, i) + rest;
    if ShortEscape(c).Some? {
      assert t[2..] == rest;
    } else if c < 0x20 || Lone(s, i) {
      HexReads(c);
      assert t[6..] == rest;
    } else {
      assert t[1..] == rest;
    }
  }

  lemma EndReads(rest: Text)
    ensures ReadString([] + [QUOTE] + rest) == Some(Reading([], rest))
  {
    assert ([] + [QUOTE] + rest)[1..] == rest;
  }

  lemma Regroup(a: Text, b: Text, c: Text, d: Text)
    ensures (a + b) + c + d == a + (b + c + d)
  {
  }

  lemma HeadTail(s: Text, i: nat)
    requires i < |s|
    ensures [s[i]] + s[i + 1..] == s[i..]
  {
  }

  lemma EscapeUnfold(s: Text, i: nat)
    requires i <= |s|
    ensures EscapeFrom(s, i) == if i == |s| then [] else EscapeUnit(s, i) + EscapeFrom(s, i + 1)
    ensures i == |s| ==> s[i..] == []
  {
  }

  lemma {:induction false} EscapedReads(s: Text, i: nat, rest: Text)
    requires i <= |s|
    ensures ReadString(EscapeFrom(s, i) + [QUOTE] + rest) == Some(Reading(s[i..], rest))
    decreases |s| - i
  {
    EscapeUnfold(s, i);
    if i == |s| {
      hide *;
      EndReads(rest);
    } else {
      hide EscapeFrom, EscapeUnit, ReadString;
      EscapedReads(s, i + 1, rest);
      Regroup(EscapeUnit(s, i), EscapeFrom(s, i + 1), [QUOTE], rest);
      UnitReads(s, i, EscapeFrom(s, i + 1) + [QUOTE] + rest);
      HeadTail(s, i);
    }
  }

  lemma AfterQuote(body: Text, rest: Text)
    ensures (([QUOTE] + body + [QUOTE]) + rest)[1..] == body + [QUOTE] + rest
  {
  }

  lemma QuoteReads(s: Text, rest: Text)
    ensures ReadString((Quote(s) + rest)[1..]) == Some(Reading(s, rest))
  {
    hide ReadString, EscapeFrom;
    EscapedReads(s, 0, rest);
    AfterQuote(EscapeFrom(s, 0), rest);
    assert s[0..] == s;
  }

  /** Equal texts that start with a quoted string quote the same string. */
  lemma QuotedFirst(a: Text, b: Text, restA: Text, restB: Text)
    requires Quote(a) + restA == Quote(b) + restB
    ensures a == b && restA == restB
  {
    hide *;
    QuoteReads(a, restA);
    QuoteReads(b, restB);
  }

  function ThreadText(thread: Option<Text>): (t: Text)
    ensures t != [] && (t[0] == QUOTE <==> thread.Some?)
  {
    if thread.Some? then Quote(thread.value) else NULL_TEXT
  }

  function AfterConversation(thread: Option<Text>): (t: Text)
  {
    [COMMA] + (ThreadText(thread) + [CLOSE])
  }

  function AfterScope(conversation: Text, thread: Option<Text>): (t: Text)
  {
    [COMMA] + (Quote(conversation) + AfterConversation(thread))
  }

  lemma KeySplits(scope: Scope, conversation: Text, thread: Option<Text>)
    ensures QueuedMessagesKey(scope, conversation, thread)[1..]
      == Quote(ScopeText(scope)) + AfterScope(conversation, thread)
    ensures AfterScope(conversation, thread)[1..] == Quote(conversation) + AfterConversation(thread)
    ensures AfterConversation(thread)[1..] == ThreadText(thread) + [CLOSE]
  {
    hide Quote, ScopeText;
  }

  lemma ThreadsDiffer(t1: Option<Text>, t2: Option<Text>)
    requires ThreadText(t1) + [CLOSE] == ThreadText(t2) + [CLOSE]
    ensures t1 == t2
  {
    assert (ThreadText(t1) + [CLOSE])[0] == ThreadText(t1)[0] && (ThreadText(t2) + [CLOSE])[0] == ThreadText(t2)[0];
    hide Quote;
    if t1.Some? && t2.Some? {
      QuotedFirst(t1.value, t2.value, [CLOSE], [CLOSE]);
    }
  }

  /** Distinct send targets never share a queue. */
  lemma KeyIsInjective(s1: Scope, c1: Text, t1: Option<Text>, s2: Scope, c2: Text, t2: Option<Text>)
    requires QueuedMessagesKey(s1, c1, t1) == QueuedMessagesKey(s2, c2, t2)
    ensures s1 == s2 && c1 == c2 && t1 == t2
  {
    assert |ScopeText(Groups)| != |ScopeText(DirectChats)|;
    hide *;
    KeySplits(s1, c1, t1);
    KeySplits(s2, c2, t2);
    QuotedFirst(ScopeText(s1), ScopeText(s2), AfterScope(c1, t1), AfterScope(c2, t2));
    QuotedFirst(c1, c2, AfterConversation(t1), AfterConversation(t2));
    ThreadsDiffer(t1, t2);
  }
}
