/** The rejection cause on its way through Step Functions: encoded as a JSON object of strings,
    cut at 32000 characters, parsed by on_rejected. Text is a sequence of code points, as a Python
    str is, so unpaired surrogates can occur. Strings follow section 7 of RFC 8259. */
module RejectionCause {
  import opened StatesLanguage

  type Code = c: int | 0 <= c < 0x110000
  type Text = seq<Code>

  const QUOTE: Code := 0x22
  const BACKSLASH: Code := 0x5C
  const CAUSE_LIMIT := 32000

  function Codes(s: string): (t: Text)
    ensures |t| == |s|
  {
    if s == "" then [] else [s[0] as int] + Codes(s[1..])
  }

  predicate IsHigh(c: Code) { 0xD800 <= c < 0xDC00 }
  predicate IsLow(c: Code) { 0xDC00 <= c < 0xE000 }

  function Join(hi: Code, lo: Code): Code
    requires IsHigh(hi) && IsLow(lo)
  {
    0x10000 + (hi - 0xD800) * 0x400 + (lo - 0xDC00)
  }

  function HighOf(c: Code): (h: Code)
    requires c >= 0x10000
    ensures IsHigh(h)
  {
    0xD800 + (c - 0x10000) / 0x400
  }

  function LowOf(c: Code): (l: Code)
    requires c >= 0x10000
    ensures IsLow(l)
  {
    0xDC00 + (c - 0x10000) % 0x400
  }

  // ------------------------------------------------ encoding (json.dumps, ASCII output)

  function HexDigit(d: int): Code
    requires 0 <= d < 16
  {
    if d < 10 then 0x30 + d else 0x61 + d - 10
  }

  function UEscape(c: Code): Text
    requires c < 0x10000
  {
    [BACKSLASH, 0x75, HexDigit(c / 0x1000), HexDigit(c / 0x100 % 16), HexDigit(c / 0x10 % 16), HexDigit(c % 16)]
  }

  /** The letter of a two-character escape, 0 when there is none: \" \\ \b \f \n \r \t. */
  function ShortEscape(c: Code): Code {
    if c == QUOTE || c == BACKSLASH then c
    else if c == 0x08 then 0x62
    else if c == 0x0C then 0x66
    else if c == 0x0A then 0x6E
    else if c == 0x0D then 0x72
    else if c == 0x09 then 0x74
    else 0
  }

  function EscapeUnit(c: Code): (t: Text)
    requires c < 0x10000
    ensures |t| > 0
  {
    if ShortEscape(c) != 0 then [BACKSLASH, ShortEscape(c)]
    else if 0x20 <= c <= 0x7E then [c]
    else UEscape(c)
  }

  function EscapeChar(c: Code): (t: Text)
    ensures |t| > 0
  {
    if c < 0x10000 then EscapeUnit(c) else UEscape(HighOf(c)) + UEscape(LowOf(c))
  }

  function Escape(t: Text): Text {
    if t == [] then [] else EscapeChar(t[0]) + Escape(t[1..])
  }

  /** "key": "value" followed by `tail`. */
  function Member(key: string, value: Text, tail: Text): Text {
    [QUOTE] + (Escape(Codes(key)) + ([QUOTE] + ([0x3A, 0x20] + ([QUOTE] + (Escape(value) + ([QUOTE] + tail))))))
  }

  /** {"rejected_by": ..., "decided_at": ..., "comment": ...} */
  function Dumps(rejectedBy: Text, decidedAt: Text, comment: Text): Text {
    [0x7B] + Member("rejected_by", rejectedBy,
      [0x2C, 0x20] + Member("decided_at", decidedAt,
        [0x2C, 0x20] + Member("comment", comment, [0x7D])))
  }

  function Cut(t: Text): Text {
    if |t| <= CAUSE_LIMIT then t else t[..CAUSE_LIMIT]
  }

  // ------------------------------------------------ decoding (json.loads)

  function HexValue(c: Code): int {
    if 0x30 <= c <= 0x39 then c - 0x30
    else if 0x61 <= c <= 0x66 then c - 0x61 + 10
    else if 0x41 <= c <= 0x46 then c - 0x41 + 10
    else -1
  }

  /** The character a two-character escape stands for, -1 when the letter is none of them. */
  function Unescape(c: Code): int {
    if c == QUOTE || c == BACKSLASH || c == 0x2F then c
    else if c == 0x62 then 0x08
    else if c == 0x66 then 0x0C
    else if c == 0x6E then 0x0A
    else if c == 0x72 then 0x0D
    else if c == 0x74 then 0x09
    else -1
  }

  /** One character or escape at the front of `s` and its length; surrogates are not joined yet. */
  function Unit(s: Text): (r: Option<(Code, nat)>)
    ensures r.Some? ==> 1 <= r.value.1 <= |s|
  {
    if s == [] then None
    else if s[0] != BACKSLASH then (if s[0] < 0x20 then None else Some((s[0], 1)))
    else if |s| < 2 then None
    else if s[1] != 0x75 then (if Unescape(s[1]) < 0 then None else Some((Unescape(s[1]), 2)))
    else if |s| < 6 then None
    else if HexValue(s[2]) < 0 || HexValue(s[3]) < 0 || HexValue(s[4]) < 0 || HexValue(s[5]) < 0 then None
    else Some((HexValue(s[2]) * 0x1000 + HexValue(s[3]) * 0x100 + HexValue(s[4]) * 0x10 + HexValue(s[5]), 6))
  }

  /** A \u escape of a low surrogate follows. */
  predicate LowFollows(s: Text) {
    Unit(s).Some? && Unit(s).value.1 == 6 && IsLow(Unit(s).value.0)
  }

  function Prepend(c: Code, r: Option<(Text, Text)>): Option<(Text, Text)> {
    if r.None? then None else Some(([c] + r.value.0, r.value.1))
  }

  /** A string after its opening quote: the decoded text and what follows the closing quote. */
  function Body(s: Text): (r: Option<(Text, Text)>)
    ensures r.Some? ==> |r.value.1| < |s|
    decreases |s|
  {
    if s == [] then None
    else if s[0] == QUOTE then Some(([], s[1..]))
    else
      var u := Unit(s);
      if u.None? then None
      else
        var (c, k) := u.value;
        if k == 6 && IsHigh(c) && LowFollows(s[6..]) then
          Prepend(Join(c, Unit(s[6..]).value.0), Body(s[12..]))
        else Prepend(c, Body(s[k..]))
  }

  function SkipSpace(s: Text): (r: Text)
    ensures |r| <= |s|
    decreases |s|
  {
    if s != [] && (s[0] == 0x20 || s[0] == 0x09 || s[0] == 0x0A || s[0] == 0x0D) then SkipSpace(s[1..]) else s
  }

  function Quoted(s: Text): (r: Option<(Text, Text)>)
    ensures r.Some? ==> |r.value.1| < |s|
  {
    if s == [] || s[0] != QUOTE then None else Body(s[1..])
  }

  /** A name, a colon and a string value; also what follows them, from the next token on. */
  function OneMember(s: Text): (r: Option<(Text, Text, Text)>)
    ensures r.Some? ==> |r.value.2| < |s|
  {
    var key := Quoted(s);
    if key.None? then None
    else
      var colon := SkipSpace(key.value.1);
      if colon == [] || colon[0] != 0x3A then None
      else
        var value := Quoted(SkipSpace(colon[1..]));
        if value.None? then None else Some((key.value.0, value.value.0, SkipSpace(value.value.1)))
  }

  /** The members of an object whose values are strings, up to and including the brace. */
  function Members(s: Text, known: map<Text, Text>): Option<(map<Text, Text>, Text)>
    decreases |s|
  {
    var m := OneMember(s);
    if m.None? then None
    else
      var (key, value, rest) := m.value;
      if rest == [] then None
      else if rest[0] == 0x7D then Some((known[key := value], rest[1..]))
      else if rest[0] == 0x2C then Members(SkipSpace(rest[1..]), known[key := value])
      else None
  }

  function Object(s: Text): Option<(map<Text, Text>, Text)> {
    if s == [] || s[0] != 0x7B then None
    else
      var s1 := SkipSpace(s[1..]);
      if s1 != [] && s1[0] == 0x7D then Some((map[], s1[1..])) else Members(s1, map[])
  }

  function Loads(s: Text): Option<map<Text, Text>> {
    var r := Object(SkipSpace(s));
    if r.Some? && SkipSpace(r.value.1) == [] then Some(r.value.0) else None
  }

  function Field(m: map<Text, Text>, key: string): Option<Text> {
    if Codes(key) in m then Some(m[Codes(key)]) else None
  }

  /** on_rejected: (rejected_by, comment); text that does not parse becomes the comment. */
  function OnRejected(cause: Text): (Option<Text>, Option<Text>) {
    var detail := Loads(cause);
    if detail.Some? then (Field(detail.value, "rejected_by"), Field(detail.value, "comment"))
    else (None, Some(cause))
  }

  // ------------------------------------------------ strings round trip

  /** Decoding joins a high surrogate directly followed by a low one; nothing else changes. */
  function Joined(t: Text): (r: Text)
    ensures |r| <= |t|
  {
    if t == [] then []
    else if |t| >= 2 && IsHigh(t[0]) && IsLow(t[1]) then [Join(t[0], t[1])] + Joined(t[2..])
    else [t[0]] + Joined(t[1..])
  }

  predicate NoSplitPair(t: Text) {
    forall i :: 0 <= i < |t| - 1 ==> !(IsHigh(t[i]) && IsLow(t[i + 1]))
  }

  lemma {:induction false} JoinedIsIdentityIff(t: Text)
    ensures NoSplitPair(t) ==> Joined(t) == t
    ensures !NoSplitPair(t) ==> |Joined(t)| < |t|
  {
    if t == [] {
    } else if |t| >= 2 && IsHigh(t[0]) && IsLow(t[1]) {
    } else {
      JoinedIsIdentityIff(t[1..]);
      if NoSplitPair(t) {
        forall i | 0 <= i < |t| - 2
          ensures !(IsHigh(t[1..][i]) && IsLow(t[1..][i + 1]))
        {
          assert t[1..][i] == t[i + 1] && t[1..][i + 1] == t[i + 2];
        }
      } else {
        var i :| 0 <= i < |t| - 1 && IsHigh(t[i]) && IsLow(t[i + 1]);
        assert i > 0 && t[1..][i - 1] == t[i] && t[1..][i] == t[i + 1];
      }
    }
  }

  lemma HexRoundTrip(d: int)
    requires 0 <= d < 16
    ensures HexValue(HexDigit(d)) == d
  {
  }

  lemma NibblesMakeUp(c: int)
    requires 0 <= c < 0x10000
    ensures 0 <= c / 0x1000 < 16 && 0 <= c / 0x100 % 16 < 16 && 0 <= c / 0x10 % 16 < 16 && 0 <= c % 16 < 16
    ensures c / 0x1000 * 0x1000 + c / 0x100 % 16 * 0x100 + c / 0x10 % 16 * 0x10 + c % 16 == c
  {
  }

  lemma UEscapeReads(c: Code, rest: Text)
    requires c < 0x10000
    ensures Unit(UEscape(c) + rest) == Some((c, 6))
    ensures (UEscape(c) + rest)[6..] == rest
  {
    NibblesMakeUp(c);
    HexRoundTrip(c / 0x1000);
    HexRoundTrip(c / 0x100 % 16);
    HexRoundTrip(c / 0x10 % 16);
    HexRoundTrip(c % 16);
  }

  lemma UnitReads(c: Code, rest: Text)
    requires c < 0x10000
    ensures var e := EscapeUnit(c);
            && e[0] != QUOTE
            && Unit(e + rest) == Some((c, |e|))
            && (e + rest)[|e|..] == rest
            && (|e| == 6 <==> e == UEscape(c)) && (IsHigh(c) || IsLow(c) ==> e == UEscape(c))
  {
    if ShortEscape(c) != 0 {
    } else if 0x20 <= c <= 0x7E {
    } else {
      UEscapeReads(c, rest);
    }
  }

  lemma SplitJoins(c: Code)
    requires c >= 0x10000
    ensures Join(HighOf(c), LowOf(c)) == c
  {
  }

  /** An escape that is not the first half of a pair is decoded by itself. */
  lemma ReadsAlone(e: Text, tail: Text, c: Code)
    requires e != [] && e[0] != QUOTE && Unit(e + tail) == Some((c, |e|))
    requires !(|e| == 6 && IsHigh(c) && LowFollows(tail))
    ensures Body(e + tail) == Prepend(c, Body(tail))
  {
    assert (e + tail)[|e|..] == tail;
    assert (e + tail)[0] == e[0];
  }

  /** Two escapes that make a pair are decoded to one code point. */
  lemma ReadsPair(e: Text, f: Text, tail: Text, hi: Code, lo: Code)
    requires |e| == 6 && |f| == 6 && e[0] != QUOTE && IsHigh(hi) && IsLow(lo)
    requires Unit(e + (f + tail)) == Some((hi, 6)) && Unit(f + tail) == Some((lo, 6))
    ensures Body(e + (f + tail)) == Prepend(Join(hi, lo), Body(tail))
  {
    var s := e + (f + tail);
    assert s[6..] == f + tail;
    assert s[12..] == tail;
    assert s[0] == e[0];
  }

  /** The first code point's escape comes first. */
  lemma EscapeFront(t: Text, rest: Text)
    requires t != []
    ensures Escape(t) + rest == EscapeChar(t[0]) + (Escape(t[1..]) + rest)
  {
  }

  /** What the decoder peeks at after a high surrogate is the next code point of the text. */
  lemma PeekSeesNext(t: Text, rest: Text)
    ensures var s := Escape(t) + ([QUOTE] + rest);
            && (LowFollows(s) <==> t != [] && IsLow(t[0]))
            && (t != [] && IsLow(t[0]) ==> Unit(s) == Some((t[0], 6)))
  {
    var end := [QUOTE] + rest;
    if t == [] {
      assert Escape(t) + end == end;
    } else {
      EscapeFront(t, end);
      FirstUnit(t[0], Escape(t[1..]) + end);
    }
  }

  lemma FirstUnit(c: Code, tail: Text)
    ensures var s := EscapeChar(c) + tail;
            && (LowFollows(s) <==> IsLow(c))
            && (IsLow(c) ==> Unit(s) == Some((c, 6)))
  {
    if c < 0x10000 {
      UnitReads(c, tail);
    } else {
      var lo := UEscape(LowOf(c));
      UEscapeReads(HighOf(c), lo + tail);
      assert EscapeChar(c) + tail == UEscape(HighOf(c)) + (lo + tail);
    }
  }

  /** Decoding an escaped text gives the text back, up to joined surrogates, and stops at the quote. */
  lemma {:induction false} BodyReads(t: Text, rest: Text)
    ensures Body(Escape(t) + ([QUOTE] + rest)) == Some((Joined(t), rest))
    decreases |t|
  {
    var end := [QUOTE] + rest;
    if t == [] {
      assert Escape(t) + end == end;
    } else {
      EscapeFront(t, end);
      BodyReads(t[1..], rest);
      if |t| >= 2 && IsHigh(t[0]) && IsLow(t[1]) {
        BodyReads(t[2..], rest);
        SplitPairReads(t, end);
      } else if t[0] >= 0x10000 {
        AstralReads(t[0], Escape(t[1..]) + end);
      } else {
        UnitReads(t[0], Escape(t[1..]) + end);
        PeekSeesNext(t[1..], rest);
        ReadsAlone(EscapeUnit(t[0]), Escape(t[1..]) + end, t[0]);
      }
    }
  }

  /** A code point beyond the basic plane is written as two escapes and joined again. */
  lemma AstralReads(c: Code, tail: Text)
    requires c >= 0x10000
    ensures Body(EscapeChar(c) + tail) == Prepend(c, Body(tail))
  {
    var e, f := UEscape(HighOf(c)), UEscape(LowOf(c));
    UEscapeReads(HighOf(c), f + tail);
    UEscapeReads(LowOf(c), tail);
    SplitJoins(c);
    ReadsPair(e, f, tail, HighOf(c), LowOf(c));
    assert EscapeChar(c) + tail == e + (f + tail);
  }

  lemma SplitPairReads(t: Text, end: Text)
    requires |t| >= 2 && IsHigh(t[0]) && IsLow(t[1])
    ensures Body(Escape(t) + end) == Prepend(Join(t[0], t[1]), Body(Escape(t[2..]) + end))
  {
    var tail := Escape(t[2..]) + end;
    assert t[1..][1..] == t[2..];
    EscapeFront(t, end);
    EscapeFront(t[1..], end);
    UnitReads(t[1], tail);
    UnitReads(t[0], EscapeUnit(t[1]) + tail);
    ReadsPair(EscapeUnit(t[0]), EscapeUnit(t[1]), tail, t[0], t[1]);
  }

  // ------------------------------------------------ the object round trips

  lemma {:induction false} CodesAreChars(s: string)
    ensures forall i :: 0 <= i < |s| ==> Codes(s)[i] == s[i] as int
  {
    if s != "" { CodesAreChars(s[1..]); }
  }

  predicate PlainKey(s: string) {
    forall c :: c in s ==> 'a' <= c <= 'z' || c == '_'
  }

  lemma PlainKeyJoined(s: string)
    requires PlainKey(s)
    ensures Joined(Codes(s)) == Codes(s)
  {
    CodesAreChars(s);
    JoinedIsIdentityIff(Codes(s));
  }

  /** The layout of one member, with the encoded strings left abstract. */
  lemma OneMemberReads(a: Text, k: Text, b: Text, v: Text, tail: Text)
    requires Body(a + ([QUOTE] + ([0x3A, 0x20] + ([QUOTE] + b)))) == Some((k, [0x3A, 0x20] + ([QUOTE] + b)))
    requires Body(b) == Some((v, tail)) && SkipSpace(tail) == tail
    ensures OneMember([QUOTE] + (a + ([QUOTE] + ([0x3A, 0x20] + ([QUOTE] + b))))) == Some((k, v, tail))
  {
    var s3 := [QUOTE] + b;
    var s2 := [0x3A, 0x20] + s3;
    var s1 := a + ([QUOTE] + s2);
    assert ([QUOTE] + s1)[1..] == s1;
    assert SkipSpace(s2) == s2;
    assert s2[1..] == [0x20] + s3 && ([0x20] + s3)[1..] == s3;
    assert SkipSpace(s2[1..]) == s3;
    assert s3[1..] == b;
  }

  lemma MemberReads(key: string, value: Text, tail: Text)
    requires PlainKey(key) && SkipSpace(tail) == tail
    ensures OneMember(Member(key, value, tail)) == Some((Codes(key), Joined(value), tail))
  {
    var b := Escape(value) + ([QUOTE] + tail);
    var s2 := [0x3A, 0x20] + ([QUOTE] + b);
    PlainKeyJoined(key);
    BodyReads(Codes(key), s2);
    BodyReads(value, tail);
    OneMemberReads(Escape(Codes(key)), Codes(key), b, Joined(value), tail);
  }

  /** The parser goes on after a comma. */
  lemma MembersGoOn(s: Text, known: map<Text, Text>, k: Text, v: Text, rest: Text)
    requires OneMember(s) == Some((k, v, rest)) && rest != [] && rest[0] == 0x2C
    ensures Members(s, known) == Members(SkipSpace(rest[1..]), known[k := v])
  {
  }

  lemma SpaceBeforeQuote(next: Text)
    requires next != [] && next[0] == QUOTE
    ensures SkipSpace([0x20] + next) == next
  {
    assert ([0x20] + next)[1..] == next;
  }

  /** A member followed by a comma and another member. */
  lemma MembersReadNext(key: string, value: Text, next: Text, known: map<Text, Text>)
    requires PlainKey(key) && next != [] && next[0] == QUOTE
    ensures Members(Member(key, value, [0x2C, 0x20] + next), known) == Members(next, known[Codes(key) := Joined(value)])
  {
    var tail := [0x2C, 0x20] + next;
    MemberReads(key, value, tail);
    assert tail[1..] == [0x20] + next;
    SpaceBeforeQuote(next);
    MembersGoOn(Member(key, value, tail), known, Codes(key), Joined(value), tail);
  }

  lemma MembersReadLast(key: string, value: Text, known: map<Text, Text>)
    requires PlainKey(key)
    ensures Members(Member(key, value, [0x7D]), known) == Some((known[Codes(key) := Joined(value)], []))
  {
    var tail: Text := [0x7D];
    assert SkipSpace(tail) == tail && tail[1..] == [];
    MemberReads(key, value, tail);
  }

  function Parsed(rejectedBy: Text, decidedAt: Text, comment: Text): map<Text, Text> {
    map[][Codes("rejected_by") := Joined(rejectedBy)]
         [Codes("decided_at") := Joined(decidedAt)]
         [Codes("comment") := Joined(comment)]
  }

  lemma KeysArePlain()
    ensures PlainKey("rejected_by") && PlainKey("decided_at") && PlainKey("comment")
  {
  }

  lemma LoadsThree(k1: string, v1: Text, k2: string, v2: Text, k3: string, v3: Text)
    requires PlainKey(k1) && PlainKey(k2) && PlainKey(k3)
    ensures Object([0x7B] + Member(k1, v1, [0x2C, 0x20] + Member(k2, v2, [0x2C, 0x20] + Member(k3, v3, [0x7D])))) ==
      Some((map[][Codes(k1) := Joined(v1)][Codes(k2) := Joined(v2)][Codes(k3) := Joined(v3)], []))
  {
    var m3 := Member(k3, v3, [0x7D]);
    var m2 := Member(k2, v2, [0x2C, 0x20] + m3);
    var m1 := Member(k1, v1, [0x2C, 0x20] + m2);
    var known := map[][Codes(k1) := Joined(v1)];
    MembersReadNext(k1, v1, m2, map[]);
    MembersReadNext(k2, v2, m3, known);
    MembersReadLast(k3, v3, known[Codes(k2) := Joined(v2)]);
    ObjectOpens(m1);
  }

  lemma LoadsDumps(rejectedBy: Text, decidedAt: Text, comment: Text)
    ensures Object(Dumps(rejectedBy, decidedAt, comment)) == Some((Parsed(rejectedBy, decidedAt, comment), []))
  {
    KeysArePlain();
    LoadsThree("rejected_by", rejectedBy, "decided_at", decidedAt, "comment", comment);
  }

  lemma ObjectOpens(m: Text)
    requires m != [] && m[0] == QUOTE
    ensures Object([0x7B] + m) == Members(m, map[])
  {
    assert ([0x7B] + m)[1..] == m;
  }

  /** Keys of different lengths are different keys. */
  lemma KeysDiffer(a: string, b: string)
    requires |a| != |b|
    ensures Codes(a) != Codes(b)
  {
    assert |Codes(a)| == |a| && |Codes(b)| == |b|;
  }

  lemma LaterKeys(a: Text, b: Text, c: Text, x: Text, y: Text, z: Text)
    requires a != b && a != c && b != c
    ensures var m := map[][a := x][b := y][c := z];
            a in m && m[a] == x && c in m && m[c] == z
  {
  }

  lemma ParsedFields(rejectedBy: Text, decidedAt: Text, comment: Text)
    ensures var m := Parsed(rejectedBy, decidedAt, comment);
            Field(m, "rejected_by") == Some(Joined(rejectedBy)) && Field(m, "comment") == Some(Joined(comment))
  {
    var a, b, c := Codes("rejected_by"), Codes("decided_at"), Codes("comment");
    KeysDiffer("rejected_by", "decided_at");
    KeysDiffer("rejected_by", "comment");
    KeysDiffer("decided_at", "comment");
    LaterKeys(a, b, c, Joined(rejectedBy), Joined(decidedAt), Joined(comment));
  }

  // ------------------------------------------------ what a cause looks like

  /** Printable ASCII without quotes and backslashes. */
  predicate Plain(t: Text) {
    forall i :: 0 <= i < |t| ==> 0x20 <= t[i] <= 0x7E && t[i] != 0x22 && t[i] != 0x5C
  }

  lemma {:induction false} PlainIsItself(t: Text)
    requires Plain(t)
    ensures Escape(t) == t
  {
    if t != [] {
      assert EscapeChar(t[0]) == [t[0]];
      PlainIsItself(t[1..]);
    }
  }

  lemma PlainKeyIsPlain(key: string)
    requires PlainKey(key)
    ensures Plain(Codes(key))
  {
    CodesAreChars(key);
    assert forall i :: 0 <= i < |key| ==> key[i] in key;
  }

  /** "key": "value" followed by `tail`, with nothing escaped. */
  function PlainLine(key: string, value: Text, tail: Text): Text {
    [0x22] + (Codes(key) + ([0x22] + ([0x3A, 0x20] + ([0x22] + (value + ([0x22] + tail))))))
  }

  lemma PlainMember(key: string, value: Text, tail: Text)
    requires PlainKey(key) && Plain(value)
    ensures Member(key, value, tail) == PlainLine(key, value, tail)
  {
    PlainKeyIsPlain(key);
    PlainIsItself(Codes(key));
    PlainIsItself(value);
  }

  /** The cause of a plain rejection, character for character: {"rejected_by": "r", "decided_at": "d",
      "comment": "c"}. */
  lemma PlainCause(r: Text, d: Text, c: Text)
    requires Plain(r) && Plain(d) && Plain(c)
    ensures Dumps(r, d, c) ==
              [0x7B] + PlainLine("rejected_by", r,
                [0x2C, 0x20] + PlainLine("decided_at", d,
                  [0x2C, 0x20] + PlainLine("comment", c, [0x7D])))
  {
    KeysArePlain();
    var m3 := Member("comment", c, [0x7D]);
    PlainMember("comment", c, [0x7D]);
    PlainMember("decided_at", d, [0x2C, 0x20] + m3);
    PlainMember("rejected_by", r, [0x2C, 0x20] + Member("decided_at", d, [0x2C, 0x20] + m3));
  }

  lemma LineLength(key: string, value: Text, tail: Text)
    ensures |PlainLine(key, value, tail)| == |key| + |value| + |tail| + 6
  {
  }

  /** It is 52 characters longer than the three texts. */
  lemma PlainCauseLength(r: Text, d: Text, c: Text)
    requires Plain(r) && Plain(d) && Plain(c)
    ensures |Dumps(r, d, c)| == |r| + |d| + |c| + 52
  {
    PlainCause(r, d, c);
    var m3 := PlainLine("comment", c, [0x7D]);
    var m2 := PlainLine("decided_at", d, [0x2C, 0x20] + m3);
    LineLength("comment", c, [0x7D]);
    LineLength("decided_at", d, [0x2C, 0x20] + m3);
    LineLength("rejected_by", r, [0x2C, 0x20] + m2);
  }

  lemma PlainIsNotSplit(t: Text)
    requires Plain(t)
    ensures NoSplitPair(t)
  {
  }

  /** Everything else is escaped: line breaks, quotes and backslashes in short form, the rest by UTF-16
      units in lower-case hexadecimal. */
  lemma ShortEscapes()
    ensures EscapeChar(0x0A) == [0x5C, 0x6E] && EscapeChar(0x22) == [0x5C, 0x22] && EscapeChar(0x5C) == [0x5C, 0x5C]
  {
  }

  lemma UnitEscapes()
    ensures EscapeChar(0x7F) == [0x5C, 0x75, 0x30, 0x30, 0x37, 0x66]
    ensures EscapeChar(0xE9) == [0x5C, 0x75, 0x30, 0x30, 0x65, 0x39]
  {
    assert UEscape(0x7F) == [0x5C, 0x75, HexDigit(0), HexDigit(0), HexDigit(7), HexDigit(15)];
    assert UEscape(0xE9) == [0x5C, 0x75, HexDigit(0), HexDigit(0), HexDigit(14), HexDigit(9)];
  }

  lemma PairEscapes()
    ensures EscapeChar(0x1F600) == [0x5C, 0x75, 0x64, 0x38, 0x33, 0x64] + [0x5C, 0x75, 0x64, 0x65, 0x30, 0x30]
  {
    assert HighOf(0x1F600) == 0xD83D && LowOf(0x1F600) == 0xDE00;
    assert UEscape(0xD83D) == [0x5C, 0x75, HexDigit(13), HexDigit(8), HexDigit(3), HexDigit(13)];
    assert UEscape(0xDE00) == [0x5C, 0x75, HexDigit(13), HexDigit(14), HexDigit(0), HexDigit(0)];
  }

  // ------------------------------------------------ a cut object never parses

  lemma UnitExtends(p: Text, q: Text)
    requires Unit(p).Some?
    ensures Unit(p + q) == Unit(p)
  {
  }

  /** If a string ends within `p`, more text after `p` changes nothing about it. */
  lemma {:induction false} BodyExtends(p: Text, q: Text)
    requires Body(p).Some?
    ensures Body(p + q) == Some((Body(p).value.0, Body(p).value.1 + q))
    decreases |p|
  {
    if p[0] == QUOTE {
      assert (p + q)[1..] == p[1..] + q;
    } else {
      UnitExtends(p, q);
      var (c, k) := Unit(p).value;
      assert (p + q)[k..] == p[k..] + q;
      if k == 6 && IsHigh(c) && LowFollows(p[6..]) {
        UnitExtends(p[6..], q);
        assert (p + q)[12..] == p[12..] + q && p[6..][6..] == p[12..];
        BodyExtends(p[12..], q);
      } else {
        PeekExtends(p[k..], q);
        BodyExtends(p[k..], q);
      }
    }
  }

  lemma PeekExtends(p: Text, q: Text)
    requires Body(p).Some?
    ensures LowFollows(p + q) == LowFollows(p)
  {
    if p[0] != QUOTE { UnitExtends(p, q); }
  }

  lemma {:induction false} SkipSpaceExtends(p: Text, q: Text)
    requires SkipSpace(p) != []
    ensures SkipSpace(p + q) == SkipSpace(p) + q
    decreases |p|
  {
    if p[0] == 0x20 || p[0] == 0x09 || p[0] == 0x0A || p[0] == 0x0D {
      assert (p + q)[1..] == p[1..] + q;
      SkipSpaceExtends(p[1..], q);
    }
  }

  lemma QuotedExtends(p: Text, q: Text)
    requires Quoted(p).Some?
    ensures Quoted(p + q) == Some((Quoted(p).value.0, Quoted(p).value.1 + q))
  {
    assert (p + q)[1..] == p[1..] + q;
    BodyExtends(p[1..], q);
  }

  lemma OneMemberExtends(p: Text, q: Text)
    requires OneMember(p).Some? && OneMember(p).value.2 != []
    ensures var (k, v, rest) := OneMember(p).value;
            OneMember(p + q) == Some((k, v, rest + q))
  {
    QuotedExtends(p, q);
    var r1 := Quoted(p).value.1;
    SkipSpaceExtends(r1, q);
    var colon := SkipSpace(r1);
    assert (colon + q)[1..] == colon[1..] + q;
    SkipSpaceExtends(colon[1..], q);
    QuotedExtends(SkipSpace(colon[1..]), q);
    SkipSpaceExtends(Quoted(SkipSpace(colon[1..])).value.1, q);
  }

  lemma {:induction false} MembersExtend(p: Text, q: Text, known: map<Text, Text>)
    requires Members(p, known).Some?
    ensures Members(p + q, known) == Some((Members(p, known).value.0, Members(p, known).value.1 + q))
    decreases |p|
  {
    OneMemberExtends(p, q);
    var (key, value, rest) := OneMember(p).value;
    assert (rest + q)[1..] == rest[1..] + q;
    if rest[0] == 0x2C {
      assert SkipSpace(rest[1..]) != [] by { assert OneMember([]) == None; }
      SkipSpaceExtends(rest[1..], q);
      MembersExtend(SkipSpace(rest[1..]), q, known[key := value]);
    }
  }

  lemma ObjectExtends(p: Text, q: Text)
    requires Object(p).Some?
    ensures Object(p + q) == Some((Object(p).value.0, Object(p).value.1 + q))
  {
    assert (p + q)[1..] == p[1..] + q;
    var s1 := SkipSpace(p[1..]);
    SkipSpaceExtends(p[1..], q);
    assert (s1 + q)[1..] == s1[1..] + q;
    if s1[0] != 0x7D { MembersExtend(s1, q, map[]); }
  }

  /** A text that is exactly one object has no proper prefix that parses. */
  lemma CutObjectFails(full: Text, n: nat)
    requires full != [] && full[0] == 0x7B && n < |full|
    requires Object(full).Some? && Object(full).value.1 == []
    ensures Loads(full[..n]) == None
  {
    var p, q := full[..n], full[n..];
    assert p + q == full;
    if n == 0 {
      assert p == [];
    } else {
      assert SkipSpace(p) == p;
      if Object(p).Some? {
        ObjectExtends(p, q);
        assert false;
      }
    }
  }

  lemma WholeObjectLoads(full: Text)
    requires full != [] && full[0] == 0x7B && Object(full).Some? && Object(full).value.1 == []
    ensures Loads(full) == Some(Object(full).value.0)
  {
    assert SkipSpace(full) == full;
  }

  /** The whole way of a rejection: when nothing was cut, on_rejected reads back the approver and
      the comment (with split surrogate pairs joined); when something was cut, the rest never
      parses and all of it ends up in `comment`. */
  lemma CauseRoundTrip(rejectedBy: Text, decidedAt: Text, comment: Text)
    ensures var full := Dumps(rejectedBy, decidedAt, comment);
            OnRejected(Cut(full)) ==
              if |full| <= CAUSE_LIMIT then (Some(Joined(rejectedBy)), Some(Joined(comment)))
              else (None, Some(full[..CAUSE_LIMIT]))
  {
    var full := Dumps(rejectedBy, decidedAt, comment);
    LoadsDumps(rejectedBy, decidedAt, comment);
    ParsedFields(rejectedBy, decidedAt, comment);
    if |full| <= CAUSE_LIMIT {
      WholeObjectLoads(full);
    } else {
      CutObjectFails(full, CAUSE_LIMIT);
    }
  }

  /** Exactly when the round trip is faithful. */
  lemma FaithfulIff(rejectedBy: Text, decidedAt: Text, comment: Text)
    ensures var full := Dumps(rejectedBy, decidedAt, comment);
            OnRejected(Cut(full)) == (Some(rejectedBy), Some(comment)) <==>
              |full| <= CAUSE_LIMIT && NoSplitPair(rejectedBy) && NoSplitPair(comment)
  {
    CauseRoundTrip(rejectedBy, decidedAt, comment);
    JoinedIsIdentityIff(rejectedBy);
    JoinedIsIdentityIff(comment);
  }

  /** No cause is longer than 32000 characters. */
  lemma CutLength(t: Text)
    ensures |Cut(t)| == if |t| <= 32000 then |t| else 32000
    ensures Cut(t) <= t
  {
  }

  /** For plain texts: the round trip is exact as long as the three have at most 31948 characters together. */
  lemma PlainRoundTripIff(r: Text, d: Text, c: Text)
    requires Plain(r) && Plain(d) && Plain(c)
    ensures OnRejected(Cut(Dumps(r, d, c))) == (Some(r), Some(c)) <==> |r| + |d| + |c| <= 31948
  {
    PlainCauseLength(r, d, c);
    PlainIsNotSplit(r);
    PlainIsNotSplit(c);
    FaithfulIff(r, d, c);
  }
}
