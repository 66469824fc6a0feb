/**
 * An abstraction of JSON.stringify / JSON.parse for the one shape the
 * session store writes: an object whose members are strings. Serialise is
 * total; Parse is partial, and reading back what Serialise wrote gives the
 * object's properties (a repeated key keeps its last value, as JSON.parse does).
 */
module Json {
  import opened Wrappers

  /** The properties of a parsed value, by name. */
  type JsObject = map<string, string>

  datatype Member = Member(key: string, value: string)

  /** The property `key` of `obj`, or `None` for `undefined`. */
  function Get(obj: JsObject, key: string): (r: Option<string>)
    ensures r.Some? <==> key in obj
    ensures r.Some? ==> r.value == obj[key]
  {
    if key in obj then Some(obj[key]) else None
  }

  /** The one-letter escape JSON.stringify writes for a control character, if it has one. */
  function ShortEscape(c: char): Option<char>
  {
    if c as int == 8 then Some('b')
    else if c as int == 9 then Some('t')
    else if c as int == 10 then Some('n')
    else if c as int == 12 then Some('f')
    else if c as int == 13 then Some('r')
    else None
  }

  /** The character a one-letter escape `\e` stands for in JSON.parse. */
  function Unescape(e: char): Option<char>
  {
    if e == '"' || e == '\\' || e == '/' then Some(e)
    else if e == 'b' then Some(8 as char)
    else if e == 't' then Some(9 as char)
    else if e == 'n' then Some(10 as char)
    else if e == 'f' then Some(12 as char)
    else if e == 'r' then Some(13 as char)
    else None
  }

  /** A lower-case hexadecimal digit. */
  function HexDigit(n: nat): char
    requires n < 16
  {
    if n < 10 then ('0' as int + n) as char else ('a' as int + n - 10) as char
  }

  /** The value of a hexadecimal digit of either case. */
  function HexValue(c: char): (r: Option<nat>)
    ensures r.Some? ==> r.value < 16
  {
    if '0' <= c <= '9' then Some(c as int - '0' as int)
    else if 'a' <= c <= 'f' then Some(c as int - 'a' as int + 10)
    else if 'A' <= c <= 'F' then Some(c as int - 'A' as int + 10)
    else None
  }

  /** The 16-bit code unit four hexadecimal digits spell. */
  function Hex4(h: string): (r: Option<nat>)
    requires |h| == 4
    ensures r.Some? ==> r.value < 0x10000
  {
    match (HexValue(h[0]), HexValue(h[1]), HexValue(h[2]), HexValue(h[3]))
    case (Some(d0), Some(d1), Some(d2), Some(d3)) => Some(((d0 * 16 + d1) * 16 + d2) * 16 + d3)
    case _ => None
  }

  /** The character `\uXXXX` denotes; a surrogate half on its own is not a character here. */
  function CodeUnit(h: string): Option<char>
    requires |h| == 4
  {
    match Hex4(h)
    case Some(v) => if v < 0xD800 || 0xE000 <= v then Some(v as char) else None
    case None => None
  }

  /** The character a high and a low surrogate escape `\uHHHH\uLLLL` denote together. */
  function SurrogatePair(h: string, l: string): (r: Option<char>)
    requires |h| == 4 && |l| == 4
    ensures r.Some? ==> 0x10000 <= r.value as int
  {
    match (Hex4(h), Hex4(l))
    case (Some(hi), Some(lo)) =>
      if 0xD800 <= hi < 0xDC00 && 0xDC00 <= lo < 0xE000 then
        assert (hi - 0xD800) * 0x400 <= 0x3FF * 0x400;
        Some((0x10000 + (hi - 0xD800) * 0x400 + (lo - 0xDC00)) as char)
      else None
    case _ => None
  }

  /** How JSON.stringify writes one character inside a string literal. */
  function EscapeChar(c: char): string
  {
    if c == '"' || c == '\\' then ['\\', c]
    else if ShortEscape(c).Some? then ['\\', ShortEscape(c).value]
    else if c < ' ' then ['\\', 'u', '0', '0', HexDigit(c as int / 16), HexDigit(c as int % 16)]
    else [c]
  }

  /** The body of a string literal: quotes, backslashes and control characters are escaped. */
  function Escape(s: string): string
  {
    if s == [] then [] else EscapeChar(s[0]) + Escape(s[1..])
  }

  function Quote(s: string): string
  {
    "\"" + Escape(s) + "\""
  }

  function MemberText(m: Member): string
  {
    Quote(m.key) + ":" + Quote(m.value)
  }

  function MembersText(ms: seq<Member>): string
    requires ms != []
  {
    if |ms| == 1 then MemberText(ms[0]) else MemberText(ms[0]) + "," + MembersText(ms[1..])
  }

  /** JSON.stringify of an object with the given members, in order. */
  function Serialize(ms: seq<Member>): (t: string)
    ensures |t| >= 2 && t[0] == '{' && t[|t| - 1] == '}'
  {
    if ms == [] then "{}" else "{" + MembersText(ms) + "}"
  }

  /** The object that a member list denotes: later members override earlier ones. */
  function ToObject(ms: seq<Member>): (obj: JsObject)
    ensures forall k :: k in obj <==> exists i :: 0 <= i < |ms| && ms[i].key == k
  {
    if ms == [] then map[]
    else
      var last := ms[|ms| - 1];
      var prev := ToObject(ms[..|ms| - 1]);
      assert forall i :: 0 <= i < |ms| - 1 ==> ms[..|ms| - 1][i] == ms[i];
      prev[last.key := last.value]
  }

  /**
   * Reads a string literal whose opening quote has been consumed: the
   * decoded content and the text after the closing quote.
   */
  function ReadString(t: string): (r: Option<(string, string)>)
    ensures r.Some? ==> |r.value.1| < |t|
    decreases |t|
  {
    if t == [] then None
    else if t[0] == '"' then Some(([], t[1..]))
    else
      match NextChar(t)
      case None => None
      case Some((c, n)) =>
        match ReadString(t[n..])
        case None => None
        case Some((s, rest)) => Some(([c] + s, rest))
  }

  /**
   * The character at the start of a literal's body and how many characters
   * of text it takes: an escape sequence (a surrogate pair `\uHHHH\uLLLL`
   * being one character), or any character but a control character. `None`
   * is a syntax error.
   */
  function NextChar(t: string): (r: Option<(char, nat)>)
    requires t != []
    ensures r.Some? ==> 1 <= r.value.1 <= |t|
  {
    if t[0] == '\\' then
      if |t| >= 2 && Unescape(t[1]).Some? then Some((Unescape(t[1]).value, 2))
      else if |t| >= 6 && t[1] == 'u' && CodeUnit(t[2..6]).Some? then Some((CodeUnit(t[2..6]).value, 6))
      else if |t| >= 12 && t[1] == 'u' && t[6] == '\\' && t[7] == 'u' && SurrogatePair(t[2..6], t[8..12]).Some? then
        Some((SurrogatePair(t[2..6], t[8..12]).value, 12))
      else None
    else if t[0] < ' ' then None
    else Some((t[0], 1))
  }

  /** Reads one `"key":"value"` member: the member and the text after it. */
  function ReadMember(t: string): (r: Option<(Member, string)>)
    ensures r.Some? ==> |r.value.1| < |t|
  {
    if t == [] || t[0] != '"' then None
    else
      match ReadString(t[1..])
      case None => None
      case Some((k, r1)) =>
        if |r1| < 2 || r1[0] != ':' || r1[1] != '"' then None
        else
          match ReadString(r1[2..])
          case None => None
          case Some((v, r2)) => Some((Member(k, v), r2))
  }

  /** Reads members separated by commas, up to a closing brace that ends the text. */
  function ParseMembers(t: string): Option<seq<Member>>
    decreases |t|
  {
    match ReadMember(t)
    case None => None
    case Some((m, rest)) =>
      if rest == "}" then Some([m])
      else if rest != [] && rest[0] == ',' then
        match ParseMembers(rest[1..])
        case None => None
        case Some(ms) => Some([m] + ms)
      else None
  }

  /**
   * JSON.parse, giving the properties that spreading the parsed value
   * contributes: an object's members, and none for `null`, `true`, `false`.
   * `None` is a parse error.
   */
  function Parse(t: string): Option<JsObject>
  {
    if t == "{}" || t == "null" || t == "true" || t == "false" then Some(map[])
    else if |t| >= 2 && t[0] == '{' then
      match ParseMembers(t[1..])
      case None => None
      case Some(ms) => Some(ToObject(ms))
    else None
  }

  lemma HexDigitValue(n: nat)
    requires n < 16
    ensures HexValue(HexDigit(n)) == Some(n)
  {
  }

  /** A character written as `\u00XX` reads back as itself. */
  lemma ReadCodeUnit(c: char)
    requires c < ' '
    ensures CodeUnit(['0', '0', HexDigit(c as int / 16), HexDigit(c as int % 16)]) == Some(c)
  {
    var h := ['0', '0', HexDigit(c as int / 16), HexDigit(c as int % 16)];
    HexDigitValue(c as int / 16);
    HexDigitValue(c as int % 16);
    assert HexValue(h[0]) == Some(0) && HexValue(h[1]) == Some(0);
    assert ((0 * 16 + 0) * 16 + c as int / 16) * 16 + c as int % 16 == c as int;
  }

  /** Four lower-case hexadecimal digits for a 16-bit code unit. */
  function Hex4Text(n: nat): string
    requires n < 0x10000
  {
    [HexDigit(n / 4096), HexDigit(n / 256 % 16), HexDigit(n / 16 % 16), HexDigit(n % 16)]
  }

  lemma ReadHex4(n: nat)
    requires n < 0x10000
    ensures Hex4(Hex4Text(n)) == Some(n)
  {
    HexDigitValue(n / 4096);
    HexDigitValue(n / 256 % 16);
    HexDigitValue(n / 16 % 16);
    HexDigitValue(n % 16);
    assert n / 256 == n / 4096 * 16 + n / 256 % 16;
    assert n / 16 == n / 256 * 16 + n / 16 % 16;
    assert n == n / 16 * 16 + n % 16;
  }

  /** The high surrogate of a character beyond the 16-bit range. */
  function HighHalf(c: char): (hi: nat)
    requires 0x10000 <= c as int
    ensures 0xD800 <= hi < 0xDC00
  {
    0xD800 + (c as int - 0x10000) / 0x400
  }

  /** The low surrogate of a character beyond the 16-bit range. */
  function LowHalf(c: char): (lo: nat)
    requires 0x10000 <= c as int
    ensures 0xDC00 <= lo < 0xE000
  {
    0xDC00 + (c as int - 0x10000) % 0x400
  }

  lemma HalvesJoin(c: char)
    requires 0x10000 <= c as int
    ensures 0x10000 + (HighHalf(c) - 0xD800) * 0x400 + (LowHalf(c) - 0xDC00) == c as int
  {
  }

  /** The escape text `\uHHHH\uLLLL` of two code units. */
  function PairText(hi: nat, lo: nat): (t: string)
    requires hi < 0x10000 && lo < 0x10000
    ensures |t| == 12
  {
    "\\u" + Hex4Text(hi) + "\\u" + Hex4Text(lo)
  }

  /** A character beyond the 16-bit range written as its UTF-16 surrogate-pair escape. */
  function PairEscape(c: char): (t: string)
    requires 0x10000 <= c as int
    ensures |t| == 12
  {
    PairText(HighHalf(c), LowHalf(c))
  }

  /** JSON.parse decodes a surrogate-pair escape to the one character it encodes. */
  lemma ReadPairEscape(c: char, rest: string)
    requires 0x10000 <= c as int
    ensures NextChar(PairEscape(c) + rest) == Some((c, 12))
  {
    var hi, lo := HighHalf(c), LowHalf(c);
    HalvesJoin(c);
    ReadPairText(hi, lo, rest);
    var r := NextChar(PairText(hi, lo) + rest);
    assert r.value.0 as int == c as int;
    assert r == Some((c, 12));
  }

  lemma ReadPairText(hi: nat, lo: nat, rest: string)
    requires 0xD800 <= hi < 0xDC00 && 0xDC00 <= lo < 0xE000
    ensures NextChar(PairText(hi, lo) + rest).Some?
    ensures NextChar(PairText(hi, lo) + rest).value.0 as int == 0x10000 + (hi - 0xD800) * 0x400 + (lo - 0xDC00)
    ensures NextChar(PairText(hi, lo) + rest).value.1 == 12
  {
    ReadHex4(hi);
    ReadHex4(lo);
    PairShape(Hex4Text(hi), Hex4Text(lo), rest);
    PairOfCodes(Hex4Text(hi), Hex4Text(lo), hi, lo);
    PairStep(PairText(hi, lo) + rest);
  }

  lemma PairShape(h: string, l: string, rest: string)
    requires |h| == 4 && |l| == 4
    ensures var t := "\\u" + h + "\\u" + l + rest;
      |t| >= 12 && t[0] == '\\' && t[1] == 'u' && t[2..6] == h && t[6] == '\\' && t[7] == 'u' && t[8..12] == l
  {
  }

  lemma PairOfCodes(h: string, l: string, hi: nat, lo: nat)
    requires |h| == 4 && |l| == 4 && Hex4(h) == Some(hi) && Hex4(l) == Some(lo)
    requires 0xD800 <= hi < 0xDC00 && 0xDC00 <= lo < 0xE000
    ensures SurrogatePair(h, l).Some?
    ensures SurrogatePair(h, l).value as int == 0x10000 + (hi - 0xD800) * 0x400 + (lo - 0xDC00)
  {
  }

  /** A well-formed pair is read as one character of twelve text characters. */
  lemma PairStep(t: string)
    requires |t| >= 12 && t[0] == '\\' && t[1] == 'u' && t[6] == '\\' && t[7] == 'u'
    requires SurrogatePair(t[2..6], t[8..12]).Some?
    ensures NextChar(t) == Some((SurrogatePair(t[2..6], t[8..12]).value, 12))
  {
    assert Hex4(t[2..6]).Some? && 0xD800 <= Hex4(t[2..6]).value < 0xDC00;
    assert CodeUnit(t[2..6]).None?;
  }

  /** A string literal opening with a surrogate-pair escape reads that character first. */
  lemma ReadPairString(c: char, s: string, rest: string)
    requires 0x10000 <= c as int
    ensures ReadString(PairEscape(c) + Escape(s) + "\"" + rest) == Some(([c] + s, rest))
  {
    var p := PairEscape(c);
    var x := Escape(s) + "\"" + rest;
    var t := p + Escape(s) + "\"" + rest;
    assert t == p + x && t[12..] == x && t[0] == '\\';
    ReadPairEscape(c, x);
    ReadEscaped(s, rest);
  }

  /** A one-member object whose value opens with a surrogate-pair escape parses to that value. */
  lemma ParsePairValue(k: string, c: char, s: string)
    requires 0x10000 <= c as int
    ensures Parse("{" + (Quote(k) + ":" + ("\"" + (PairEscape(c) + Escape(s)) + "\"") + "}"))
      == Some(map[k := [c] + s])
  {
    var v := PairEscape(c) + Escape(s);
    var m := Quote(k) + ":" + ("\"" + v + "\"") + "}";
    var r1 := ":" + ("\"" + v + "\"") + "}";
    MemberShape(Escape(k), v, "}");
    ReadEscaped(k, r1);
    ReadPairString(c, s, "}");
    ReadableValue(m, k, r1, [c] + s, "}");
    ParseMembersStep(m, Member(k, [c] + s), "}");
    BraceShape(m);
    ParseObjectText("{" + m);
    assert [Member(k, [c] + s)][..0] == [];
  }

  /** The grinning face U+1F600 is the pair `\ud83d\ude00`. */
  lemma PairEscapeExample()
    ensures PairEscape(0x1F600 as char) == "\\ud83d\\ude00"
  {
    assert HighHalf(0x1F600 as char) == 0xD83D && LowHalf(0x1F600 as char) == 0xDE00;
    assert Hex4Text(0xD83D) == "d83d" by {
      assert HexDigit(13) == 'd' && HexDigit(8) == '8' && HexDigit(3) == '3';
    }
    assert Hex4Text(0xDE00) == "de00" by {
      assert HexDigit(13) == 'd' && HexDigit(14) == 'e' && HexDigit(0) == '0';
    }
  }

  /** Reading one escaped character, then the rest of the literal. */
  lemma EscapeCharReads(c: char, tail: string)
    ensures ReadString(EscapeChar(c) + tail) == match ReadString(tail)
      case None => None
      case Some((s, rest)) => Some(([c] + s, rest))
  {
    var e := EscapeChar(c);
    var t := e + tail;
    if c == '"' || c == '\\' {
      assert t[0] == '\\' && t[1] == c && t[2..] == tail;
    } else if ShortEscape(c).Some? {
      assert t[0] == '\\' && t[1] == ShortEscape(c).value && t[2..] == tail;
    } else if c < ' ' {
      assert t[0] == '\\' && t[1] == 'u' && t[6..] == tail;
      assert t[2..6] == ['0', '0', HexDigit(c as int / 16), HexDigit(c as int % 16)];
      ReadCodeUnit(c);
    } else {
      assert t[0] == c && t[1..] == tail;
    }
  }

  lemma {:induction false} ReadEscaped(s: string, rest: string)
    ensures ReadString(Escape(s) + "\"" + rest) == Some((s, rest))
  {
    if s == [] {
      assert Escape(s) + "\"" + rest == "\"" + rest;
    } else {
      var tail := Escape(s[1..]) + "\"" + rest;
      assert Escape(s) + "\"" + rest == EscapeChar(s[0]) + tail;
      ReadEscaped(s[1..], rest);
      EscapeCharReads(s[0], tail);
      assert [s[0]] + s[1..] == s;
    }
  }

  /** A raw control character inside a string literal makes the literal unreadable. */
  lemma {:induction false} RawControlUnreadable(s: string, c: char, rest: string)
    requires c < ' '
    ensures ReadString(Escape(s) + [c] + rest) == None
  {
    if s == [] {
      assert Escape(s) + [c] + rest == [c] + rest;
    } else {
      var tail := Escape(s[1..]) + [c] + rest;
      assert Escape(s) + [c] + rest == EscapeChar(s[0]) + tail;
      RawControlUnreadable(s[1..], c, rest);
      EscapeCharReads(s[0], tail);
    }
  }

  /** A member whose value holds a raw control character is unreadable. */
  lemma RawControlMember(k: string, v: string, c: char, rest: string)
    requires c < ' '
    ensures ReadMember(Quote(k) + ":" + "\"" + Escape(v) + [c] + rest) == None
  {
    var t := Quote(k) + ":" + "\"" + Escape(v) + [c] + rest;
    var r1 := ":" + "\"" + Escape(v) + [c] + rest;
    BrokenMemberShape(Escape(k), Escape(v), c, rest);
    ReadEscaped(k, r1);
    RawControlUnreadable(v, c, rest);
    UnreadableValue(t, k, r1);
  }

  lemma BrokenMemberShape(ek: string, ev: string, c: char, rest: string)
    ensures var t := "\"" + ek + "\"" + ":" + "\"" + ev + [c] + rest;
      var r1 := ":" + "\"" + ev + [c] + rest;
      t != [] && t[0] == '"' && t[1..] == ek + "\"" + r1 &&
      |r1| >= 2 && r1[0] == ':' && r1[1] == '"' && r1[2..] == ev + [c] + rest
  {
    var t := "\"" + ek + "\"" + ":" + "\"" + ev + [c] + rest;
    var r1 := ":" + "\"" + ev + [c] + rest;
    assert t == "\"" + (ek + "\"" + r1);
    assert r1 == ":" + ("\"" + (ev + [c] + rest));
  }

  /** An object whose first value holds a raw control character is a parse error. */
  lemma RawControlRejected(k: string, v: string, c: char, rest: string)
    requires c < ' '
    ensures Parse("{" + (Quote(k) + ":" + "\"" + Escape(v) + [c] + rest)) == None
  {
    var m := Quote(k) + ":" + "\"" + Escape(v) + [c] + rest;
    BrokenMemberShape(Escape(k), Escape(v), c, rest);
    BraceShape(m);
    RawControlMember(k, v, c, rest);
    ParseMembersStart(m);
    ParseObjectText("{" + m);
  }

  /** Text after an opening brace. */
  lemma BraceShape(body: string)
    requires body != []
    ensures var t := "{" + body; |t| >= 2 && t[0] == '{' && t[1] == body[0] && t[1..] == body
  {
  }

  /** ParseMembers fails when its first member does. */
  lemma ParseMembersStart(t: string)
    requires ReadMember(t) == None
    ensures ParseMembers(t) == None
  {
  }

  /** Text opening like an object is parsed as one. */
  lemma ParseObjectText(t: string)
    requires |t| >= 2 && t[0] == '{' && t[1] == '"'
    ensures Parse(t) == match ParseMembers(t[1..])
      case None => None
      case Some(ms) => Some(ToObject(ms))
  {
    assert t != "{}" by { assert t[1] != "{}"[1]; }
    assert t != "null" && t != "true" && t != "false" by {
      assert t[0] != "null"[0] && t[0] != "true"[0] && t[0] != "false"[0];
    }
  }

  lemma UnreadableValue(t: string, k: string, r1: string)
    requires t != [] && t[0] == '"' && ReadString(t[1..]) == Some((k, r1))
    requires |r1| >= 2 && r1[0] == ':' && r1[1] == '"' && ReadString(r1[2..]) == None
    ensures ReadMember(t) == None
  {
  }

  lemma ReadMemberText(m: Member, rest: string)
    ensures ReadMember(MemberText(m) + rest) == Some((m, rest))
  {
    var t := MemberText(m) + rest;
    var r1 := ":" + Quote(m.value) + rest;
    MemberTextShape(m, rest);
    ReadEscaped(m.key, r1);
    ReadEscaped(m.value, rest);
    ReadableValue(t, m.key, r1, m.value, rest);
  }

  /** Where the pieces of a member's text sit: key body, colon, value body. */
  lemma MemberTextShape(m: Member, rest: string)
    ensures var t := MemberText(m) + rest; var r1 := ":" + Quote(m.value) + rest;
      t != [] && t[0] == '"' && t[1..] == Escape(m.key) + "\"" + r1 &&
      |r1| >= 2 && r1[0] == ':' && r1[1] == '"' && r1[2..] == Escape(m.value) + "\"" + rest
  {
    MemberShape(Escape(m.key), Escape(m.value), rest);
  }

  lemma MemberShape(ek: string, ev: string, rest: string)
    ensures var t := "\"" + ek + "\"" + ":" + ("\"" + ev + "\"") + rest;
      var r1 := ":" + ("\"" + ev + "\"") + rest;
      t != [] && t[0] == '"' && t[1..] == ek + "\"" + r1 &&
      |r1| >= 2 && r1[0] == ':' && r1[1] == '"' && r1[2..] == ev + "\"" + rest
  {
    var t := "\"" + ek + "\"" + ":" + ("\"" + ev + "\"") + rest;
    var r1 := ":" + ("\"" + ev + "\"") + rest;
    assert t == "\"" + (ek + "\"" + r1);
    assert r1 == ":" + ("\"" + (ev + "\"" + rest));
  }

  lemma ReadableValue(t: string, k: string, r1: string, v: string, r2: string)
    requires t != [] && t[0] == '"' && ReadString(t[1..]) == Some((k, r1))
    requires |r1| >= 2 && r1[0] == ':' && r1[1] == '"' && ReadString(r1[2..]) == Some((v, r2))
    ensures ReadMember(t) == Some((Member(k, v), r2))
  {
  }

  /** One step of ParseMembers once the first member has been read. */
  lemma ParseMembersStep(t: string, m: Member, rest: string)
    requires ReadMember(t) == Some((m, rest))
    ensures ParseMembers(t) == if rest == "}" then Some([m])
      else if rest != [] && rest[0] == ',' then
        match ParseMembers(rest[1..])
        case None => None
        case Some(ms) => Some([m] + ms)
      else None
  {
  }

  lemma {:induction false} ReadMembers(ms: seq<Member>)
    requires ms != []
    ensures ParseMembers(MembersText(ms) + "}") == Some(ms)
  {
    var t := MembersText(ms) + "}";
    if |ms| == 1 {
      ReadMemberText(ms[0], "}");
      ParseMembersStep(t, ms[0], "}");
      assert [ms[0]] == ms;
    } else {
      var rest := "," + MembersText(ms[1..]) + "}";
      MembersTextShape(ms);
      ReadMemberText(ms[0], rest);
      ReadMembers(ms[1..]);
      ParseMembersStep(t, ms[0], rest);
      assert [ms[0]] + ms[1..] == ms;
    }
  }

  /** Where the first member's text ends and the comma-separated rest begins. */
  lemma MembersTextShape(ms: seq<Member>)
    requires |ms| >= 2
    ensures var rest := "," + MembersText(ms[1..]) + "}";
      MembersText(ms) + "}" == MemberText(ms[0]) + rest &&
      rest != "}" && rest[0] == ',' && rest[1..] == MembersText(ms[1..]) + "}"
  {
    assert MembersText(ms) == MemberText(ms[0]) + "," + MembersText(ms[1..]);
    CommaShape(MemberText(ms[0]), MembersText(ms[1..]));
  }

  lemma CommaShape(a: string, b: string)
    ensures var rest := "," + b + "}";
      a + "," + b + "}" == a + rest && rest != "}" && rest[0] == ',' && rest[1..] == b + "}"
  {
    var rest := "," + b + "}";
    assert rest[1..] == b + "}";
    assert |rest| >= 2;
  }

  /** Reading back a serialised object gives exactly the object it denotes. */
  lemma SerializeRoundTrip(ms: seq<Member>)
    ensures Parse(Serialize(ms)) == Some(ToObject(ms))
  {
    if ms != [] {
      var t := Serialize(ms);
      MembersTextStart(ms);
      assert t == "{" + (MembersText(ms) + "}");
      BraceShape(MembersText(ms) + "}");
      ReadMembers(ms);
      ParseObjectText(t);
    }
  }

  lemma MembersTextStart(ms: seq<Member>)
    requires ms != []
    ensures MembersText(ms) != [] && MembersText(ms)[0] == '"'
  {
    var q := Quote(ms[0].key);
    assert q[0] == '"';
    if |ms| > 1 {
      assert MembersText(ms) == MemberText(ms[0]) + "," + MembersText(ms[1..]);
    }
  }
}
