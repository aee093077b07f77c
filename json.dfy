/** PHP's `json_encode` with no flags, restricted to what a lookup
    attribute array can hold: string keys, and null, boolean, integer and
    string values. Strings are escaped as PHP does by default: `"`, `\` and
    `/` get a backslash, the five short control escapes are used, other
    control characters and every non-ASCII character become `\uXXXX` in
    lower-case hex, astral characters as a UTF-16 surrogate pair. An empty
    array encodes as `[]`, any other as an object with its keys in insertion
    order.

    The decoder below inverts exactly this encoder; it exists to prove that
    the encoding is injective, which is what makes the cache key a faithful
    fingerprint of the lookup's attributes. */
module Json {
  import opened Common

  function HexDigit(d: nat): (c: char)
    requires d < 16
  {
    if d < 10 then ('0' as int + d) as char else ('a' as int + d - 10) as char
  }

  function HexValue(c: char): (r: Option<nat>)
    ensures r.Some? ==> r.value < 16
  {
    if '0' <= c <= '9' then Some(c as int - '0' as int)
    else if 'a' <= c <= 'f' then Some(c as int - 'a' as int + 10)
    else None
  }

  /** Four lower-case hex digits, most significant first. */
  function Hex4(n: nat): (r: string)
    requires n < 0x10000
    ensures |r| == 4
  {
    var a := n / 16;
    var b := a / 16;
    var c := b / 16;
    [HexDigit(c), HexDigit(b % 16), HexDigit(a % 16), HexDigit(n % 16)]
  }

  function ParseHex4(s: string): (r: Option<nat>)
    ensures r.Some? ==> |s| >= 4 && r.value < 0x10000
  {
    if |s| < 4 then None
    else match (HexValue(s[0]), HexValue(s[1]), HexValue(s[2]), HexValue(s[3]))
      case (Some(d0), Some(d1), Some(d2), Some(d3)) => Some(((d0 * 16 + d1) * 16 + d2) * 16 + d3)
      case _ => None
  }

  lemma HexDigitValue(d: nat)
    requires d < 16
    ensures HexValue(HexDigit(d)) == Some(d)
  {
  }

  lemma Hex4RoundTrip(n: nat, t: string)
    requires n < 0x10000
    ensures ParseHex4(Hex4(n) + t) == Some(n)
  {
    var a := n / 16;
    var b := a / 16;
    var c := b / 16;
    var s := Hex4(n) + t;
    HexDigitValue(c);
    HexDigitValue(b % 16);
    HexDigitValue(a % 16);
    HexDigitValue(n % 16);
    assert s[0] == HexDigit(c) && s[1] == HexDigit(b % 16) && s[2] == HexDigit(a % 16) && s[3] == HexDigit(n % 16);
    assert b == c * 16 + b % 16;
    assert a == b * 16 + a % 16;
    assert n == a * 16 + n % 16;
  }

  /** The letter of a two-character escape `\x`, for the characters that
      have one. */
  function ShortEscape(c: char): Option<char>
  {
    var n := c as int;
    if c == '"' then Some('"')
    else if c == '\\' then Some('\\')
    else if c == '/' then Some('/')
    else if n == 8 then Some('b')
    else if n == 12 then Some('f')
    else if n == 10 then Some('n')
    else if n == 13 then Some('r')
    else if n == 9 then Some('t')
    else None
  }

  function ShortUnescape(l: char): Option<char>
  {
    if l == '"' then Some('"')
    else if l == '\\' then Some('\\')
    else if l == '/' then Some('/')
    else if l == 'b' then Some(8 as char)
    else if l == 'f' then Some(12 as char)
    else if l == 'n' then Some(10 as char)
    else if l == 'r' then Some(13 as char)
    else if l == 't' then Some(9 as char)
    else None
  }

  /** The `\u` escape of a code point: its own four digits inside the
      basic plane, a UTF-16 surrogate pair above it. */
  function UnicodeEscape(n: nat): string
    requires n < 0x110000
  {
    if n < 0x10000 then "\\u" + Hex4(n) else SurrogateEscape(n)
  }

  function SurrogateEscape(n: nat): string
    requires 0x10000 <= n < 0x110000
  {
    var v := n - 0x10000;
    "\\u" + Hex4(0xD800 + v / 0x400) + "\\u" + Hex4(0xDC00 + v % 0x400)
  }

  /** The JSON text of one character inside a string literal: a short
      escape, a `\u` escape for control and non-ASCII characters, or the
      character itself. */
  function EscapeChar(c: char): string
  {
    match ShortEscape(c)
    case Some(l) => ['\\', l]
    case None => if c as int < 0x20 || 0x80 <= c as int then UnicodeEscape(c as int) else [c]
  }

  function EscapeString(s: string): string
  {
    if |s| == 0 then [] else EscapeChar(s[0]) + EscapeString(s[1..])
  }

  /** Reads the hex digits of a `\u` escape, and the second half of a
      surrogate pair; `s` starts right after the `u`. */
  function ParseUnicode(s: string): (r: Option<(char, string)>)
    ensures r.Some? ==> |r.value.1| < |s|
  {
    match ParseHex4(s)
    case None => None
    case Some(h) =>
      if 0xD800 <= h < 0xDC00 then
        if |s| >= 6 && s[4] == '\\' && s[5] == 'u' then
          match ParseHex4(s[6..])
          case None => None
          case Some(l) =>
            if 0xDC00 <= l < 0xE000
            then Some(((0x10000 + (h - 0xD800) * 0x400 + (l - 0xDC00)) as char, s[10..]))
            else None
        else None
      else if 0xDC00 <= h < 0xE000 then None
      else Some((h as char, s[4..]))
  }

  /** Reads one escape sequence; `s` starts right after the backslash. */
  function ParseEscape(s: string): (r: Option<(char, string)>)
    ensures r.Some? ==> |r.value.1| < |s|
  {
    if |s| == 0 then None
    else match ShortUnescape(s[0])
      case Some(c) => Some((c, s[1..]))
      case None => if s[0] == 'u' then ParseUnicode(s[1..]) else None
  }

  /** Reads the body of a string literal up to and including its closing
      quote; `s` starts right after the opening quote. */
  function ParseStringBody(s: string): (r: Option<(string, string)>)
    ensures r.Some? ==> |r.value.1| < |s|
    decreases |s|
  {
    if |s| == 0 then None
    else if s[0] == '"' then Some(([], s[1..]))
    else if s[0] == '\\' then
      match ParseEscape(s[1..])
      case None => None
      case Some((c, rest)) =>
        match ParseStringBody(rest)
        case None => None
        case Some((t, after)) => Some(([c] + t, after))
    else
      match ParseStringBody(s[1..])
      case None => None
      case Some((t, after)) => Some(([s[0]] + t, after))
  }

  lemma ShortRoundTrip(c: char)
    ensures ShortEscape(c).Some? ==> ShortUnescape(ShortEscape(c).value) == Some(c)
    ensures ShortEscape(c).None? ==> c != '"' && c != '\\'
    ensures ShortEscape(c).Some? ==> ShortEscape(c).value != 'u'
  {
  }

  lemma BmpRoundTrip(n: nat, t: string)
    requires n < 0xD800 || 0xE000 <= n < 0x10000
    ensures ParseUnicode(Hex4(n) + t) == Some((n as char, t))
  {
    Hex4RoundTrip(n, t);
    assert (Hex4(n) + t)[4..] == t;
  }

  /** The two halves of the UTF-16 surrogate pair of an astral code point
      are a high and a low surrogate, and they recombine to the code point. */
  lemma SurrogateHalves(n: int)
    requires 0x10000 <= n < 0x110000
    ensures 0xD800 <= 0xD800 + (n - 0x10000) / 0x400 < 0xDC00
    ensures 0xDC00 <= 0xDC00 + (n - 0x10000) % 0x400 < 0xE000
    ensures 0x10000 + (n - 0x10000) / 0x400 * 0x400 + (n - 0x10000) % 0x400 == n
  {
  }

  /** A high and a low surrogate escape read back as the code point they
      encode. */
  lemma SurrogatePairParse(hi: nat, lo: nat, t: string)
    requires 0xD800 <= hi < 0xDC00 && 0xDC00 <= lo < 0xE000
    ensures
      var r := ParseUnicode(Hex4(hi) + "\\u" + Hex4(lo) + t);
      r.Some? && r.value.1 == t && r.value.0 as int == 0x10000 + (hi - 0xD800) * 0x400 + (lo - 0xDC00)
  {
    var u := "\\u" + Hex4(lo) + t;
    var s := Hex4(hi) + u;
    assert Hex4(hi) + "\\u" + Hex4(lo) + t == s;
    Hex4RoundTrip(hi, u);
    assert s[4] == '\\' && s[5] == 'u';
    assert s[6..] == Hex4(lo) + t;
    Hex4RoundTrip(lo, t);
    assert s[10..] == t;
  }

  lemma UnicodeStep(x: string)
    ensures ParseEscape(['u'] + x) == ParseUnicode(x)
  {
    assert (['u'] + x)[1..] == x;
  }

  lemma ShortEscapeRoundTrip(c: char, t: string)
    requires ShortEscape(c).Some?
    ensures EscapeChar(c)[0] == '\\' && ParseEscape(EscapeChar(c)[1..] + t) == Some((c, t))
  {
    ShortRoundTrip(c);
    var e := EscapeChar(c);
    assert e == ['\\', ShortEscape(c).value];
    assert e[1..] + t == [ShortEscape(c).value] + t;
  }

  lemma BmpEscapeRoundTrip(n: nat, t: string)
    requires n < 0xD800 || 0xE000 <= n < 0x10000
    ensures UnicodeEscape(n)[0] == '\\' && ParseEscape(UnicodeEscape(n)[1..] + t) == Some((n as char, t))
  {
    var x := Hex4(n) + t;
    assert UnicodeEscape(n)[1..] + t == ['u'] + x;
    UnicodeStep(x);
    BmpRoundTrip(n, t);
  }

  lemma AstralEscapeRoundTrip(n: nat, t: string)
    requires 0x10000 <= n < 0x110000
    ensures UnicodeEscape(n)[0] == '\\' && ParseEscape(UnicodeEscape(n)[1..] + t) == Some((n as char, t))
  {
    var v := n - 0x10000;
    var hi := 0xD800 + v / 0x400;
    var lo := 0xDC00 + v % 0x400;
    SurrogateHalves(n);
    var x := Hex4(hi) + "\\u" + Hex4(lo) + t;
    assert SurrogateEscape(n) == "\\u" + Hex4(hi) + "\\u" + Hex4(lo);
    assert UnicodeEscape(n)[1..] + t == ['u'] + x;
    UnicodeStep(x);
    SurrogatePairParse(hi, lo, t);
  }

  /** Each character's escape is either the plain character itself (never a
      quote or a backslash) or a backslash followed by a sequence that
      reads back as that character. */
  lemma EscapeCharRoundTrip(c: char, t: string)
    ensures EscapeChar(c) == [c] ==> c != '"' && c != '\\'
    ensures EscapeChar(c) != [c] ==>
      |EscapeChar(c)| > 1 && EscapeChar(c)[0] == '\\' &&
      ParseEscape(EscapeChar(c)[1..] + t) == Some((c, t))
  {
    var n := c as int;
    ShortRoundTrip(c);
    if ShortEscape(c).Some? {
      ShortEscapeRoundTrip(c, t);
    } else if n < 0x20 || 0x80 <= n {
      if n < 0x10000 {
        BmpEscapeRoundTrip(n, t);
      } else {
        AstralEscapeRoundTrip(n, t);
      }
    }
  }

  lemma EscapedStep(x: string, c: char, rest: string)
    requires ParseEscape(x) == Some((c, rest))
    ensures ParseStringBody(['\\'] + x) ==
      match ParseStringBody(rest)
      case None => None
      case Some((t, after)) => Some(([c] + t, after))
  {
    assert (['\\'] + x)[1..] == x;
  }

  lemma PlainStep(c: char, rest: string)
    requires c != '"' && c != '\\'
    ensures ParseStringBody([c] + rest) ==
      match ParseStringBody(rest)
      case None => None
      case Some((t, after)) => Some(([c] + t, after))
  {
    assert ([c] + rest)[1..] == rest;
  }

  /** Reading past one escaped character yields that character. */
  lemma BodyStep(c: char, rest: string)
    ensures ParseStringBody(EscapeChar(c) + rest) ==
      match ParseStringBody(rest)
      case None => None
      case Some((t, after)) => Some(([c] + t, after))
  {
    var e := EscapeChar(c);
    EscapeCharRoundTrip(c, rest);
    if e == [c] {
      PlainStep(c, rest);
    } else {
      assert e + rest == ['\\'] + (e[1..] + rest);
      EscapedStep(e[1..] + rest, c, rest);
    }
  }

  lemma {:induction false} StringRoundTrip(s: string, t: string)
    ensures ParseStringBody(EscapeString(s) + "\"" + t) == Some((s, t))
  {
    if |s| == 0 {
      assert EscapeString(s) + "\"" + t == ['"'] + t;
    } else {
      var rest := EscapeString(s[1..]) + "\"" + t;
      assert EscapeString(s) + "\"" + t == EscapeChar(s[0]) + rest;
      StringRoundTrip(s[1..], t);
      BodyStep(s[0], rest);
      assert [s[0]] + s[1..] == s;
    }
  }

  /** `json_encode` of one attribute value. */
  function ValueJson(v: Value): string
  {
    match v
    case Null => "null"
    case Bool(b) => if b then "true" else "false"
    case Int(i) => IntDecimal(i)
    case Str(s) => "\"" + EscapeString(s) + "\""
  }

  /** Length of the run of digits at the start of `s`. */
  function DigitRun(s: string): (n: nat)
    ensures n <= |s| && AllDigits(s[..n])
    ensures n < |s| ==> !IsDigit(s[n])
  {
    if |s| == 0 || !IsDigit(s[0]) then 0
    else
      var n := 1 + DigitRun(s[1..]);
      assert s[..n] == [s[0]] + s[1..][..n - 1];
      n
  }

  lemma {:induction false} DigitRunOf(d: string, t: string)
    requires AllDigits(d)
    requires |t| == 0 || !IsDigit(t[0])
    ensures DigitRun(d + t) == |d|
  {
    if |d| > 0 {
      assert (d + t)[1..] == d[1..] + t;
      DigitRunOf(d[1..], t);
    }
  }

  function ParseValue(s: string): (r: Option<(Value, string)>)
    ensures r.Some? ==> |r.value.1| < |s|
  {
    if |s| == 0 then None
    else if s[0] == 'n' then if |s| >= 4 && s[..4] == "null" then Some((Null, s[4..])) else None
    else if s[0] == 't' then if |s| >= 4 && s[..4] == "true" then Some((Bool(true), s[4..])) else None
    else if s[0] == 'f' then if |s| >= 5 && s[..5] == "false" then Some((Bool(false), s[5..])) else None
    else if s[0] == '"' then
      match ParseStringBody(s[1..])
      case None => None
      case Some((str, rest)) => Some((Str(str), rest))
    else if s[0] == '-' then
      var n := DigitRun(s[1..]);
      if n == 0 then None else var m: int := DigitsValue(s[1..][..n]); Some((Int(-m), s[1 + n..]))
    else
      var n := DigitRun(s);
      if n == 0 then None else Some((Int(DigitsValue(s[..n])), s[n..]))
  }

  lemma NatRoundTrip(n: nat, t: string)
    requires |t| == 0 || !IsDigit(t[0])
    ensures DigitRun(NatDigits(n) + t) == |NatDigits(n)|
    ensures (NatDigits(n) + t)[..|NatDigits(n)|] == NatDigits(n)
    ensures DigitsValue(NatDigits(n)) == n
  {
    DigitRunOf(NatDigits(n), t);
    NatDigitsValue(n);
  }

  lemma NegativeRoundTrip(n: nat, t: string)
    requires n > 0
    requires |t| == 0 || !IsDigit(t[0])
    ensures ParseValue("-" + NatDigits(n) + t) == Some((Int(-(n as int)), t))
  {
    var d := NatDigits(n);
    var s := "-" + d + t;
    assert s[0] == '-';
    assert s[1..] == d + t;
    NatRoundTrip(n, t);
    assert s[1 + |d|..] == t;
  }

  lemma NonNegativeRoundTrip(n: nat, t: string)
    requires |t| == 0 || !IsDigit(t[0])
    ensures ParseValue(NatDigits(n) + t) == Some((Int(n), t))
  {
    var d := NatDigits(n);
    var s := d + t;
    assert s[0] == d[0] && IsDigit(s[0]);
    NatRoundTrip(n, t);
    assert s[|d|..] == t;
  }

  lemma IntRoundTrip(i: int, t: string)
    requires |t| == 0 || !IsDigit(t[0])
    ensures ParseValue(IntDecimal(i) + t) == Some((Int(i), t))
  {
    if i < 0 {
      NegativeRoundTrip(-i, t);
    } else {
      NonNegativeRoundTrip(i, t);
    }
  }

  lemma StrRoundTrip(str: string, t: string)
    ensures ParseValue(ValueJson(Str(str)) + t) == Some((Str(str), t))
  {
    var s := ValueJson(Str(str)) + t;
    assert s == "\"" + (EscapeString(str) + "\"" + t);
    assert s[1..] == EscapeString(str) + "\"" + t;
    StringRoundTrip(str, t);
  }

  lemma ValueRoundTrip(v: Value, t: string)
    requires |t| == 0 || !IsDigit(t[0])
    ensures ParseValue(ValueJson(v) + t) == Some((v, t))
  {
    var s := ValueJson(v) + t;
    match v
    case Null =>
      assert s[..4] == "null";
    case Bool(b) =>
      if b { assert s[..4] == "true"; } else { assert s[..5] == "false"; }
    case Str(str) =>
      StrRoundTrip(str, t);
    case Int(i) =>
      IntRoundTrip(i, t);
  }

  function PairJson(p: (string, Value)): string
  {
    "\"" + EscapeString(p.0) + "\":" + ValueJson(p.1)
  }

  function MembersJson(a: Attributes): string
    requires |a| > 0
  {
    if |a| == 1 then PairJson(a[0]) else PairJson(a[0]) + "," + MembersJson(a[1..])
  }

  /** `json_encode($attributes)`. */
  function EncodeAttributes(a: Attributes): string
  {
    if |a| == 0 then "[]" else "{" + MembersJson(a) + "}"
  }

  /** Reads the `:value` part of a pair. */
  function ParseColonValue(s: string): (r: Option<(Value, string)>)
    ensures r.Some? ==> |r.value.1| < |s|
  {
    if |s| == 0 || s[0] != ':' then None else ParseValue(s[1..])
  }

  /** Reads one `"key":value` pair. */
  function ParsePair(s: string): (r: Option<((string, Value), string)>)
    ensures r.Some? ==> |r.value.1| < |s|
  {
    if |s| == 0 || s[0] != '"' then None
    else match ParseStringBody(s[1..])
      case None => None
      case Some((k, r1)) =>
        match ParseColonValue(r1)
        case None => None
        case Some((v, r2)) => Some(((k, v), r2))
  }

  /** Reads pairs separated by commas, up to and including the closing
      brace of the object. */
  function ParseMembers(s: string): (r: Option<(Attributes, string)>)
    decreases |s|
  {
    match ParsePair(s)
    case None => None
    case Some((p, rest)) =>
      if |rest| > 0 && rest[0] == ',' then
        match ParseMembers(rest[1..])
        case None => None
        case Some((more, after)) => Some(([p] + more, after))
      else if |rest| > 0 && rest[0] == '}' then Some(([p], rest[1..]))
      else None
  }

  function DecodeAttributes(s: string): Option<Attributes>
  {
    if s == "[]" then Some([])
    else if |s| > 0 && s[0] == '{' then
      match ParseMembers(s[1..])
      case Some((a, rest)) => if |rest| == 0 then Some(a) else None
      case None => None
    else None
  }

  lemma ColonValueRoundTrip(v: Value, t: string)
    requires |t| == 0 || !IsDigit(t[0])
    ensures ParseColonValue(":" + ValueJson(v) + t) == Some((v, t))
  {
    var r1 := ":" + ValueJson(v) + t;
    assert r1[1..] == ValueJson(v) + t;
    ValueRoundTrip(v, t);
  }

  /** Reading a pair whose key reads back as `k` with `r1` left over. */
  lemma PairStep(body: string, k: string, r1: string)
    requires ParseStringBody(body) == Some((k, r1))
    ensures ParsePair(['"'] + body) ==
      match ParseColonValue(r1)
      case None => None
      case Some((v, r2)) => Some(((k, v), r2))
  {
    assert (['"'] + body)[1..] == body;
  }

  lemma PairRoundTrip(p: (string, Value), t: string)
    requires |t| == 0 || !IsDigit(t[0])
    ensures ParsePair(PairJson(p) + t) == Some((p, t))
  {
    var r1 := ":" + ValueJson(p.1) + t;
    var body := EscapeString(p.0) + "\"" + r1;
    assert PairJson(p) + t == ['"'] + body;
    StringRoundTrip(p.0, r1);
    ColonValueRoundTrip(p.1, t);
    PairStep(body, p.0, r1);
  }

  lemma LastMemberStep(p: (string, Value), t: string)
    ensures ParseMembers(PairJson(p) + "}" + t) == Some(([p], t))
  {
    var tail := "}" + t;
    assert PairJson(p) + "}" + t == PairJson(p) + tail;
    PairRoundTrip(p, tail);
    assert tail[1..] == t;
  }

  lemma MemberStep(p: (string, Value), more: string)
    ensures ParseMembers(PairJson(p) + "," + more) ==
      match ParseMembers(more)
      case None => None
      case Some((ps, after)) => Some(([p] + ps, after))
  {
    var tail := "," + more;
    assert PairJson(p) + "," + more == PairJson(p) + tail;
    PairRoundTrip(p, tail);
    assert tail[1..] == more;
  }

  lemma {:induction false} MembersRoundTrip(a: Attributes, t: string)
    requires |a| > 0
    ensures ParseMembers(MembersJson(a) + "}" + t) == Some((a, t))
  {
    if |a| == 1 {
      LastMemberStep(a[0], t);
      assert [a[0]] == a;
    } else {
      var more := MembersJson(a[1..]) + "}" + t;
      assert MembersJson(a) + "}" + t == PairJson(a[0]) + "," + more;
      MemberStep(a[0], more);
      MembersRoundTrip(a[1..], t);
      assert [a[0]] + a[1..] == a;
    }
  }

  /** Decoding inverts encoding. */
  lemma EncodeRoundTrip(a: Attributes)
    ensures DecodeAttributes(EncodeAttributes(a)) == Some(a)
  {
    if |a| > 0 {
      var m := MembersJson(a) + "}";
      var s := EncodeAttributes(a);
      assert s == "{" + m;
      assert s != "[]" by { assert s[0] == '{'; }
      assert s[1..] == m;
      assert m + [] == m;
      MembersRoundTrip(a, []);
    }
  }

  /** Two attribute arrays have the same encoding exactly when they are the
      same array: same keys, same values, same order. */
  lemma EncodeInjective(a: Attributes, b: Attributes)
    ensures EncodeAttributes(a) == EncodeAttributes(b) <==> a == b
  {
    if EncodeAttributes(a) == EncodeAttributes(b) {
      EncodeRoundTrip(a);
      EncodeRoundTrip(b);
    }
  }
}
