/** JSON string literals as Python's `json.dumps` writes them with its
    default `ensure_ascii=True`: printable ASCII is kept, quote, backslash
    and the usual control characters get short escapes, and every other
    character becomes `\uXXXX` (a surrogate pair above U+FFFF). A decoder
    for those escapes is the reference inverse. */
module JsonText {
  import opened Wrappers

  const HexDigits := "0123456789abcdef"

  /** Four lower-case hex digits, as `'\\u{0:04x}'` writes them. */
  function Hex4(n: nat): (r: string)
    requires n < 0x10000
    ensures |r| == 4
  {
    var r1 := n % 0x1000;
    var r2 := r1 % 0x100;
    [HexDigits[n / 0x1000], HexDigits[r1 / 0x100], HexDigits[r2 / 0x10], HexDigits[r2 % 0x10]]
  }

  /** The value of one hex digit, in either case. */
  function HexValue(c: char): (r: Option<nat>)
    ensures r.Some? ==> r.value < 16
  {
    if '0' <= c <= '9' then Some(c as nat - '0' as nat)
    else if 'a' <= c <= 'f' then Some(c as nat - 'a' as nat + 10)
    else if 'A' <= c <= 'F' then Some(c as nat - 'A' as nat + 10)
    else None
  }

  /** The value of four hex digits. */
  function Hex4Value(s: string): (r: Option<nat>)
    requires |s| == 4
    ensures r.Some? ==> r.value < 0x10000
  {
    match (HexValue(s[0]), HexValue(s[1]), HexValue(s[2]), HexValue(s[3]))
    case (Some(a), Some(b), Some(c), Some(d)) => Some(a * 0x1000 + b * 0x100 + c * 0x10 + d)
    case _ => None
  }

  /** Each lower-case digit reads back as its position. */
  lemma {:induction false} HexDigitValue(d: nat)
    requires d < 16
    ensures HexValue(HexDigits[d]) == Some(d)
  {
  }

  /** Four hex digits read back as the number they were written from. */
  lemma {:induction false} Hex4RoundTrip(n: nat)
    requires n < 0x10000
    ensures Hex4Value(Hex4(n)) == Some(n)
  {
    var a, r1 := n / 0x1000, n % 0x1000;
    assert n == a * 0x1000 + r1;
    var b, r2 := r1 / 0x100, r1 % 0x100;
    assert r1 == b * 0x100 + r2;
    var c, d := r2 / 0x10, r2 % 0x10;
    assert r2 == c * 0x10 + d;
    HexDigitValue(a);
    HexDigitValue(b);
    HexDigitValue(c);
    HexDigitValue(d);
    assert a * 0x1000 + b * 0x100 + c * 0x10 + d == n;
  }

  /** A UTF-16 code unit escape. */
  function UnitEscape(n: nat): (r: string)
    requires n < 0x10000
    ensures |r| == 6
  {
    "\\u" + Hex4(n)
  }

  /** The escape of one character (`py_encode_basestring_ascii`). */
  function EscapeChar(c: char): string {
    if c == '"' then "\\\""
    else if c == '\\' then "\\\\"
    else if c == '\n' then "\\n"
    else if c == '\r' then "\\r"
    else if c == '\t' then "\\t"
    else if c == '\U{0008}' then "\\b"
    else if c == '\U{000C}' then "\\f"
    else if ' ' <= c <= '~' then [c]
    else if (c as int) < 0x10000 then UnitEscape(c as int)
    else
      var n := c as int - 0x10000;
      UnitEscape(0xD800 + n / 0x400) + UnitEscape(0xDC00 + n % 0x400)
  }

  /** The body of a JSON string literal: the escapes of the characters. */
  function Escape(s: string): string
    decreases |s|
  {
    if |s| == 0 then "" else EscapeChar(s[0]) + Escape(s[1..])
  }

  /** `json.dumps(s)` for a string `s`. */
  function Quote(s: string): string {
    "\"" + Escape(s) + "\""
  }

  /** The character a one-letter escape stands for. */
  function ShortEscape(c: char): Option<char> {
    if c == '"' then Some('"')
    else if c == '\\' then Some('\\')
    else if c == '/' then Some('/')
    else if c == 'b' then Some('\U{0008}')
    else if c == 'f' then Some('\U{000C}')
    else if c == 'n' then Some('\n')
    else if c == 'r' then Some('\r')
    else if c == 't' then Some('\t')
    else None
  }

  /** A decoded character in front of the rest of the decoding. */
  function Prepend(c: char, r: Option<string>): Option<string> {
    match r
    case Some(s) => Some([c] + s)
    case None => None
  }

  /** The character a pair of surrogate code units stands for. */
  function Combine(hi: nat, lo: nat): (c: char)
    requires 0xD800 <= hi < 0xDC00 && 0xDC00 <= lo < 0xE000
    ensures 0x10000 <= c as int
  {
    (0x10000 + (hi - 0xD800) * 0x400 + (lo - 0xDC00)) as char
  }

  /** Decodes the body of a JSON string literal; `None` for a malformed
      escape or a surrogate that is not part of a pair. */
  function Unescape(t: string): Option<string>
    decreases |t|
  {
    if |t| == 0 then Some("")
    else if t[0] != '\\' then Prepend(t[0], Unescape(t[1..]))
    else if |t| < 2 then None
    else if t[1] != 'u' then
      match ShortEscape(t[1])
      case Some(c) => Prepend(c, Unescape(t[2..]))
      case None => None
    else if |t| < 6 then None
    else match Hex4Value(t[2..6])
      case None => None
      case Some(h) =>
        if h < 0xD800 || 0xE000 <= h then Prepend(h as char, Unescape(t[6..]))
        else if 0xDC00 <= h || |t| < 12 || t[6..8] != "\\u" then None
        else match Hex4Value(t[8..12])
          case Some(lo) =>
            if 0xDC00 <= lo < 0xE000 then Prepend(Combine(h, lo), Unescape(t[12..])) else None
          case None => None
  }

  /** A BMP escape decodes to the character it was written from. */
  lemma {:induction false} UnitEscapeDecodes(c: char, rest: string)
    requires (c as int) < 0x10000
    ensures Unescape(UnitEscape(c as int) + rest) == Prepend(c, Unescape(rest))
  {
    var t := UnitEscape(c as int) + rest;
    Hex4RoundTrip(c as int);
    assert t[2..6] == Hex4(c as int);
    assert t[6..] == rest;
  }

  /** A well-formed surrogate-pair escape at the front decodes to the
      combined character. */
  lemma {:induction false} UnescapePairFront(t: string, hi: nat, lo: nat)
    requires |t| >= 12 && t[0] == '\\' && t[1] == 'u' && t[6..8] == "\\u"
    requires Hex4Value(t[2..6]) == Some(hi) && Hex4Value(t[8..12]) == Some(lo)
    requires 0xD800 <= hi < 0xDC00 && 0xDC00 <= lo < 0xE000
    ensures Unescape(t) == Prepend(Combine(hi, lo), Unescape(t[12..]))
  {
  }

  /** Splitting a supplementary character into surrogates and combining
      them again gives the character back. */
  lemma {:induction false} CombineSplit(c: char)
    requires 0x10000 <= c as int
    ensures var n := c as int - 0x10000;
      && 0xD800 <= 0xD800 + n / 0x400 < 0xDC00 && 0xDC00 <= 0xDC00 + n % 0x400 < 0xE000
      && Combine(0xD800 + n / 0x400, 0xDC00 + n % 0x400) == c
  {
    var n := c as int - 0x10000;
    assert n == (n / 0x400) * 0x400 + n % 0x400;
  }

  /** A surrogate pair decodes to the character it was written from. */
  lemma {:induction false} PairDecodes(c: char, rest: string)
    requires 0x10000 <= c as int
    ensures var n := c as int - 0x10000;
      Unescape(UnitEscape(0xD800 + n / 0x400) + UnitEscape(0xDC00 + n % 0x400) + rest) == Prepend(c, Unescape(rest))
  {
    var n := c as int - 0x10000;
    CombineSplit(c);
    var hi, lo := 0xD800 + n / 0x400, 0xDC00 + n % 0x400;
    var t := UnitEscape(hi) + UnitEscape(lo) + rest;
    Hex4RoundTrip(hi);
    Hex4RoundTrip(lo);
    PairSlices(hi, lo, rest);
    UnescapePairFront(t, hi, lo);
  }

  /** Where the parts of two unit escapes sit in front of `rest`. */
  lemma {:induction false} PairSlices(hi: nat, lo: nat, rest: string)
    requires hi < 0x10000 && lo < 0x10000
    ensures var t := UnitEscape(hi) + UnitEscape(lo) + rest;
      && |t| >= 12 && t[0] == '\\' && t[1] == 'u' && t[2..6] == Hex4(hi)
      && t[6..8] == "\\u" && t[8..12] == Hex4(lo) && t[12..] == rest
  {
    var t := UnitEscape(hi) + UnitEscape(lo) + rest;
    var a, b := UnitEscape(hi), UnitEscape(lo);
    assert t == a + (b + rest);
    assert t[2..6] == a[2..6];
    assert t[6..] == b + rest;
    assert t[6..8] == b[..2];
    assert t[8..12] == b[2..6];
  }

  /** One escaped character decodes back to itself. */
  lemma {:induction false} EscapeCharDecodes(c: char, rest: string)
    ensures Unescape(EscapeChar(c) + rest) == Prepend(c, Unescape(rest))
  {
    var t := EscapeChar(c) + rest;
    if c == '"' || c == '\\' || c == '\n' || c == '\r' || c == '\t' || c == '\U{0008}' || c == '\U{000C}' {
      assert t[2..] == rest;
    } else if ' ' <= c <= '~' {
      assert t[1..] == rest;
    } else if (c as int) < 0x10000 {
      UnitEscapeDecodes(c, rest);
    } else {
      PairDecodes(c, rest);
    }
  }

  /** Decoding undoes the escaping. */
  lemma {:induction false} UnescapeEscape(s: string)
    ensures Unescape(Escape(s)) == Some(s)
    decreases |s|
  {
    if |s| > 0 {
      UnescapeEscape(s[1..]);
      EscapeCharDecodes(s[0], Escape(s[1..]));
      assert [s[0]] + s[1..] == s;
    }
  }

  /** The escaped text is printable ASCII, whatever the input holds. */
  lemma {:induction false} EscapeIsAscii(s: string)
    ensures forall i :: 0 <= i < |Escape(s)| ==> ' ' <= Escape(s)[i] <= '~'
    decreases |s|
  {
    if |s| > 0 {
      EscapeIsAscii(s[1..]);
      var e := EscapeChar(s[0]);
      EscapeCharAscii(s[0]);
      var rest := Escape(s[1..]);
      assert Escape(s) == e + rest;
      forall i | 0 <= i < |Escape(s)| ensures ' ' <= Escape(s)[i] <= '~' {
        if i >= |e| {
          assert Escape(s)[i] == rest[i - |e|];
        }
      }
    }
  }

  /** The escape of one character is printable ASCII. */
  lemma {:induction false} EscapeCharAscii(c: char)
    ensures forall i :: 0 <= i < |EscapeChar(c)| ==> ' ' <= EscapeChar(c)[i] <= '~'
  {
    if (c as int) >= 0x10000 {
      var n := c as int - 0x10000;
      var a, b := UnitEscape(0xD800 + n / 0x400), UnitEscape(0xDC00 + n % 0x400);
      UnitAscii(0xD800 + n / 0x400);
      UnitAscii(0xDC00 + n % 0x400);
      assert forall i :: 0 <= i < 12 ==> (a + b)[i] == if i < 6 then a[i] else b[i - 6];
    } else if !(' ' <= c <= '~') && c != '\n' && c != '\r' && c != '\t' && c != '\U{0008}' && c != '\U{000C}' {
      UnitAscii(c as int);
    }
  }

  /** A unit escape is printable ASCII. */
  lemma {:induction false} UnitAscii(n: nat)
    requires n < 0x10000
    ensures forall i :: 0 <= i < |UnitEscape(n)| ==> ' ' <= UnitEscape(n)[i] <= '~'
  {
    var h := Hex4(n);
    assert forall d :: 0 <= d < 16 ==> ' ' <= HexDigits[d] <= '~';
    assert UnitEscape(n) == ['\\', 'u', h[0], h[1], h[2], h[3]];
  }
}
