/** Python `str` operations used by the modelled code, on `seq<char>`. */
module Strings {
  import opened Wrappers

  /** `s.startswith(p)` */
  predicate StartsWith(s: string, p: string) {
    |p| <= |s| && s[..|p|] == p
  }

  /** `t in s` for strings: recursive, executable form. */
  function Contains(s: string, t: string): (r: bool)
    decreases |s|
  {
    |t| <= |s| && (s[..|t|] == t || (|s| > 0 && Contains(s[1..], t)))
  }

  /** Reference definition of substring containment. */
  ghost predicate OccursAt(s: string, t: string, i: int) {
    0 <= i && i + |t| <= |s| && s[i..i + |t|] == t
  }

  /** `Contains` agrees with the reference definition, in both directions. */
  lemma {:induction false} ContainsIff(s: string, t: string)
    ensures Contains(s, t) <==> exists i :: OccursAt(s, t, i)
    decreases |s|
  {
    if Contains(s, t) {
      if s[..|t|] == t {
        assert OccursAt(s, t, 0);
      } else {
        ContainsIff(s[1..], t);
        var i :| OccursAt(s[1..], t, i);
        assert s[i + 1..i + 1 + |t|] == s[1..][i..i + |t|];
        assert OccursAt(s, t, i + 1);
      }
    }
    if exists i :: OccursAt(s, t, i) {
      var i :| OccursAt(s, t, i);
      if i > 0 {
        assert s[1..][i - 1..i - 1 + |t|] == s[i..i + |t|];
        assert OccursAt(s[1..], t, i - 1);
        ContainsIff(s[1..], t);
      }
    }
  }

  /** A string contains itself wherever it sits. */
  lemma {:induction false} ContainsWitness(s: string, t: string, i: int)
    requires OccursAt(s, t, i)
    ensures Contains(s, t)
  {
    ContainsIff(s, t);
  }

  /** A prefix is a substring. */
  lemma {:induction false} StartsWithContains(s: string, p: string)
    requires StartsWith(s, p)
    ensures Contains(s, p)
  {
    assert OccursAt(s, p, 0);
    ContainsWitness(s, p, 0);
  }

  /** Substrings of a substring are substrings. */
  lemma {:induction false} ContainsInfix(a: string, t: string, b: string)
    ensures Contains(a + t + b, t)
  {
    assert (a + t + b)[|a|..|a| + |t|] == t;
    ContainsWitness(a + t + b, t, |a|);
  }

  /** `sep.join(parts)` */
  function Join(sep: string, parts: seq<string>): string
    decreases |parts|
  {
    if |parts| == 0 then ""
    else if |parts| == 1 then parts[0]
    else parts[0] + sep + Join(sep, parts[1..])
  }

  /** Joining one more part appends the separator and the part. */
  lemma {:induction false} JoinSnoc(sep: string, parts: seq<string>, x: string)
    requires |parts| > 0
    ensures Join(sep, parts + [x]) == Join(sep, parts) + sep + x
    decreases |parts|
  {
    if |parts| == 1 {
      assert parts + [x] == [parts[0], x];
    } else {
      assert (parts + [x])[1..] == parts[1..] + [x];
      JoinSnoc(sep, parts[1..], x);
    }
  }

  /** Joining two non-empty lists puts one separator between them. */
  lemma {:induction false} JoinAppend(sep: string, xs: seq<string>, ys: seq<string>)
    requires |xs| > 0 && |ys| > 0
    ensures Join(sep, xs + ys) == Join(sep, xs) + sep + Join(sep, ys)
    decreases |xs|
  {
    if |xs| == 1 {
      assert (xs + ys)[1..] == ys;
    } else {
      assert (xs + ys)[1..] == xs[1..] + ys;
      JoinAppend(sep, xs[1..], ys);
    }
  }

  /** Python's `str.isspace()` characters (ASCII and Unicode whitespace). */
  predicate IsSpace(c: char) {
    c == ' ' || c == '\t' || c == '\n' || c == '\r' || c == '\U{000B}' || c == '\U{000C}'
    || ('\U{001C}' <= c <= '\U{001F}') || c == '\U{0085}' || c == '\U{00A0}' || c == '\U{1680}'
    || ('\U{2000}' <= c <= '\U{200A}') || c == '\U{2028}' || c == '\U{2029}' || c == '\U{202F}'
    || c == '\U{205F}' || c == '\U{3000}'
  }

  predicate NoSpace(s: string) {
    forall i :: 0 <= i < |s| ==> !IsSpace(s[i])
  }

  /** `s.lstrip()` */
  function StripLeft(s: string): (r: string)
    ensures |r| <= |s|
    ensures r == [] || !IsSpace(r[0])
    ensures |s| > 0 && !IsSpace(s[0]) ==> r == s
    decreases |s|
  {
    if |s| > 0 && IsSpace(s[0]) then StripLeft(s[1..]) else s
  }

  /** `lstrip` removes exactly the leading whitespace: what it returns is a
      suffix of `s`, and everything before it is whitespace. */
  lemma {:induction false} StripLeftSpec(s: string)
    ensures var r := StripLeft(s);
      && r == s[|s| - |r|..]
      && forall i :: 0 <= i < |s| - |r| ==> IsSpace(s[i])
    decreases |s|
  {
    if |s| > 0 && IsSpace(s[0]) {
      StripLeftSpec(s[1..]);
      var r := StripLeft(s);
      forall i | 0 <= i < |s| - |r| ensures IsSpace(s[i]) {
        if i > 0 {
          assert s[i] == s[1..][i - 1];
        }
      }
    }
  }

  /** `s.rstrip()` */
  function StripRight(s: string): (r: string)
    ensures |r| <= |s|
    ensures |s| > 0 && !IsSpace(s[|s| - 1]) ==> r == s
    decreases |s|
  {
    if |s| > 0 && IsSpace(s[|s| - 1]) then StripRight(s[..|s| - 1]) else s
  }

  /** `rstrip` removes exactly the trailing whitespace. */
  lemma {:induction false} StripRightSpec(s: string)
    ensures var r := StripRight(s);
      && r == s[..|r|]
      && (r == [] || !IsSpace(r[|r| - 1]))
      && forall i :: |r| <= i < |s| ==> IsSpace(s[i])
    decreases |s|
  {
    if |s| > 0 && IsSpace(s[|s| - 1]) {
      StripRightSpec(s[..|s| - 1]);
      var r := StripRight(s);
      forall i | |r| <= i < |s| ensures IsSpace(s[i]) {
        if i < |s| - 1 {
          assert s[i] == s[..|s| - 1][i];
        }
      }
    }
  }

  /** `s.strip()` */
  function Strip(s: string): string {
    StripRight(StripLeft(s))
  }

  /** The leading run of non-whitespace characters of `s`. */
  function Word(s: string): (w: string)
    ensures |w| <= |s|
    ensures |s| > 0 && !IsSpace(s[0]) ==> |w| > 0
    decreases |s|
  {
    if |s| == 0 || IsSpace(s[0]) then "" else [s[0]] + Word(s[1..])
  }

  /** The leading word is a space-free prefix of `s`, ending at the first
      whitespace character or at the end. */
  lemma {:induction false} WordSpec(s: string)
    ensures var w := Word(s);
      && w == s[..|w|]
      && NoSpace(w)
      && (|w| == |s| || IsSpace(s[|w|]))
    decreases |s|
  {
    if |s| > 0 && !IsSpace(s[0]) {
      WordSpec(s[1..]);
      var w := Word(s);
      assert w == [s[0]] + Word(s[1..]);
      forall i | 0 <= i < |w| ensures !IsSpace(w[i]) {
        if i > 0 {
          assert w[i] == Word(s[1..])[i - 1];
        }
      }
    }
  }

  /** `s.split(None, maxsplit)`: whitespace-separated fields, splitting at most
      `maxsplit` times (None: unbounded); the last field keeps its inner and
      trailing whitespace once the limit is reached. */
  function SplitWhitespace(s: string, maxsplit: Option<nat>): (r: seq<string>)
    decreases |s|
  {
    var t := StripLeft(s);
    if t == [] then []
    else if maxsplit == Some(0) then [t]
    else
      var w := Word(t);
      assert |w| > 0;
      [w] + SplitWhitespace(t[|w|..], if maxsplit.Some? then Some(maxsplit.value - 1) else None)
  }

  /** Every field is non-empty; unbounded splitting leaves no whitespace in a
      field, and `maxsplit` bounds the number of fields. */
  lemma {:induction false} SplitWhitespaceFields(s: string, maxsplit: Option<nat>)
    ensures var r := SplitWhitespace(s, maxsplit);
      && (forall k :: 0 <= k < |r| ==> r[k] != [])
      && (maxsplit.None? ==> forall k :: 0 <= k < |r| ==> NoSpace(r[k]))
      && (maxsplit.Some? ==> |r| <= maxsplit.value + 1)
    decreases |s|
  {
    var t := StripLeft(s);
    if t != [] && maxsplit != Some(0) {
      var w := Word(t);
      WordSpec(t);
      var m := if maxsplit.Some? then Some(maxsplit.value - 1) else None;
      SplitWhitespaceFields(t[|w|..], m);
      var r := SplitWhitespace(s, maxsplit);
      assert r == [w] + SplitWhitespace(t[|w|..], m);
      forall k | 0 <= k < |r| ensures r[k] != [] && (maxsplit.None? ==> NoSpace(r[k])) {
        if k > 0 {
          assert r[k] == SplitWhitespace(t[|w|..], m)[k - 1];
        }
      }
    }
  }

  /** The leading word of a space-free word followed by a space (or
      nothing) is that word. */
  lemma {:induction false} WordOf(a: string, rest: string)
    requires NoSpace(a) && (rest == [] || IsSpace(rest[0]))
    ensures Word(a + rest) == a
    decreases |a|
  {
    if |a| > 0 {
      assert (a + rest)[1..] == a[1..] + rest;
      WordOf(a[1..], rest);
    } else {
      assert a + rest == rest;
    }
  }

  /** Text that starts with a non-space survives `lstrip`, shifted by the
      stripped prefix. */
  lemma {:induction false} StripLeftKeeps(s: string, t: string, i: int)
    requires |t| > 0 && !IsSpace(t[0]) && OccursAt(s, t, i)
    ensures |s| - |StripLeft(s)| <= i && OccursAt(StripLeft(s), t, i - (|s| - |StripLeft(s)|))
  {
    var u := StripLeft(s);
    StripLeftSpec(s);
    var off := |s| - |u|;
    assert s[i] == t[0];
    assert u[i - off..i - off + |t|] == s[i..i + |t|];
  }

  /** `s.split()` of text with a word in it: that word, then the split of
      what follows it. */
  lemma {:induction false} SplitWhitespaceUnfold(s: string)
    requires StripLeft(s) != []
    ensures var u := StripLeft(s);
      |Word(u)| > 0 && SplitWhitespace(s, None) == [Word(u)] + SplitWhitespace(u[|Word(u)|..], None)
  {
  }

  /** Space-free text that starts inside the leading word ends inside it. */
  lemma {:induction false} InWord(u: string, t: string, j: int)
    requires |t| > 0 && NoSpace(t) && OccursAt(u, t, j) && j < |Word(u)|
    ensures OccursAt(Word(u), t, j)
  {
    var w := Word(u);
    WordSpec(u);
    forall p | j <= p < j + |t|
      ensures !IsSpace(u[p])
    {
      assert u[p] == t[p - j];
    }
    assert j + |t| <= |w|;
    assert w[j..j + |t|] == u[j..j + |t|];
  }

  /** Text that starts after the leading word occurs in what follows it. */
  lemma {:induction false} InRest(u: string, t: string, j: int)
    requires OccursAt(u, t, j) && j >= |Word(u)|
    ensures OccursAt(u[|Word(u)|..], t, j - |Word(u)|)
  {
    var w := Word(u);
    assert u[|w|..][j - |w|..j - |w| + |t|] == u[j..j + |t|];
  }

  /** Whether some field holds `t`. */
  ghost predicate InSomeField(fields: seq<string>, t: string) {
    exists k, i :: 0 <= k < |fields| && OccursAt(fields[k], t, i)
  }

  /** A field holding `t` still holds it once another field is put in front. */
  lemma {:induction false} InSomeFieldCons(w: string, fields: seq<string>, t: string)
    requires InSomeField(fields, t)
    ensures InSomeField([w] + fields, t)
  {
    var k, i :| 0 <= k < |fields| && OccursAt(fields[k], t, i);
    assert ([w] + fields)[k + 1] == fields[k];
  }

  /** `s.split()` of text holding a space-free occurrence: a first field
      and the split of what follows it. */
  lemma {:induction false} SplitAround(s: string, t: string, i: int) returns (w: string, rest: string)
    requires |t| > 0 && NoSpace(t) && OccursAt(s, t, i)
    ensures w == Word(StripLeft(s)) && rest == StripLeft(s)[|w|..]
    ensures SplitWhitespace(s, None) == [w] + SplitWhitespace(rest, None)
    ensures |rest| < |s|
  {
    StripLeftKeeps(s, t, i);
    SplitWhitespaceUnfold(s);
    w := Word(StripLeft(s));
    rest := StripLeft(s)[|w|..];
  }

  /** The occurrence lies in the first field or in what follows it. */
  lemma {:induction false} Locate(s: string, t: string, i: int, w: string, rest: string) returns (j: int)
    requires |t| > 0 && NoSpace(t) && OccursAt(s, t, i)
    requires w == Word(StripLeft(s)) && rest == StripLeft(s)[|w|..]
    ensures OccursAt(w, t, j) || OccursAt(rest, t, j)
  {
    StripLeftKeeps(s, t, i);
    var u := StripLeft(s);
    j := i - (|s| - |u|);
    if j < |w| {
      InWord(u, t, j);
    } else {
      InRest(u, t, j);
      j := j - |w|;
    }
  }

  /** A space-free, non-empty piece of text found in `s` lies inside one of
      the fields of `s.split()`. */
  lemma {:induction false} OccurrenceInField(s: string, t: string, i: int)
    requires |t| > 0 && NoSpace(t) && OccursAt(s, t, i)
    ensures InSomeField(SplitWhitespace(s, None), t)
    decreases |s|
  {
    var w, rest := SplitAround(s, t, i);
    var j := Locate(s, t, i, w, rest);
    if OccursAt(w, t, j) {
      assert ([w] + SplitWhitespace(rest, None))[0] == w;
    } else {
      OccurrenceInField(rest, t, j);
      InSomeFieldCons(w, SplitWhitespace(rest, None), t);
    }
  }

  /** `s.split(sep)` for a one-character separator: keeps empty fields. */
  function SplitOn(s: string, sep: char): (r: seq<string>)
    ensures |r| >= 1
    ensures forall k :: 0 <= k < |r| ==> sep !in r[k]
    decreases |s|
  {
    if |s| == 0 then [""]
    else if s[0] == sep then [""] + SplitOn(s[1..], sep)
    else
      var rest := SplitOn(s[1..], sep);
      [[s[0]] + rest[0]] + rest[1..]
  }

  /** A text without the separator is a single field. */
  lemma {:induction false} SplitOnNone(a: string, sep: char)
    requires sep !in a
    ensures SplitOn(a, sep) == [a]
    decreases |a|
  {
    if |a| > 0 {
      SplitOnNone(a[1..], sep);
      assert [a[0]] + a[1..] == a;
    }
  }

  /** Splitting at the first separator peels off the first field. */
  lemma {:induction false} SplitOnFirst(a: string, sep: char, b: string)
    requires sep !in a
    ensures SplitOn(a + [sep] + b, sep) == [a] + SplitOn(b, sep)
    decreases |a|
  {
    var s := a + [sep] + b;
    if |a| == 0 {
      assert s[1..] == b;
    } else {
      assert s[1..] == a[1..] + [sep] + b;
      SplitOnFirst(a[1..], sep, b);
      assert [a[0]] + a[1..] == a;
    }
  }

  /** Splitting a joined list at its separator gives the list back, when no
      part holds the separator. */
  lemma {:induction false} SplitOnJoin(parts: seq<string>, sep: char)
    requires |parts| > 0
    requires forall k :: 0 <= k < |parts| ==> sep !in parts[k]
    ensures SplitOn(Join([sep], parts), sep) == parts
    decreases |parts|
  {
    if |parts| == 1 {
      SplitOnNone(parts[0], sep);
    } else {
      SplitOnJoin(parts[1..], sep);
      SplitOnFirst(parts[0], sep, Join([sep], parts[1..]));
    }
  }

  /** `s.split(sep)[-1]` */
  function LastField(s: string, sep: char): (r: string)
    ensures sep !in r
  {
    var fields := SplitOn(s, sep);
    fields[|fields| - 1]
  }

  /** The last field is what follows the last separator (or all of `s`). */
  lemma {:induction false} LastFieldIsSuffix(s: string, sep: char)
    ensures var r := LastField(s, sep); |r| <= |s| && r == s[|s| - |r|..]
    ensures sep !in s ==> LastField(s, sep) == s && |SplitOn(s, sep)| == 1
    ensures sep in s ==> |LastField(s, sep)| < |s| && s[|s| - |LastField(s, sep)| - 1] == sep
    ensures sep in s ==> |SplitOn(s, sep)| > 1
    decreases |s|
  {
    if |s| > 0 {
      LastFieldIsSuffix(s[1..], sep);
      var rest := SplitOn(s[1..], sep);
      var r := LastField(s[1..], sep);
      assert s == [s[0]] + s[1..];
      if s[0] == sep {
        assert LastField(s, sep) == r;
      } else if sep in s[1..] {
        assert LastField(s, sep) == r;
      } else {
        assert LastField(s, sep) == [s[0]] + rest[0];
      }
    }
  }

  /** What follows the last separator is the last field. */
  lemma {:induction false} LastFieldAfter(a: string, sep: char, b: string)
    requires sep !in b
    ensures LastField(a + [sep] + b, sep) == b
    decreases |a|
  {
    var s := a + [sep] + b;
    if |a| == 0 {
      assert s[1..] == b;
      LastFieldIsSuffix(b, sep);
    } else {
      LastFieldAfter(a[1..], sep, b);
      assert s[1..] == a[1..] + [sep] + b;
      assert sep in s[1..] by { assert s[1..][|a| - 1] == sep; }
      LastFieldIsSuffix(s[1..], sep);
    }
  }

  /** ASCII `str.lower()`. */
  function Lower(s: string): (r: string)
    ensures |r| == |s|
    ensures forall i :: 0 <= i < |s| ==> r[i] == LowerChar(s[i])
  {
    seq(|s|, i requires 0 <= i < |s| => LowerChar(s[i]))
  }

  function LowerChar(c: char): char {
    if 'A' <= c <= 'Z' then (c as int - 'A' as int + 'a' as int) as char else c
  }

  /** A decimal digit. */
  function Digit(d: nat): (c: char)
    requires d < 10
    ensures '0' <= c <= '9'
  {
    ['0', '1', '2', '3', '4', '5', '6', '7', '8', '9'][d]
  }

  /** `str(n)` for a natural number. */
  function NatToString(n: nat): (r: string)
    ensures |r| >= 1
    ensures forall i :: 0 <= i < |r| ==> '0' <= r[i] <= '9'
  {
    if n < 10 then [Digit(n)] else NatToString(n / 10) + [Digit(n % 10)]
  }

  /** `str(i)` for an integer. */
  function IntToString(i: int): (r: string)
    ensures |r| >= 1
  {
    if i < 0 then "-" + NatToString(-i) else NatToString(i)
  }

  /** Python's `a <= b` on strings: code point by code point, a proper
      prefix first. */
  predicate StrLe(a: string, b: string)
    decreases |a|
  {
    |a| == 0 || (|b| > 0 && (a[0] < b[0] || (a[0] == b[0] && StrLe(a[1..], b[1..]))))
  }

  /** Any two strings are ordered one way or the other. */
  lemma {:induction false} StrLeTotal(a: string, b: string)
    ensures StrLe(a, b) || StrLe(b, a)
    decreases |a|
  {
    if |a| > 0 && |b| > 0 && a[0] == b[0] {
      StrLeTotal(a[1..], b[1..]);
    }
  }

  /** The order is transitive. */
  lemma {:induction false} StrLeTrans(a: string, b: string, c: string)
    requires StrLe(a, b) && StrLe(b, c)
    ensures StrLe(a, c)
    decreases |a|
  {
    if |a| > 0 && a[0] == b[0] && b[0] == c[0] {
      StrLeTrans(a[1..], b[1..], c[1..]);
    }
  }
}
