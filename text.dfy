/**
  The string operations the three converters borrow from Python: `lower`,
  `startswith`, `split`, `join`, `replace`, `'%d'` formatting, `'  ' * n`
  indentation and `cgi.escape`.  Strings are sequences of characters.
 */
module Text {

  import opened Wrappers

  /** Python's `str.lower` restricted to ASCII letters. */
  function LowerChar(c: char): (r: char)
    ensures 'A' <= c <= 'Z' ==> r as int == c as int + 32
    ensures !('A' <= c <= 'Z') ==> r == c
    ensures !('A' <= r <= 'Z')
  {
    if 'A' <= c <= 'Z' then (c as int + 32) as char else c
  }

  function Lower(s: string): (r: string)
    ensures |r| == |s|
    ensures forall i :: 0 <= i < |s| ==> r[i] == LowerChar(s[i])
  {
    if s == [] then [] else [LowerChar(s[0])] + Lower(s[1..])
  }

  /** Lower-casing twice is lower-casing once. */
  lemma LowerIdempotent(s: string)
    ensures Lower(Lower(s)) == Lower(s)
  {
  }

  /** A string with no ASCII capital is its own lower-case form (all keyword lists are). */
  lemma LowerOfLowerCase(s: string)
    requires forall i :: 0 <= i < |s| ==> !('A' <= s[i] <= 'Z')
    ensures Lower(s) == s
  {
  }

  /** `prefix` is a prefix of `s`; Python's `s.startswith(prefix)`. */
  predicate StartsWith(s: string, prefix: string) {
    |prefix| <= |s| && s[..|prefix|] == prefix
  }

  /** Number of occurrences of `c` in `s`. */
  function Count(c: char, s: string): (n: nat)
    ensures n <= |s|
    ensures n == 0 <==> c !in s
  {
    if s == [] then 0 else (if s[0] == c then 1 else 0) + Count(c, s[1..])
  }

  /** Python's `s.find(c)` for one character: the index of the first `c`, or -1. */
  function Find(s: string, c: char): (r: int)
    ensures -1 <= r < |s|
    ensures r == -1 <==> c !in s
    ensures r >= 0 ==> s[r] == c && c !in s[..r]
  {
    if s == [] then -1
    else if s[0] == c then 0
    else
      var k := Find(s[1..], c);
      if k == -1 then -1
      else assert s[..k + 1] == [s[0]] + s[1..][..k]; k + 1
  }

  /** Python's `sep.join(parts)`. */
  function Join(sep: string, parts: seq<string>): (r: string)
  {
    if |parts| == 0 then ""
    else if |parts| == 1 then parts[0]
    else parts[0] + sep + Join(sep, parts[1..])
  }

  lemma {:induction false} JoinLength(sep: string, parts: seq<string>)
    requires |parts| > 0
    ensures |Join(sep, parts)| == SumLengths(parts) + (|parts| - 1) * |sep|
  {
    if |parts| > 1 {
      JoinLength(sep, parts[1..]);
    }
  }

  /** Each part followed by `sep`, all in one string. */
  function Terminated(sep: string, parts: seq<string>): string {
    if parts == [] then "" else parts[0] + sep + Terminated(sep, parts[1..])
  }

  /** Joining ends with the last part, every earlier part followed by the separator. */
  lemma {:induction false} JoinLast(sep: string, parts: seq<string>, last: string)
    ensures Join(sep, parts + [last]) == Terminated(sep, parts) + last
  {
    if parts == [] {
      assert parts + [last] == [last];
    } else {
      assert (parts + [last])[1..] == parts[1..] + [last];
      JoinLast(sep, parts[1..], last);
    }
  }

  function SumLengths(parts: seq<string>): nat {
    if parts == [] then 0 else |parts[0]| + SumLengths(parts[1..])
  }

  /** Joining starts with the first part. */
  lemma {:induction false} JoinStartsWithFirst(sep: string, parts: seq<string>)
    requires |parts| > 0
    ensures StartsWith(Join(sep, parts), parts[0])
  {
  }

  /** Python's `s.split(c)` for a one-character separator `c`. */
  function Split(s: string, c: char): (pieces: seq<string>)
    ensures |pieces| > 0
  {
    if s == [] then [""]
    else if s[0] == c then [""] + Split(s[1..], c)
    else var rest := Split(s[1..], c); [[s[0]] + rest[0]] + rest[1..]
  }

  /** Splitting at `c` yields one more piece than there are `c`s, none of which holds a `c`. */
  lemma {:induction false} SplitPieces(s: string, c: char)
    ensures |Split(s, c)| == Count(c, s) + 1
    ensures forall k :: 0 <= k < |Split(s, c)| ==> c !in Split(s, c)[k]
  {
    if s != [] {
      SplitPieces(s[1..], c);
      var rest := Split(s[1..], c);
      if s[0] != c {
        assert Split(s, c) == [[s[0]] + rest[0]] + rest[1..];
        forall k | 0 <= k < |Split(s, c)| ensures c !in Split(s, c)[k] {
          if k > 0 { assert Split(s, c)[k] == rest[k]; }
        }
      } else {
        assert Split(s, c) == [""] + rest;
        forall k | 0 <= k < |Split(s, c)| ensures c !in Split(s, c)[k] {
          if k > 0 { assert Split(s, c)[k] == rest[k - 1]; }
        }
      }
    }
  }

  /** A string without the separator is one piece. */
  lemma {:induction false} SplitNoSeparator(s: string, c: char)
    requires c !in s
    ensures Split(s, c) == [s]
  {
    if s != [] {
      SplitNoSeparator(s[1..], c);
      assert [s[0]] + s[1..] == s;
    }
  }

  /** Splitting at the first separator: the text before it, then the pieces of the rest. */
  lemma {:induction false} SplitAtFirst(a: string, c: char, b: string)
    requires c !in a
    ensures Split(a + [c] + b, c) == [a] + Split(b, c)
  {
    if a == [] {
      assert a + [c] + b == [c] + b;
      assert ([c] + b)[1..] == b;
    } else {
      var s := a + [c] + b;
      assert s[0] == a[0] && s[1..] == a[1..] + [c] + b;
      SplitAtFirst(a[1..], c, b);
      assert [a[0]] + a[1..] == a;
    }
  }

  /** Splitting at a separator between two parts splits each part on its own. */
  lemma {:induction false} SplitAtSeparator(a: string, c: char, b: string)
    ensures Split(a + [c] + b, c) == Split(a, c) + Split(b, c)
    decreases |a|
  {
    if a == [] {
      assert a + [c] + b == [c] + b;
      assert ([c] + b)[1..] == b;
    } else {
      var s := a + [c] + b;
      assert s[0] == a[0] && s[1..] == a[1..] + [c] + b;
      SplitAtSeparator(a[1..], c, b);
      var q := Split(a[1..], c);
      if a[0] == c {
        assert [""] + (q + Split(b, c)) == [""] + q + Split(b, c);
      } else {
        HeadAfterChar(a[0], q, Split(b, c));
      }
    }
  }

  lemma HeadAfterChar(x: char, q: seq<string>, r: seq<string>)
    requires |q| > 0
    ensures [[x] + (q + r)[0]] + (q + r)[1..] == [[x] + q[0]] + q[1..] + r
  {
    assert (q + r)[0] == q[0] && (q + r)[1..] == q[1..] + r;
  }

  /** A tail without the separator is appended to the last piece. */
  lemma {:induction false} SplitAppendTail(a: string, c: char, b: string)
    requires c !in b
    ensures var p := Split(a, c);
            Split(a + b, c) == p[..|p| - 1] + [p[|p| - 1] + b]
    decreases |a|
  {
    if a == [] {
      assert a + b == b;
      SplitNoSeparator(b, c);
    } else {
      var s := a + b;
      assert s[0] == a[0] && s[1..] == a[1..] + b;
      SplitAppendTail(a[1..], c, b);
      var q := Split(a[1..], c);
      if a[0] == c {
        TailAfterEmpty(q, b);
      } else {
        TailAfterChar(a[0], q, b);
      }
    }
  }

  lemma TailAfterEmpty(q: seq<string>, b: string)
    requires |q| > 0
    ensures var p := [""] + q;
            [""] + (q[..|q| - 1] + [q[|q| - 1] + b]) == p[..|p| - 1] + [p[|p| - 1] + b]
  {
    var p := [""] + q;
    assert p[..|p| - 1] == [""] + q[..|q| - 1];
  }

  lemma TailAfterChar(x: char, q: seq<string>, b: string)
    requires |q| > 0
    ensures var rest := q[..|q| - 1] + [q[|q| - 1] + b];
            var p := [[x] + q[0]] + q[1..];
            [[x] + rest[0]] + rest[1..] == p[..|p| - 1] + [p[|p| - 1] + b]
  {
    var n := |q|;
    var rest := q[..n - 1] + [q[n - 1] + b];
    var p := [[x] + q[0]] + q[1..];
    if n == 1 {
      assert rest == [q[0] + b];
      assert [x] + (q[0] + b) == ([x] + q[0]) + b;
    } else {
      assert rest[0] == q[0];
      assert rest[1..] == q[1..n - 1] + [q[n - 1] + b];
      assert p[..n - 1] == [[x] + q[0]] + q[1..n - 1];
    }
  }

  /** A character absent from a string is absent from every piece of it. */
  lemma {:induction false} SplitAbsent(s: string, c: char, d: char)
    requires d !in s
    ensures forall k :: 0 <= k < |Split(s, c)| ==> d !in Split(s, c)[k]
    decreases |s|
  {
    if s != [] {
      assert d !in s[1..] by { assert forall i :: 0 <= i < |s[1..]| ==> s[1..][i] == s[i + 1]; }
      SplitAbsent(s[1..], c, d);
    }
  }

  /** Python's `s.replace(pat, rep)`: left to right, non-overlapping. */
  function Replace(s: string, pat: string, rep: string): (r: string)
    requires |pat| > 0
    decreases |s|
  {
    if |s| < |pat| then s
    else if s[..|pat|] == pat then rep + Replace(s[|pat|..], pat, rep)
    else [s[0]] + Replace(s[1..], pat, rep)
  }

  /**
    Replacing a one-character pattern is splitting at it and joining with the
    replacement: `s.replace(c, rep) == rep.join(s.split(c))`.
   */
  lemma {:induction false} ReplaceIsJoinSplit(s: string, c: char, rep: string)
    ensures Replace(s, [c], rep) == Join(rep, Split(s, c))
  {
    if s != [] {
      ReplaceIsJoinSplit(s[1..], c, rep);
      var rest := Split(s[1..], c);
      if s[0] == c {
        assert s[..1] == [c];
        assert Split(s, c) == [""] + rest;
        assert Join(rep, [""] + rest) == "" + rep + Join(rep, rest) by {
          assert ([""] + rest)[1..] == rest;
        }
      } else {
        assert s[..1] != [c];
        assert Split(s, c) == [[s[0]] + rest[0]] + rest[1..];
        JoinConsFirst(rep, s[0], rest);
      }
    }
  }

  lemma JoinConsFirst(sep: string, x: char, parts: seq<string>)
    requires |parts| > 0
    ensures Join(sep, [[x] + parts[0]] + parts[1..]) == [x] + Join(sep, parts)
  {
    var q := [[x] + parts[0]] + parts[1..];
    if |parts| > 1 {
      assert q[1..] == parts[1..];
    }
  }

  /** Splitting at `c` and joining with `c` gives back the string. */
  lemma SplitJoinRoundTrip(s: string, c: char)
    ensures Join([c], Split(s, c)) == s
  {
    ReplaceIsJoinSplit(s, c, [c]);
    ReplaceSelf(s, [c]);
  }

  /** A string in which the pattern's first character never occurs is left as it is. */
  lemma {:induction false} ReplaceAbsent(s: string, pat: string, rep: string)
    requires |pat| > 0 && pat[0] !in s
    ensures Replace(s, pat, rep) == s
    decreases |s|
  {
    if |s| >= |pat| {
      assert s[..|pat|][0] == s[0] != pat[0];
      ReplaceAbsent(s[1..], pat, rep);
      assert s == [s[0]] + s[1..];
    }
  }

  lemma {:induction false} ReplaceSelf(s: string, pat: string)
    requires |pat| > 0
    ensures Replace(s, pat, pat) == s
    decreases |s|
  {
    if |s| >= |pat| {
      if s[..|pat|] == pat {
        ReplaceSelf(s[|pat|..], pat);
        assert s == pat + s[|pat|..];
      } else {
        ReplaceSelf(s[1..], pat);
        assert s == [s[0]] + s[1..];
      }
    }
  }

  /** `n` spaces. */
  function Spaces(n: nat): (r: string)
    ensures |r| == n
    ensures forall i :: 0 <= i < n ==> r[i] == ' '
  {
    if n == 0 then "" else " " + Spaces(n - 1)
  }

  /** Python's `'  ' * level`: two spaces per level. */
  function Indent(level: nat): (r: string)
    ensures r == Spaces(2 * level)
  {
    if level == 0 then "" else "  " + Indent(level - 1)
  }

  // ---------------------------------------------------------------------
  // '%d' formatting

  function DigitChar(d: nat): (c: char)
    requires d < 10
    ensures '0' <= c <= '9'
  {
    "0123456789"[d]
  }

  function NatDigits(n: nat): (r: string)
    ensures |r| > 0
    ensures forall i :: 0 <= i < |r| ==> '0' <= r[i] <= '9'
  {
    if n < 10 then [DigitChar(n)] else NatDigits(n / 10) + [DigitChar(n % 10)]
  }

  /** Python's `'%d' % n`. */
  function Decimal(n: int): (r: string)
    ensures |r| > 0
    ensures (n < 0) <==> r[0] == '-'
  {
    if n < 0 then "-" + NatDigits(-n) else NatDigits(n)
  }

  /** The value of a non-empty string of decimal digits. */
  function DigitsValue(s: string): nat
    requires forall i :: 0 <= i < |s| ==> '0' <= s[i] <= '9'
  {
    if s == [] then 0 else DigitsValue(s[..|s| - 1]) * 10 + (s[|s| - 1] as int - '0' as int)
  }

  /** Reads back what `Decimal` writes: an optional minus sign and digits. */
  function ParseDecimal(s: string): Option<int> {
    if |s| > 0 && s[0] == '-' then
      (if AllDigits(s[1..]) && |s| > 1 then Some(-(DigitsValue(s[1..]) as int)) else None)
    else if AllDigits(s) && |s| > 0 then Some(DigitsValue(s) as int)
    else None
  }

  predicate AllDigits(s: string) {
    forall i :: 0 <= i < |s| ==> '0' <= s[i] <= '9'
  }

  lemma {:induction false} NatDigitsValue(n: nat)
    ensures DigitsValue(NatDigits(n)) == n
  {
    if n >= 10 {
      NatDigitsValue(n / 10);
      var s := NatDigits(n);
      assert s[..|s| - 1] == NatDigits(n / 10);
    }
  }

  /** `'%d'` is lossless: the decimal text of `n` reads back as `n`. */
  lemma DecimalRoundTrip(n: int)
    ensures ParseDecimal(Decimal(n)) == Some(n)
  {
    if n < 0 {
      NegativeRoundTrip(n);
    } else {
      NatRoundTrip(n);
    }
  }

  lemma NatRoundTrip(n: nat)
    ensures ParseDecimal(NatDigits(n)) == Some(n)
  {
    NatDigitsValue(n);
    var d := NatDigits(n);
    assert AllDigits(d) && d[0] != '-';
  }

  lemma NegativeRoundTrip(n: int)
    requires n < 0
    ensures ParseDecimal(Decimal(n)) == Some(n)
  {
    var m: nat := -n;
    var e := NatDigits(m);
    assert Decimal(n) == "-" + e;
    NatDigitsValue(m);
    MinusDigitsRoundTrip(e);
    assert -(DigitsValue(e) as int) == n;
  }

  lemma MinusDigitsRoundTrip(e: string)
    requires |e| > 0 && AllDigits(e)
    ensures ParseDecimal("-" + e) == Some(-(DigitsValue(e) as int))
  {
    var d := "-" + e;
    assert d[0] == '-' && d[1..] == e;
  }

  // ---------------------------------------------------------------------
  // cgi.escape (without quote escaping)

  function EscapeChar(c: char): (r: string)
    ensures '<' !in r && '>' !in r
  {
    if c == '&' then "&amp;" else if c == '<' then "&lt;" else if c == '>' then "&gt;" else [c]
  }

  /** Python's `cgi.escape(s)`: `&`, `<` and `>` become entities. */
  function Escape(s: string): (r: string)
    ensures '<' !in r && '>' !in r
    ensures |r| >= |s|
  {
    if s == [] then "" else EscapeChar(s[0]) + Escape(s[1..])
  }

  /** The inverse of `Escape`: the three entities become characters again. */
  function Unescape(s: string): string
    decreases |s|
  {
    if s == [] then ""
    else if StartsWith(s, "&amp;") then "&" + Unescape(s[5..])
    else if StartsWith(s, "&lt;") then "<" + Unescape(s[4..])
    else if StartsWith(s, "&gt;") then ">" + Unescape(s[4..])
    else [s[0]] + Unescape(s[1..])
  }

  lemma UnescapeAmp(t: string)
    ensures Unescape("&amp;" + t) == "&" + Unescape(t)
  {
    var u := "&amp;" + t;
    assert StartsWith(u, "&amp;") by { assert u[..5] == "&amp;"; }
    assert u[5..] == t;
  }

  lemma UnescapeLt(t: string)
    ensures Unescape("&lt;" + t) == "<" + Unescape(t)
  {
    var u := "&lt;" + t;
    assert !StartsWith(u, "&amp;") by { assert u[1] == 'l'; }
    assert StartsWith(u, "&lt;") by { assert u[..4] == "&lt;"; }
    assert u[4..] == t;
  }

  lemma UnescapeGt(t: string)
    ensures Unescape("&gt;" + t) == ">" + Unescape(t)
  {
    var u := "&gt;" + t;
    assert !StartsWith(u, "&amp;") by { assert u[1] == 'g'; }
    assert !StartsWith(u, "&lt;") by { assert u[1] == 'g'; }
    assert StartsWith(u, "&gt;") by { assert u[..4] == "&gt;"; }
    assert u[4..] == t;
  }

  lemma UnescapePlain(c: char, t: string)
    requires c != '&'
    ensures Unescape([c] + t) == [c] + Unescape(t)
  {
    var u := [c] + t;
    assert u[0] == c;
    assert u[1..] == t;
  }

  /** Unescaping undoes the escape of one character in front of anything. */
  lemma UnescapeEscapeChar(c: char, t: string)
    ensures Unescape(EscapeChar(c) + t) == [c] + Unescape(t)
  {
    if c == '&' {
      UnescapeAmp(t);
    } else if c == '<' {
      UnescapeLt(t);
    } else if c == '>' {
      UnescapeGt(t);
    } else {
      UnescapePlain(c, t);
    }
  }

  /** Escaping loses nothing: unescaping gives the text back. */
  lemma {:induction false} EscapeRoundTrip(s: string)
    ensures Unescape(Escape(s)) == s
  {
    if s != [] {
      EscapeRoundTrip(s[1..]);
      UnescapeEscapeChar(s[0], Escape(s[1..]));
      assert s == [s[0]] + s[1..];
    }
  }
}
