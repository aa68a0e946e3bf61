/**
 * String helpers with the semantics of the JavaScript built-ins the OData
 * client relies on: `String.prototype.split` with a one-character separator,
 * `Array.prototype.join`, `String.prototype.trim`, the `/\/+$/` and `/^\/+/`
 * replacements, the `/'/g` replacement and the decimal rendering of integers.
 */
module Strings {

  // ---------------------------------------------------------------------------
  // Joining and splitting
  // ---------------------------------------------------------------------------

  /** `parts.join(sep)`: the parts with `sep` between neighbours. */
  function Join(parts: seq<string>, sep: string): string
  {
    if parts == [] then ""
    else if |parts| == 1 then parts[0]
    else parts[0] + sep + Join(parts[1..], sep)
  }

  lemma {:induction false} JoinCons(p: string, ps: seq<string>, sep: string)
    requires ps != []
    ensures Join([p] + ps, sep) == p + sep + Join(ps, sep)
  {
    assert ([p] + ps)[1..] == ps;
  }

  lemma {:induction false} JoinPair(a: string, b: string, sep: string)
    ensures Join([a, b], sep) == a + sep + b
  {
    JoinCons(a, [b], sep);
    assert [a] + [b] == [a, b];
  }

  /** Joining two or more parts puts the separator into the text. */
  lemma {:induction false} JoinHasSeparator(parts: seq<string>, c: char)
    requires |parts| > 1
    ensures c in Join(parts, [c])
  {
    var j := Join(parts, [c]);
    assert j == parts[0] + [c] + Join(parts[1..], [c]);
    assert j[|parts[0]|] == c;
  }

  /**
   * `s.split(c)`: the maximal pieces of `s` between occurrences of `c`. The
   * pieces never contain `c` and joining them with `c` gives back `s`, which
   * determines them (see SplitNoSeparator and SplitAtFirst).
   */
  function Split(s: string, c: char): (parts: seq<string>)
    ensures |parts| >= 1
    ensures forall i :: 0 <= i < |parts| ==> c !in parts[i]
    ensures Join(parts, [c]) == s
  {
    if s == [] then [""]
    else
      var rest := Split(s[1..], c);
      if s[0] == c then
        JoinCons("", rest, [c]);
        [""] + rest
      else
        var parts := [[s[0]] + rest[0]] + rest[1..];
        if |rest| > 1 then
          JoinCons(rest[0], rest[1..], [c]);
          JoinCons([s[0]] + rest[0], rest[1..], [c]);
          parts
        else
          parts
  }

  lemma {:induction false} SplitNoSeparator(s: string, c: char)
    requires c !in s
    ensures Split(s, c) == [s]
  {
    if s != [] {
      SplitNoSeparator(s[1..], c);
    }
  }

  lemma {:induction false} SplitAtFirst(a: string, b: string, c: char)
    requires c !in a
    ensures Split(a + [c] + b, c) == [a] + Split(b, c)
  {
    if a != [] {
      assert (a + [c] + b)[1..] == a[1..] + [c] + b;
      SplitAtFirst(a[1..], b, c);
      var rest := Split(a[1..] + [c] + b, c);
      assert rest[0] == a[1..] && rest[1..] == Split(b, c);
      assert [a[0]] + a[1..] == a;
    } else {
      assert (a + [c] + b)[1..] == b;
    }
  }

  /** `s.split(c)` has more than one piece exactly when `c` occurs in `s`. */
  lemma {:induction false} SplitManyIffSeparator(s: string, c: char)
    ensures |Split(s, c)| > 1 <==> c in s
  {
    var parts := Split(s, c);
    if |parts| > 1 {
      JoinHasSeparator(parts, c);
    } else {
      assert s == parts[0];
    }
  }

  /** `s.split(c)` has one piece more than `s` has separators. */
  lemma {:induction false} SplitCount(s: string, c: char)
    ensures |Split(s, c)| == Count(s, c) + 1
  {
    if s != [] {
      SplitCount(s[1..], c);
    }
  }

  /** A path `nav/prop` with no further separator splits into its two halves. */
  lemma {:induction false} SplitPair(nav: string, prop: string, c: char)
    requires c !in nav && c !in prop
    ensures Split(nav + [c] + prop, c) == [nav, prop]
  {
    SplitAtFirst(nav, prop, c);
    SplitNoSeparator(prop, c);
  }

  /** Splitting the join of separator-free pieces gives the pieces back. */
  lemma {:induction false} SplitJoin(parts: seq<string>, c: char)
    requires parts != []
    requires forall i :: 0 <= i < |parts| ==> c !in parts[i]
    ensures Split(Join(parts, [c]), c) == parts
  {
    if |parts| == 1 {
      SplitNoSeparator(parts[0], c);
    } else {
      SplitJoin(parts[1..], c);
      SplitAtFirst(parts[0], Join(parts[1..], [c]), c);
      assert [parts[0]] + parts[1..] == parts;
    }
  }

  // ---------------------------------------------------------------------------
  // Trimming
  // ---------------------------------------------------------------------------

  /** The white space and line terminators that `String.prototype.trim` removes. */
  predicate IsSpace(ch: char)
  {
    || ch == '\t' || ch == '\n' || ch == '\U{B}' || ch == '\U{C}' || ch == '\r'
    || ch == ' ' || ch == '\U{A0}' || ch == '\U{1680}'
    || ('\U{2000}' <= ch <= '\U{200A}')
    || ch == '\U{2028}' || ch == '\U{2029}' || ch == '\U{202F}' || ch == '\U{205F}'
    || ch == '\U{3000}' || ch == '\U{FEFF}'
  }

  predicate AllSpace(s: string)
  {
    forall i :: 0 <= i < |s| ==> IsSpace(s[i])
  }

  /** Drops the white space at the front: what is left is a suffix of `s` that starts with a non-space. */
  function TrimStart(s: string): (r: string)
    ensures |r| <= |s| && r == s[|s| - |r|..]
    ensures r == [] || !IsSpace(r[0])
  {
    if s != [] && IsSpace(s[0]) then TrimStart(s[1..]) else s
  }

  /** Drops the white space at the back: what is left is a prefix of `s` that ends with a non-space. */
  function TrimEnd(s: string): (r: string)
    ensures |r| <= |s| && r == s[..|r|]
    ensures r == [] || !IsSpace(r[|r| - 1])
  {
    if s != [] && IsSpace(s[|s| - 1]) then TrimEnd(s[..|s| - 1]) else s
  }

  /** No white space at either end. */
  predicate Trimmed(s: string)
  {
    s == [] || (!IsSpace(s[0]) && !IsSpace(s[|s| - 1]))
  }

  /** `s.trim()`: `s` without its leading and its trailing white space. */
  function Trim(s: string): (r: string)
    ensures Trimmed(r)
  {
    var a := TrimStart(s);
    var r := TrimEnd(a);
    assert r != [] ==> r[0] == a[0];
    r
  }

  /** What `Trim` leaves is a slice of `s`, starting where `TrimStart` stopped. */
  lemma {:induction false} TrimMiddle(s: string)
    ensures var i := |s| - |TrimStart(s)|; var r := Trim(s);
      i + |r| <= |s| && r == s[i..i + |r|]
  {
    var a := TrimStart(s);
    var r := TrimEnd(a);
    var i := |s| - |a|;
    SliceOfSuffix(s, i, |r|);
  }

  lemma {:induction false} PrefixSlices<T>(s: seq<T>, i: nat, j: nat)
    requires i <= j <= |s|
    ensures s[..j][i..] == s[i..j] && s[..j][..i] == s[..i]
  {
  }

  /** A suffix of a prefix of `s` is a slice of `s`. */
  lemma {:induction false} SuffixOfPrefix<T>(s: seq<T>, a: seq<T>, r: seq<T>)
    requires |a| <= |s| && a == s[..|a|] && |r| <= |a| && r == a[|a| - |r|..]
    ensures r == s[|a| - |r|..|a|]
  {
  }

  lemma {:induction false} SliceOfSuffix<T>(s: seq<T>, i: nat, n: nat)
    requires i + n <= |s|
    ensures s[i..][..n] == s[i..i + n]
  {
  }

  /** `TrimStart` cuts off white space only. */
  lemma {:induction false} TrimStartCutsSpace(s: string)
    ensures AllSpace(s[..|s| - |TrimStart(s)|])
  {
    if s != [] && IsSpace(s[0]) {
      TrimStartCutsSpace(s[1..]);
      var n := |s| - |TrimStart(s)|;
      assert s[..n] == [s[0]] + s[1..][..n - 1];
    }
  }

  /** `TrimEnd` cuts off white space only. */
  lemma {:induction false} TrimEndCutsSpace(s: string)
    ensures AllSpace(s[|TrimEnd(s)|..])
  {
    if s != [] && IsSpace(s[|s| - 1]) {
      var t := s[..|s| - 1];
      TrimEndCutsSpace(t);
      var n := |TrimEnd(s)|;
      assert s[n..] == t[n..] + [s[|s| - 1]];
    }
  }

  /** Only white space is cut off on either side of what `Trim` leaves. */
  lemma {:induction false} TrimCutsSpace(s: string)
    ensures var i := |s| - |TrimStart(s)|; var r := Trim(s);
      i + |r| <= |s| && AllSpace(s[..i]) && AllSpace(s[i + |r|..])
      && forall j :: 0 <= j < |s| && !(i <= j < i + |r|) ==> IsSpace(s[j])
  {
    var a := TrimStart(s);
    var r := TrimEnd(a);
    var i := |s| - |a|;
    TrimStartCutsSpace(s);
    TrimEndCutsSpace(a);
    assert s[i + |r|..] == a[|r|..];
    forall j | 0 <= j < |s| && !(i <= j < i + |r|)
      ensures IsSpace(s[j])
    {
      if j < i {
        assert s[..i][j] == s[j];
      } else {
        assert s[i + |r|..][j - i - |r|] == s[j];
      }
    }
  }

  /** `trim()` leaves its input with white space cut off before and after and nothing else. */
  lemma {:induction false} TrimSurrounded(s: string)
    ensures exists a, b :: s == a + Trim(s) + b && AllSpace(a) && AllSpace(b)
  {
    var i := |s| - |TrimStart(s)|;
    var r := Trim(s);
    TrimMiddle(s);
    TrimCutsSpace(s);
    ThreeSlices(s, i, i + |r|);
    var front, back := s[..i], s[i + |r|..];
    assert s == front + r + back && AllSpace(front) && AllSpace(back);
  }

  /** A sequence is its front, its middle and its back put together. */
  lemma {:induction false} ThreeSlices<T>(s: seq<T>, i: nat, j: nat)
    requires i <= j <= |s|
    ensures s == s[..i] + s[i..j] + s[j..]
  {
    assert s[..j] == s[..i] + s[i..j];
    assert s == s[..j] + s[j..];
  }

  /** White space before a text that starts with a non-space is all `TrimStart` drops. */
  lemma {:induction false} TrimStartSpaces(a: string, x: string)
    requires AllSpace(a) && (x == [] || !IsSpace(x[0]))
    ensures TrimStart(a + x) == x
    decreases |a|
  {
    if a == [] {
      assert a + x == x;
    } else {
      assert (a + x)[1..] == a[1..] + x;
      TrimStartSpaces(a[1..], x);
    }
  }

  /** White space after a text that ends with a non-space is all `TrimEnd` drops. */
  lemma {:induction false} TrimEndSpaces(y: string, b: string)
    requires AllSpace(b) && (y == [] || !IsSpace(y[|y| - 1]))
    ensures TrimEnd(y + b) == y
    decreases |b|
  {
    if b == [] {
      assert y + b == y;
    } else {
      var c := y + b;
      assert c[..|c| - 1] == y + b[..|b| - 1];
      TrimEndSpaces(y, b[..|b| - 1]);
    }
  }

  /** Trimming a text wrapped in white space gives the text back, when its own ends are not white space. */
  lemma {:induction false} TrimAround(a: string, t: string, b: string)
    requires AllSpace(a) && AllSpace(b) && Trimmed(t)
    ensures Trim(a + t + b) == t
  {
    if t == [] {
      assert a + t + b == (a + b) + [];
      forall i | 0 <= i < |a + b| ensures IsSpace((a + b)[i]) {
        if i >= |a| { assert (a + b)[i] == b[i - |a|]; }
      }
      TrimStartSpaces(a + b, []);
    } else {
      assert a + t + b == a + (t + b);
      TrimStartSpaces(a, t + b);
      TrimEndSpaces(t, b);
    }
  }

  /** A string with no white space at either end is its own trim. */
  lemma {:induction false} TrimClean(s: string)
    requires Trimmed(s)
    ensures Trim(s) == s
  {
  }

  // ---------------------------------------------------------------------------
  // Prefixes, suffixes and repeated characters
  // ---------------------------------------------------------------------------

  predicate StartsWith(s: string, prefix: string)
  {
    prefix <= s
  }

  predicate EndsWith(s: string, suffix: string)
  {
    |suffix| <= |s| && s[|s| - |suffix|..] == suffix
  }

  predicate AllChar(s: string, c: char)
  {
    forall i :: 0 <= i < |s| ==> s[i] == c
  }

  /** `s.replace(/c+$/, '')` for a single character `c`: `s` without its run of trailing `c`. */
  function StripTrailing(s: string, c: char): (r: string)
    ensures |r| <= |s| && r == s[..|r|]
    ensures r == [] || r[|r| - 1] != c
  {
    if s != [] && s[|s| - 1] == c then StripTrailing(s[..|s| - 1], c) else s
  }

  /** `StripTrailing` cuts off `c` only. */
  lemma {:induction false} StripTrailingCuts(s: string, c: char)
    ensures AllChar(s[|StripTrailing(s, c)|..], c)
  {
    if s != [] && s[|s| - 1] == c {
      var t := s[..|s| - 1];
      var r := StripTrailing(t, c);
      StripTrailingCuts(t, c);
      assert s[|r|..] == t[|r|..] + [c];
    }
  }

  /** `s.replace(/^c+/, '')` for a single character `c`: `s` without its run of leading `c`. */
  function StripLeading(s: string, c: char): (r: string)
    ensures |r| <= |s| && r == s[|s| - |r|..]
    ensures r == [] || r[0] != c
  {
    if s != [] && s[0] == c then StripLeading(s[1..], c) else s
  }

  /** `StripLeading` cuts off `c` only. */
  lemma {:induction false} StripLeadingCuts(s: string, c: char)
    ensures AllChar(s[..|s| - |StripLeading(s, c)|], c)
  {
    if s != [] && s[0] == c {
      var r := StripLeading(s[1..], c);
      var k := |s| - |r|;
      StripLeadingCuts(s[1..], c);
      forall i | 0 <= i < k ensures s[..k][i] == c {
        if i > 0 {
          assert s[..k][i] == s[1..][..k - 1][i - 1];
        }
      }
    }
  }

  /** Stripping twice strips nothing more. */
  lemma {:induction false} StripTrailingIdempotent(s: string, c: char)
    ensures StripTrailing(StripTrailing(s, c), c) == StripTrailing(s, c)
  {
    if s != [] && s[|s| - 1] == c {
      StripTrailingIdempotent(s[..|s| - 1], c);
    }
  }

  /** Stripping a run of trailing `c` from `s` +  that run gives what stripping `s` gives. */
  lemma {:induction false} StripTrailingAppended(s: string, c: char, n: nat)
    ensures StripTrailing(s + seq(n, _ => c), c) == StripTrailing(s, c)
  {
    if n > 0 {
      var t := s + seq(n, _ => c);
      assert t[..|t| - 1] == s + seq(n - 1, _ => c);
      StripTrailingAppended(s, c, n - 1);
    } else {
      assert s + seq(n, _ => c) == s;
    }
  }

  // ---------------------------------------------------------------------------
  // Quote doubling
  // ---------------------------------------------------------------------------

  function Count(s: string, c: char): nat
  {
    if s == [] then 0 else (if s[0] == c then 1 else 0) + Count(s[1..], c)
  }

  /** `s.replace(/'/g, "''")`: every single quote doubled, everything else kept. */
  function DoubleQuotes(s: string): string
  {
    if s == [] then ""
    else if s[0] == '\'' then "''" + DoubleQuotes(s[1..])
    else [s[0]] + DoubleQuotes(s[1..])
  }

  /** The inverse of DoubleQuotes: every `''` collapsed to one `'`. */
  function CollapseQuotes(s: string): string
  {
    if |s| >= 2 && s[0] == '\'' && s[1] == '\'' then "'" + CollapseQuotes(s[2..])
    else if s == [] then ""
    else [s[0]] + CollapseQuotes(s[1..])
  }

  lemma {:induction false} DoubleQuotesLength(s: string)
    ensures |DoubleQuotes(s)| == |s| + Count(s, '\'')
  {
    if s != [] {
      DoubleQuotesLength(s[1..]);
    }
  }

  lemma {:induction false} CollapseDoubleQuotes(s: string)
    ensures CollapseQuotes(DoubleQuotes(s)) == s
  {
    if s != [] {
      CollapseDoubleQuotes(s[1..]);
      if s[0] == '\'' {
        assert DoubleQuotes(s)[2..] == DoubleQuotes(s[1..]);
      } else {
        assert DoubleQuotes(s)[1..] == DoubleQuotes(s[1..]);
        assert s == [s[0]] + s[1..];
      }
    }
  }

  /** In the doubled text every quote stands next to its partner: no lone quote is left. */
  lemma {:induction false} DoubleQuotesPaired(s: string, i: nat)
    requires i < |DoubleQuotes(s)| && DoubleQuotes(s)[i] == '\''
    ensures (i + 1 < |DoubleQuotes(s)| && DoubleQuotes(s)[i + 1] == '\'') || (i > 0 && DoubleQuotes(s)[i - 1] == '\'')
  {
    var d := DoubleQuotes(s);
    if s[0] == '\'' {
      assert d == "''" + DoubleQuotes(s[1..]);
      if i >= 2 {
        DoubleQuotesPaired(s[1..], i - 2);
      }
    } else {
      assert d == [s[0]] + DoubleQuotes(s[1..]);
      DoubleQuotesPaired(s[1..], i - 1);
    }
  }

  // ---------------------------------------------------------------------------
  // Decimal integers
  // ---------------------------------------------------------------------------

  predicate IsDigit(ch: char)
  {
    '0' <= ch <= '9'
  }

  predicate AllDigits(s: string)
  {
    forall i :: 0 <= i < |s| ==> IsDigit(s[i])
  }

  function DigitChar(d: nat): (ch: char)
    requires d < 10
    ensures IsDigit(ch) && ch as int - '0' as int == d
  {
    ['0', '1', '2', '3', '4', '5', '6', '7', '8', '9'][d]
  }

  /** The value of a string of decimal digits, most significant first. */
  function DigitsValue(s: string): nat
    requires AllDigits(s)
  {
    if s == [] then 0
    else DigitsValue(s[..|s| - 1]) * 10 + (s[|s| - 1] as int - '0' as int)
  }

  /** `String(n)` for a natural number: its shortest decimal digits. */
  function NatToString(n: nat): (r: string)
    ensures |r| >= 1 && AllDigits(r)
    ensures r[0] == '0' ==> n == 0
  {
    if n < 10 then [DigitChar(n)]
    else NatToString(n / 10) + [DigitChar(n % 10)]
  }

  /** `String(i)` for an integer: a minus sign before the digits of a negative one. */
  function IntToString(i: int): (r: string)
    ensures |r| >= 1
    ensures i >= 0 <==> r[0] != '-'
  {
    if i < 0 then "-" + NatToString(-i) else NatToString(i)
  }

  /** Reading the digits back gives the number that was written. */
  lemma {:induction false} NatToStringRoundTrip(n: nat)
    ensures DigitsValue(NatToString(n)) == n
  {
    var s := NatToString(n);
    if n >= 10 {
      NatToStringRoundTrip(n / 10);
      assert s[..|s| - 1] == NatToString(n / 10);
    }
  }

  /** Different numbers are written differently. */
  lemma {:induction false} NatToStringInjective(m: nat, n: nat)
    requires NatToString(m) == NatToString(n)
    ensures m == n
  {
    NatToStringRoundTrip(m);
    NatToStringRoundTrip(n);
  }
}
