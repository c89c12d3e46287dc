/**
 * Text handling behind the item id: `str.rstrip`, `str.split`, `int()` and the
 * decimal rendering an f-string gives an integer, and the composition
 * `int(url.rstrip('/').split('/')[-1])` that the list view applies to every
 * upstream reference.
 */
module Ids {
  import opened Wrappers

  /** `s.rstrip(c)`: drop every trailing `c`. */
  function RStrip(s: string, c: char): (r: string)
    ensures r <= s
    ensures r == [] || r[|r| - 1] != c
    ensures forall i :: |r| <= i < |s| ==> s[i] == c
  {
    if |s| > 0 && s[|s| - 1] == c then RStrip(s[..|s| - 1], c) else s
  }

  /** Joins segments with `sep` between them; the inverse of `Split`. */
  function Join(parts: seq<string>, sep: char): string
    requires |parts| >= 1
  {
    if |parts| == 1 then parts[0]
    else Join(parts[..|parts| - 1], sep) + [sep] + parts[|parts| - 1]
  }

  /**
   * `s.split(sep)`: always at least one segment, no segment holds `sep`, and
   * joining the segments back gives `s`. Built from the back, one character
   * at a time.
   */
  function Split(s: string, sep: char): (parts: seq<string>)
    ensures |parts| >= 1
    ensures forall k :: 0 <= k < |parts| ==> sep !in parts[k]
    ensures Join(parts, sep) == s
  {
    if s == [] then [[]]
    else
      var init := Split(s[..|s| - 1], sep);
      var c := s[|s| - 1];
      assert s == s[..|s| - 1] + [c];
      if c == sep then
        assert (init + [[]])[..|init|] == init;
        init + [[]]
      else
        var parts := init[..|init| - 1] + [init[|init| - 1] + [c]];
        assert parts[..|parts| - 1] == init[..|init| - 1];
        parts
  }

  /** The last element of a sequence of segments (`parts[-1]`). */
  function Last(parts: seq<string>): string
    requires |parts| >= 1
  {
    parts[|parts| - 1]
  }

  predicate IsDigit(c: char)
  {
    '0' <= c <= '9'
  }

  predicate AllDigits(s: string)
  {
    forall i :: 0 <= i < |s| ==> IsDigit(s[i])
  }

  /** The value of a string of decimal digits, most significant first. */
  function DigitsValue(s: string): nat
    requires AllDigits(s)
  {
    if s == [] then 0
    else DigitsValue(s[..|s| - 1]) * 10 + (s[|s| - 1] - '0') as int
  }

  /** Text `int()` reads in this model: decimal digits, optionally after one `+` or `-`. */
  predicate IsIntegerText(s: string)
  {
    (|s| >= 1 && AllDigits(s)) || (|s| >= 2 && (s[0] == '+' || s[0] == '-') && AllDigits(s[1..]))
  }

  /**
   * `int(s)` restricted to an optional `+` or `-` followed by at least one
   * decimal digit; anything else is the `ValueError` case.
   */
  function ParseInt(s: string): (r: Option<int>)
    ensures r.Some? <==> IsIntegerText(s)
    ensures |s| >= 1 && AllDigits(s) ==> r == Some(DigitsValue(s))
    ensures |s| >= 2 && AllDigits(s[1..]) && s[0] == '+' ==> r == Some(DigitsValue(s[1..]))
    ensures |s| >= 2 && AllDigits(s[1..]) && s[0] == '-' ==> r == Some(-(DigitsValue(s[1..]) as int))
  {
    if |s| >= 2 && (s[0] == '-' || s[0] == '+') && AllDigits(s[1..]) then
      var v: int := DigitsValue(s[1..]);
      Some(if s[0] == '-' then -v else v)
    else if |s| >= 1 && AllDigits(s) then
      Some(DigitsValue(s))
    else
      None
  }

  /** A leading zero does not change the value of a digit string. */
  lemma {:induction false} DigitsValueLeadingZero(s: string)
    requires AllDigits(s)
    ensures AllDigits("0" + s) && DigitsValue("0" + s) == DigitsValue(s)
  {
    if s == [] {
      assert ("0" + s)[..0] == [];
    } else {
      assert ("0" + s)[..|"0" + s| - 1] == "0" + s[..|s| - 1];
      DigitsValueLeadingZero(s[..|s| - 1]);
    }
  }

  function DigitChar(d: nat): (c: char)
    requires d < 10
    ensures IsDigit(c) && (c - '0') as int == d
  {
    '0' + d as char
  }

  /** The decimal digits of `n`, without leading zeros. */
  function Digits(n: nat): (s: string)
    ensures |s| >= 1 && AllDigits(s)
    ensures DigitsValue(s) == n
  {
    if n < 10 then
      var s := [DigitChar(n)];
      assert s[..0] == [];
      s
    else
      var s := Digits(n / 10) + [DigitChar(n % 10)];
      assert s[..|s| - 1] == Digits(n / 10);
      s
  }

  /** How an f-string renders an integer. */
  function Show(n: int): (s: string)
    ensures |s| >= 1
    ensures '/' !in s && '_' !in s
  {
    var s := if n < 0 then "-" + Digits(-n) else Digits(n);
    assert forall i :: 0 <= i < |s| ==> IsDigit(s[i]) || s[i] == '-';
    s
  }

  /** `int()` reads back every integer an f-string renders. */
  lemma ParseShow(n: int)
    ensures ParseInt(Show(n)) == Some(n)
  {
    if n < 0 {
      assert Show(n)[1..] == Digits(-n);
    }
  }

  /** Distinct integers render differently. */
  lemma ShowInjective(a: int, b: int)
    requires Show(a) == Show(b)
    ensures a == b
  {
    ParseShow(a);
    ParseShow(b);
  }

  /** The item id of an upstream reference URL: `int(url.rstrip('/').split('/')[-1])`. */
  function IdFromUrl(url: string): (r: Option<int>)
    ensures r.Some? ==> RStrip(url, '/') != []
  {
    ParseInt(Last(Split(RStrip(url, '/'), '/')))
  }

  /** Stripping a run of `c` appended to a string that does not end in `c` gives that string back. */
  lemma {:induction false} RStripTrailing(a: string, tail: string, c: char)
    requires a == [] || a[|a| - 1] != c
    requires forall i :: 0 <= i < |tail| ==> tail[i] == c
    ensures RStrip(a + tail, c) == a
  {
    if tail != [] {
      assert (a + tail)[..|a + tail| - 1] == a + tail[..|tail| - 1];
      RStripTrailing(a, tail[..|tail| - 1], c);
    } else {
      assert a + tail == a;
    }
  }

  /** After a separator (or at the start) the last segment is whatever follows it. */
  lemma {:induction false} LastSegmentAfterSep(prefix: string, w: string, sep: char)
    requires prefix == [] || prefix[|prefix| - 1] == sep
    requires sep !in w
    ensures Last(Split(prefix + w, sep)) == w
  {
    if w == [] {
      assert prefix + w == prefix;
      if prefix != [] {
        assert prefix[..|prefix| - 1] + [sep] == prefix;
      }
    } else {
      var w' := w[..|w| - 1];
      assert (prefix + w)[..|prefix + w| - 1] == prefix + w';
      assert w' + [w[|w| - 1]] == w;
      LastSegmentAfterSep(prefix, w', sep);
    }
  }

  /**
   * Reference URLs of the shape `<base>/<id>/` (any number of trailing
   * slashes, base empty or ending in a slash) yield exactly `<id>`.
   */
  lemma IdFromUrlOfShow(base: string, n: int, tail: string)
    requires base == [] || base[|base| - 1] == '/'
    requires forall i :: 0 <= i < |tail| ==> tail[i] == '/'
    ensures IdFromUrl(base + Show(n) + tail) == Some(n)
  {
    var s := Show(n);
    assert (base + s)[|base + s| - 1] == s[|s| - 1];
    assert s[|s| - 1] in s;
    RStripTrailing(base + s, tail, '/');
    LastSegmentAfterSep(base, s, '/');
    ParseShow(n);
  }

  /** Only the text after the last slash (trailing slashes removed) decides the id. */
  lemma IdFromUrlIgnoresPrefix(prefix: string, rest: string)
    requires rest != [] && rest[|rest| - 1] != '/' && '/' !in rest
    ensures IdFromUrl(prefix + "/" + rest) == ParseInt(rest)
  {
    assert rest[|rest| - 1] in rest;
    assert (prefix + "/" + rest)[|prefix + "/" + rest| - 1] == rest[|rest| - 1];
    assert prefix + "/" + rest + [] == prefix + "/" + rest;
    RStripTrailing(prefix + "/" + rest, [], '/');
    LastSegmentAfterSep(prefix + "/", rest, '/');
  }
}
