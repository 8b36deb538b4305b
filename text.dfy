/**
  The Python string operations the core relies on: `str.split` with a
  one-character separator, `str.join`, `str.replace`, `str.strip`,
  `int(str)` and `str(int)`. Strings are sequences of characters.
 */
module Text {
  import opened Wrappers

  /** The characters `str.strip()` removes (the ASCII whitespace set). */
  predicate IsSpace(c: char) {
    c == ' ' || c == '\t' || c == '\n' || c == '\r' || c as int == 11 || c as int == 12
  }

  predicate IsDigit(c: char) { '0' <= c <= '9' }

  predicate EndsWith(s: string, t: string) {
    |t| <= |s| && s[|s| - |t|..] == t
  }

  /** The first index of `c` in `s`. */
  function IndexOf(s: string, c: char): (k: nat)
    requires c in s
    ensures k < |s| && s[k] == c && c !in s[..k]
  {
    if s[0] == c then 0 else 1 + IndexOf(s[1..], c)
  }

  /** `s.split(sep)` for a one-character separator. */
  function Split(s: string, sep: char): (parts: seq<string>)
    ensures |parts| >= 1
    ensures forall i :: 0 <= i < |parts| ==> sep !in parts[i]
    decreases |s|
  {
    if sep !in s then [s]
    else
      var k := IndexOf(s, sep);
      [s[..k]] + Split(s[k + 1..], sep)
  }

  /** `sep.join(parts)`. */
  function Join(parts: seq<string>, sep: string): string {
    if parts == [] then ""
    else if |parts| == 1 then parts[0]
    else parts[0] + sep + Join(parts[1..], sep)
  }

  /** Splitting on `c` and joining back with `c` gives the original string. */
  lemma {:induction false} JoinSplit(s: string, c: char)
    ensures Join(Split(s, c), [c]) == s
    decreases |s|
  {
    if c in s {
      var k := IndexOf(s, c);
      var rest := s[k + 1..];
      var parts := Split(s, c);
      var tail := Split(rest, c);
      JoinSplit(rest, c);
      assert parts == [s[..k]] + tail;
      assert |parts| >= 2 && parts[1..] == tail;
      assert Join(parts, [c]) == s[..k] + [c] + Join(tail, [c]);
      assert s == s[..k] + [c] + rest;
    }
  }

  /** Joining `c`-free pieces with `c` and splitting on `c` gives the pieces back. */
  lemma {:induction false} SplitJoin(parts: seq<string>, c: char)
    requires |parts| >= 1
    requires forall i :: 0 <= i < |parts| ==> c !in parts[i]
    ensures Split(Join(parts, [c]), c) == parts
  {
    if |parts| > 1 {
      var s := Join(parts, [c]);
      var tail := Join(parts[1..], [c]);
      assert s == parts[0] + [c] + tail;
      assert s[|parts[0]|] == c;
      assert c in s;
      var k := IndexOf(s, c);
      assert s[..|parts[0]|] == parts[0];
      assert k == |parts[0]|;
      assert s[k + 1..] == tail;
      SplitJoin(parts[1..], c);
    } else {
      assert Join(parts, [c]) == parts[0];
    }
  }

  /** `s.split(c, 1)[0]`: everything before the first `c`. */
  function Before(s: string, c: char): (r: string)
    ensures r <= s && c !in r
    ensures c in s ==> |r| < |s| && s[|r|] == c
    ensures c !in s ==> r == s
  {
    if c in s then s[..IndexOf(s, c)] else s
  }

  /** Whether `pat` occurs in `s` at index `i`. */
  predicate OccursAt(s: string, pat: string, i: nat) {
    i + |pat| <= |s| && s[i..i + |pat|] == pat
  }

  /**
    `s.replace(pat, rep)`: every non-overlapping occurrence, left to right.
    Replacing a pattern by itself changes nothing, and text shorter than
    the pattern is left alone.
   */
  function Replace(s: string, pat: string, rep: string): (r: string)
    requires |pat| > 0
    ensures rep == pat ==> r == s
    ensures |s| < |pat| ==> r == s
    decreases |s|
  {
    if |s| < |pat| then s
    else if pat <= s then
      assert rep == pat ==> s == rep + s[|pat|..];
      rep + Replace(s[|pat|..], pat, rep)
    else
      assert s == [s[0]] + s[1..];
      [s[0]] + Replace(s[1..], pat, rep)
  }

  /** Replacing a pattern that does not occur changes nothing. */
  lemma {:induction false} ReplaceAbsent(s: string, pat: string, rep: string)
    requires |pat| > 0
    requires forall i: nat :: !OccursAt(s, pat, i)
    ensures Replace(s, pat, rep) == s
    decreases |s|
  {
    if |s| >= |pat| {
      assert !OccursAt(s, pat, 0);
      assert s[0..|pat|] == s[..|pat|];
      forall i: nat ensures !OccursAt(s[1..], pat, i) {
        assert !OccursAt(s, pat, i + 1);
        if i + |pat| <= |s[1..]| {
          assert s[1..][i..i + |pat|] == s[i + 1..i + 1 + |pat|];
        }
      }
      ReplaceAbsent(s[1..], pat, rep);
      assert s == [s[0]] + s[1..];
    }
  }

  function TrimLeft(s: string): (r: string)
    ensures |r| <= |s| && r == s[|s| - |r|..]
    ensures r == [] || !IsSpace(r[0])
    ensures forall i :: 0 <= i < |s| - |r| ==> IsSpace(s[i])
  {
    if s != [] && IsSpace(s[0]) then TrimLeft(s[1..]) else s
  }

  function TrimRight(s: string): (r: string)
    ensures |r| <= |s| && r == s[..|r|]
    ensures r == [] || !IsSpace(r[|r| - 1])
    ensures forall i :: |r| <= i < |s| ==> IsSpace(s[i])
  {
    if s != [] && IsSpace(s[|s| - 1]) then TrimRight(s[..|s| - 1]) else s
  }

  /** `s.strip()`: the longest infix without surrounding whitespace. */
  function Strip(s: string): (r: string)
    ensures |r| <= |s|
    ensures r == [] || (!IsSpace(r[0]) && !IsSpace(r[|r| - 1]))
  {
    var l := TrimLeft(s);
    var r := TrimRight(l);
    assert l == s[|s| - |l|..];
    assert r == s[|s| - |l|..][..|r|] == s[|s| - |l|..|s| - |l| + |r|];
    assert r != [] ==> r[0] == l[0];
    r
  }

  /** A string without surrounding whitespace is its own `strip()`. */
  lemma StripPlain(s: string)
    requires s == [] || (!IsSpace(s[0]) && !IsSpace(s[|s| - 1]))
    ensures Strip(s) == s
  {
    var l := TrimLeft(s);
    assert l == s;
  }

  predicate IsDecimal(d: string) {
    |d| > 0 && forall i :: 0 <= i < |d| ==> IsDigit(d[i])
  }

  /** The value of a string of decimal digits. */
  function DecValue(d: string): nat
    requires forall i :: 0 <= i < |d| ==> IsDigit(d[i])
  {
    if d == [] then 0
    else
      assert IsDigit(d[|d| - 1]);
      DecValue(d[..|d| - 1]) * 10 + (d[|d| - 1] as int - '0' as int)
  }

  function Digit(n: nat): (c: char)
    requires n < 10
    ensures IsDigit(c) && c as int - '0' as int == n
  {
    ('0' as int + n) as char
  }

  /** `str(n)` for a natural number. */
  function NatToStr(n: nat): (r: string)
    ensures IsDecimal(r)
  {
    if n < 10 then [Digit(n)] else NatToStr(n / 10) + [Digit(n % 10)]
  }

  /** `str(n)` for an int: a minus sign for a negative number, then its decimal digits. */
  function IntToStr(n: int): (r: string)
    ensures n >= 0 ==> IsDecimal(r)
    ensures n < 0 ==> |r| >= 2 && r[0] == '-' && IsDecimal(r[1..])
  {
    if n < 0 then
      assert ("-" + NatToStr(-n))[1..] == NatToStr(-n);
      "-" + NatToStr(-n)
    else NatToStr(n)
  }

  /**
    `int(s)` for a string: surrounding whitespace is ignored, then an optional
    sign and one or more decimal digits; anything else is a `ValueError`, here
    `None`.
   */
  function ParseInt(s: string): (r: Option<int>)
    ensures r.Some? ==> exists i :: 0 <= i < |s| && IsDigit(s[i])
  {
    var t := Strip(s);
    if |t| > 0 && (t[0] == '-' || t[0] == '+') then
      if IsDecimal(t[1..]) then
        assert IsDigit(t[1..][0]);
        Some(if t[0] == '-' then 0 - DecValue(t[1..]) else DecValue(t[1..]))
      else None
    else if IsDecimal(t) then
      assert IsDigit(t[0]);
      Some(DecValue(t))
    else None
  }

  lemma {:induction false} DecValueNatToStr(n: nat)
    ensures DecValue(NatToStr(n)) == n
  {
    if n >= 10 {
      DecValueNatToStr(n / 10);
      var d := NatToStr(n);
      assert d[..|d| - 1] == NatToStr(n / 10);
    }
  }

  /** `int(str(n)) == n`. */
  lemma ParseIntToStr(n: int)
    ensures ParseInt(IntToStr(n)) == Some(n)
  {
    var s := IntToStr(n);
    var m: nat := if n < 0 then -n else n;
    DecValueNatToStr(m);
    assert IsDigit(s[|s| - 1]);
    StripPlain(s);
    if n < 0 {
      assert s[1..] == NatToStr(m);
    }
  }

  /** `str(n)` contains no separator a selector or a topic uses. */
  lemma IntToStrPlain(n: int)
    ensures ';' !in IntToStr(n) && '/' !in IntToStr(n) && '.' !in IntToStr(n) && '\n' !in IntToStr(n)
  {
    var d := NatToStr(if n < 0 then -n else n);
    assert forall i :: 0 <= i < |d| ==> IsDigit(d[i]);
  }
}
