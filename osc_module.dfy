/**
  Route templates of `src/osc_modules/OscModule.py`.

  A template such as `/crazyflie/{drone_id}/goal` is read the way
  `re.sub('\{(.*?)\}', ...)` reads it: from left to right, a `{` opens a
  placeholder that ends at the first `}` after it, provided no newline
  comes first (the regex `.` does not match a newline); any other
  character is literal. `regex_to_topic` turns every placeholder into the
  dispatcher wildcard `*`; `regexed` turns it into a greedy named group
  `(?P<name>.*)` and matches the address with `re.match`, anchored at the
  start only.
 */
module OscRouting {
  import opened Wrappers
  import opened Text

  datatype Segment = Lit(text: string) | Hole(name: string)

  /**
    Where the placeholder whose name starts at `s[0]` closes: the index of
    the first `}`, unless a newline comes before it.
   */
  function CloseBrace(s: string): (r: Option<nat>)
    ensures r.Some? ==> r.value < |s| && s[r.value] == '}'
    ensures r.Some? ==> forall i :: 0 <= i < r.value ==> s[i] != '}' && s[i] != '\n'
    ensures r.None? ==> forall i :: 0 <= i < |s| && s[i] == '}' ==> exists j :: 0 <= j < i && s[j] == '\n'
  {
    if s == [] then None
    else if s[0] == '}' then Some(0)
    else if s[0] == '\n' then None
    else match CloseBrace(s[1..])
      case None =>
        assert forall i :: 1 <= i < |s| && s[i] == '}' ==> s[1..][i - 1] == '}';
        None
      case Some(k) => Some(k + 1)
  }

  /** Prepends one literal character, merging it into a leading literal. */
  function PushChar(c: char, segs: seq<Segment>): seq<Segment> {
    if segs != [] && segs[0].Lit? then [Lit([c] + segs[0].text)] + segs[1..]
    else [Lit([c])] + segs
  }

  /** The literal and placeholder segments of a template. */
  function Parse(t: string): (segs: seq<Segment>)
    ensures forall i :: 0 <= i < |segs| && segs[i].Hole? ==> '}' !in segs[i].name && '\n' !in segs[i].name
    decreases |t|
  {
    if t == [] then []
    else if t[0] == '{' && CloseBrace(t[1..]).Some? then
      var k := CloseBrace(t[1..]).value;
      assert forall i :: 0 <= i < k ==> t[1..k + 1][i] == t[1..][i];
      [Hole(t[1..k + 1])] + Parse(t[k + 2..])
    else PushChar(t[0], Parse(t[1..]))
  }

  /** Writes segments back as template text. */
  function Unparse(segs: seq<Segment>): string {
    if segs == [] then ""
    else
      (match segs[0]
       case Lit(p) => p
       case Hole(n) => "{" + n + "}") + Unparse(segs[1..])
  }

  /** The dispatcher topic of a parsed template: every placeholder becomes `*`. */
  function Wildcard(segs: seq<Segment>): string {
    if segs == [] then ""
    else
      (match segs[0]
       case Lit(p) => p
       case Hole(_) => "*") + Wildcard(segs[1..])
  }

  /**
    `regex_to_topic`: the substitution of `*` for every placeholder, scanned
    as `re.sub` scans. Each placeholder, two characters or more, becomes
    one, so the topic is never longer than the template.
   */
  function RegexToTopic(t: string): (r: string)
    ensures |r| <= |t|
    decreases |t|
  {
    if t == [] then ""
    else if t[0] == '{' && CloseBrace(t[1..]).Some? then
      "*" + RegexToTopic(t[CloseBrace(t[1..]).value + 2..])
    else [t[0]] + RegexToTopic(t[1..])
  }

  lemma PushCharText(c: char, segs: seq<Segment>)
    ensures Unparse(PushChar(c, segs)) == [c] + Unparse(segs)
    ensures Wildcard(PushChar(c, segs)) == [c] + Wildcard(segs)
  {
    if segs != [] && segs[0].Lit? {
      assert PushChar(c, segs)[1..] == segs[1..];
    } else {
      assert PushChar(c, segs)[1..] == segs;
    }
  }

  /** Parsing loses nothing: the segments spell the template again. */
  lemma {:induction false} ParseUnparse(t: string)
    ensures Unparse(Parse(t)) == t
    decreases |t|
  {
    if t != [] {
      if t[0] == '{' && CloseBrace(t[1..]).Some? {
        var k := CloseBrace(t[1..]).value;
        ParseUnparse(t[k + 2..]);
        UnparseHole(t[1..k + 1], Parse(t[k + 2..]));
        HoleSplit(t, k);
      } else {
        ParseUnparse(t[1..]);
        PushCharText(t[0], Parse(t[1..]));
        assert t == [t[0]] + t[1..];
      }
    }
  }

  lemma UnparseHole(n: string, rest: seq<Segment>)
    ensures Unparse([Hole(n)] + rest) == "{" + n + "}" + Unparse(rest)
  {
    assert ([Hole(n)] + rest)[1..] == rest;
  }

  lemma HoleSplit(t: string, k: nat)
    requires k + 2 <= |t| && t[0] == '{' && t[k + 1] == '}'
    ensures t == "{" + t[1..k + 1] + "}" + t[k + 2..]
  {
  }

  /**
    `regex_to_topic` keeps every literal character and puts one `*` where
    each placeholder stood.
   */
  lemma {:induction false} RegexToTopicIsWildcard(t: string)
    ensures RegexToTopic(t) == Wildcard(Parse(t))
    decreases |t|
  {
    if t != [] {
      if t[0] == '{' && CloseBrace(t[1..]).Some? {
        var k := CloseBrace(t[1..]).value;
        RegexToTopicIsWildcard(t[k + 2..]);
        assert Parse(t)[1..] == Parse(t[k + 2..]);
      } else {
        RegexToTopicIsWildcard(t[1..]);
        PushCharText(t[0], Parse(t[1..]));
      }
    }
  }

  // ---------------------------------------------------------------------
  // `regexed`: the named-group regex and its match

  predicate IsIdentStart(c: char) { ('a' <= c <= 'z') || ('A' <= c <= 'Z') || c == '_' }
  predicate IsIdentChar(c: char) { IsIdentStart(c) || IsDigit(c) }

  /** A name Python's `re` accepts for `(?P<name>...)`. */
  predicate IsIdentifier(n: string) {
    |n| > 0 && IsIdentStart(n[0]) && forall i :: 1 <= i < |n| ==> IsIdentChar(n[i])
  }

  function Names(segs: seq<Segment>): seq<string> {
    if segs == [] then []
    else (if segs[0].Hole? then [segs[0].name] else []) + Names(segs[1..])
  }

  function NameSet(segs: seq<Segment>): set<string> {
    if segs == [] then {}
    else (if segs[0].Hole? then {segs[0].name} else {}) + NameSet(segs[1..])
  }

  /** `re.compile` accepts the group names: identifiers, none repeated. */
  predicate ValidNames(segs: seq<Segment>) {
    var ns := Names(segs);
    (forall i :: 0 <= i < |ns| ==> IsIdentifier(ns[i])) &&
    (forall i, j :: 0 <= i < j < |ns| ==> ns[i] != ns[j])
  }

  predicate IsMeta(c: char) {
    c in ".^$*+?{}[]\\|()"
  }

  /** Literal text the regex reads as itself (every template of the repository is plain). */
  predicate PlainLiterals(segs: seq<Segment>) {
    forall i :: 0 <= i < |segs| && segs[i].Lit? ==>
      forall j :: 0 <= j < |segs[i].text| ==> !IsMeta(segs[i].text[j])
  }

  /** How far `.*` can reach: up to, not including, the first newline. */
  function LineLen(a: string): (n: nat)
    ensures n <= |a|
    ensures forall i :: 0 <= i < n ==> a[i] != '\n'
    ensures n < |a| ==> a[n] == '\n'
  {
    if '\n' in a then IndexOf(a, '\n') else |a|
  }

  /**
    `re.match` of the segments against `a`, anchored at the start only,
    with Python's backtracking order: a group first takes as much as it can
    and gives back one character at a time until the rest matches.
   */
  function Match(segs: seq<Segment>, a: string): (r: Option<map<string, string>>)
    ensures r.Some? ==> r.value.Keys == NameSet(segs)
    decreases |segs|, 1, 0
  {
    if segs == [] then Some(map[])
    else match segs[0]
      case Lit(p) => if p <= a then Match(segs[1..], a[|p|..]) else None
      case Hole(n) => Greedy(n, segs[1..], a, LineLen(a))
  }

  /** The group `n` tries `a[..k]`, then shorter prefixes; a success binds `n` and the names of the rest. */
  function Greedy(n: string, rest: seq<Segment>, a: string, k: nat): (r: Option<map<string, string>>)
    requires k <= |a|
    ensures r.Some? ==> r.value.Keys == {n} + NameSet(rest)
    decreases |rest| + 1, 0, k
  {
    match Match(rest, a[k..])
    case Some(m) => Some(m[n := a[..k]])
    case None => if k == 0 then None else Greedy(n, rest, a, k - 1)
  }

  /** What calling the wrapped handler gets: its keyword arguments, or the failure that stops it. */
  datatype Extracted = Kwargs(args: map<string, string>) | PatternError | NoMatch

  /**
    The `regexed` wrapper. A template whose group names `re` refuses raises;
    an address that does not match makes `re.match` return `None`, whose
    `.groupdict()` raises: in both cases the handler is not called. On a
    match the handler gets exactly one keyword argument per placeholder.
   */
  function Regexed(template: string, address: string): (r: Extracted)
    requires PlainLiterals(Parse(template))
    ensures r.PatternError? <==> !ValidNames(Parse(template))
    ensures r.NoMatch? <==> ValidNames(Parse(template)) && Match(Parse(template), address).None?
    ensures r.Kwargs? ==> r.args.Keys == NameSet(Parse(template))
  {
    var segs := Parse(template);
    if !ValidNames(segs) then PatternError
    else match Match(segs, address)
      case None => NoMatch
      case Some(m) => Kwargs(m)
  }

  /** A successful `Greedy` stopped at some `j <= k` where the rest matched. */
  lemma {:induction false} GreedyWitness(n: string, rest: seq<Segment>, a: string, k: nat) returns (j: nat)
    requires k <= |a|
    requires Greedy(n, rest, a, k).Some?
    ensures j <= k && Match(rest, a[j..]).Some?
    ensures Greedy(n, rest, a, k) == Some(Match(rest, a[j..]).value[n := a[..j]])
    decreases k
  {
    if Match(rest, a[k..]).Some? {
      j := k;
    } else {
      j := GreedyWitness(n, rest, a, k - 1);
    }
  }

  /** If the rest matches at some `j <= k`, the group search succeeds. */
  lemma {:induction false} GreedyFinds(n: string, rest: seq<Segment>, a: string, k: nat, j: nat)
    requires j <= k <= |a|
    requires Match(rest, a[j..]).Some?
    ensures Greedy(n, rest, a, k).Some?
    decreases k
  {
    if k > j && Match(rest, a[k..]).None? {
      GreedyFinds(n, rest, a, k - 1, j);
    }
  }

  /** The search gives the same answer when every longer candidate fails. */
  lemma {:induction false} GreedySkip(n: string, rest: seq<Segment>, a: string, k: nat, j: nat)
    requires j <= k <= |a|
    requires forall i :: j < i <= k ==> Match(rest, a[i..]).None?
    ensures Greedy(n, rest, a, k) == Greedy(n, rest, a, j)
    decreases k
  {
    if k > j {
      GreedySkip(n, rest, a, k - 1, j);
    }
  }

  /**
    `re.match` is anchored only at the start: text appended to an address
    that matches does not stop it from matching.
   */
  lemma {:induction false} MatchIgnoresTrailing(segs: seq<Segment>, a: string, t: string)
    requires Match(segs, a).Some?
    ensures Match(segs, a + t).Some?
  {
    if segs != [] {
      match segs[0]
      case Lit(p) =>
        assert (a + t)[|p|..] == a[|p|..] + t;
        assert p <= a + t;
        MatchIgnoresTrailing(segs[1..], a[|p|..], t);
      case Hole(n) =>
        var j := GreedyWitness(n, segs[1..], a, LineLen(a));
        MatchIgnoresTrailing(segs[1..], a[j..], t);
        assert (a + t)[j..] == a[j..] + t;
        var L := LineLen(a + t);
        assert forall i :: 0 <= i < |a| ==> (a + t)[i] == a[i];
        GreedyFinds(n, segs[1..], a + t, L, j);
    }
  }

  /**
    With one placeholder, `P + s + S` (neither `s` nor `S` holding a
    newline) binds the name to exactly `s`: no longer prefix leaves room
    for `S`.
   */
  lemma OnePlaceholder(p: string, n: string, s: string, suffix: string)
    requires '\n' !in s && '\n' !in suffix
    ensures Match([Lit(p), Hole(n), Lit(suffix)], p + s + suffix) == Some(map[n := s])
  {
    var segs := [Lit(p), Hole(n), Lit(suffix)];
    var a := s + suffix;
    assert (p + s + suffix)[|p|..] == a;
    assert segs[1..] == [Hole(n), Lit(suffix)];
    var rest := [Lit(suffix)];
    assert [Hole(n), Lit(suffix)][1..] == rest;
    var L := LineLen(a);
    assert forall i :: 0 <= i < |a| ==> a[i] != '\n' by {
      forall i | 0 <= i < |a| ensures a[i] != '\n' {
        if i < |s| { assert a[i] == s[i]; } else { assert a[i] == suffix[i - |s|]; }
      }
    }
    assert L == |a|;
    forall i | |s| < i <= L ensures Match(rest, a[i..]).None? {
      assert |a[i..]| < |suffix|;
    }
    GreedySkip(n, rest, a, L, |s|);
    assert a[|s|..] == suffix;
    assert Match(rest, a[|s|..]) == Some(map[]) by {
      assert rest[1..] == [];
      assert suffix[|suffix|..] == [];
    }
    assert a[..|s|] == s;
  }

  // ---------------------------------------------------------------------
  // Substituting placeholder values and matching them back

  function Count(c: char, s: string): nat {
    if s == [] then 0 else (if s[0] == c then 1 else 0) + Count(c, s[1..])
  }

  lemma {:induction false} CountAppend(c: char, x: string, y: string)
    ensures Count(c, x + y) == Count(c, x) + Count(c, y)
  {
    if x != [] {
      assert (x + y)[1..] == x[1..] + y;
      CountAppend(c, x[1..], y);
    } else {
      assert x + y == y;
    }
  }

  function HoleCount(segs: seq<Segment>): nat {
    if segs == [] then 0 else (if segs[0].Hole? then 1 else 0) + HoleCount(segs[1..])
  }

  /** Slashes the literal text of the segments demands. */
  function LitSlashes(segs: seq<Segment>): nat {
    if segs == [] then 0 else (if segs[0].Lit? then Count('/', segs[0].text) else 0) + LitSlashes(segs[1..])
  }

  /** The address obtained by substituting `vals` for the placeholders, in order. */
  function Fill(segs: seq<Segment>, vals: seq<string>): string
    requires |vals| == HoleCount(segs)
  {
    if segs == [] then ""
    else match segs[0]
      case Lit(p) => p + Fill(segs[1..], vals)
      case Hole(_) => vals[0] + Fill(segs[1..], vals[1..])
  }

  /** The keyword arguments those values should produce. */
  function Bind(segs: seq<Segment>, vals: seq<string>): map<string, string>
    requires |vals| == HoleCount(segs)
  {
    if segs == [] then map[]
    else match segs[0]
      case Lit(_) => Bind(segs[1..], vals)
      case Hole(n) => Bind(segs[1..], vals[1..])[n := vals[0]]
  }

  /**
    Every placeholder ends the template or is followed by literal text that
    starts with `/` (true of every route in the repository).
   */
  predicate Routable(segs: seq<Segment>) {
    forall i :: 0 <= i < |segs| && segs[i].Hole? ==>
      i + 1 == |segs| || (segs[i + 1].Lit? && |segs[i + 1].text| > 0 && segs[i + 1].text[0] == '/')
  }

  /** A segment value a topic level can carry: no `/`, no newline. */
  predicate PlainValue(v: string) { '/' !in v && '\n' !in v }

  /** A match needs at least the slashes the literals spell. */
  lemma {:induction false} MatchNeedsSlashes(segs: seq<Segment>, a: string)
    requires Match(segs, a).Some?
    ensures Count('/', a) >= LitSlashes(segs)
  {
    if segs != [] {
      match segs[0]
      case Lit(p) =>
        MatchNeedsSlashes(segs[1..], a[|p|..]);
        assert a == p + a[|p|..];
        CountAppend('/', p, a[|p|..]);
      case Hole(n) =>
        var j := GreedyWitness(n, segs[1..], a, LineLen(a));
        MatchNeedsSlashes(segs[1..], a[j..]);
        assert a == a[..j] + a[j..];
        CountAppend('/', a[..j], a[j..]);
    }
  }

  /** Substituted plain values add no slashes of their own. */
  lemma {:induction false} FillSlashes(segs: seq<Segment>, vals: seq<string>)
    requires |vals| == HoleCount(segs)
    requires forall i :: 0 <= i < |vals| ==> PlainValue(vals[i])
    ensures Count('/', Fill(segs, vals)) == LitSlashes(segs)
  {
    if segs != [] {
      match segs[0]
      case Lit(p) =>
        FillSlashes(segs[1..], vals);
        CountAppend('/', p, Fill(segs[1..], vals));
      case Hole(_) =>
        FillSlashes(segs[1..], vals[1..]);
        CountAppend('/', vals[0], Fill(segs[1..], vals[1..]));
        NoSlashCount(vals[0]);
    }
  }

  lemma {:induction false} NoSlashCount(v: string)
    requires '/' !in v
    ensures Count('/', v) == 0
  {
    if v != [] {
      assert '/' !in v[1..];
      NoSlashCount(v[1..]);
    }
  }

  /** Once the rest of the address starts with `/`, no longer group can leave the rest enough slashes. */
  lemma LongerGroupFails(rest: seq<Segment>, a: string, j: nat, i: nat)
    requires j < i <= |a|
    requires a[j] == '/'
    requires Count('/', a[j..]) == LitSlashes(rest)
    ensures Match(rest, a[i..]).None?
  {
    var pre := a[j..i];
    assert a[j..] == pre + a[i..];
    CountAppend('/', pre, a[i..]);
    assert pre == [a[j]] + a[j + 1..i];
    CountAppend('/', [a[j]], a[j + 1..i]);
    assert Count('/', a[i..]) < LitSlashes(rest);
    if Match(rest, a[i..]).Some? {
      MatchNeedsSlashes(rest, a[i..]);
    }
  }

  /** The group for a plain value `v` followed by a rest that matches binds exactly `v`. */
  lemma HoleBindsValue(n: string, rest: seq<Segment>, v: string, b: string, m: map<string, string>)
    requires PlainValue(v)
    requires Match(rest, b) == Some(m)
    requires rest == [] ==> b == []
    requires rest != [] ==> |b| > 0 && b[0] == '/' && Count('/', b) == LitSlashes(rest)
    ensures Greedy(n, rest, v + b, LineLen(v + b)) == Some(m[n := v])
  {
    var a := v + b;
    var L := LineLen(a);
    assert forall i :: 0 <= i < |v| ==> a[i] == v[i];
    assert |v| <= L;
    assert a[|v|..] == b;
    assert a[..|v|] == v;
    if rest == [] {
      assert a == v;
      assert L == |v|;
    } else {
      forall i | |v| < i <= L ensures Match(rest, a[i..]).None? {
        LongerGroupFails(rest, a, |v|, i);
      }
      GreedySkip(n, rest, a, L, |v|);
    }
  }

  /**
    For a routable template, substituting plain values for the
    placeholders gives an address whose match extracts exactly those
    values, despite the greedy groups.
   */
  lemma {:induction false} FillMatches(segs: seq<Segment>, vals: seq<string>)
    requires Routable(segs)
    requires |vals| == HoleCount(segs)
    requires forall i :: 0 <= i < |vals| ==> PlainValue(vals[i])
    ensures Match(segs, Fill(segs, vals)) == Some(Bind(segs, vals))
  {
    if segs != [] {
      var rest := segs[1..];
      assert Routable(rest) by {
        forall i | 0 <= i < |rest| && rest[i].Hole?
          ensures i + 1 == |rest| || (rest[i + 1].Lit? && |rest[i + 1].text| > 0 && rest[i + 1].text[0] == '/')
        {
          assert segs[i + 1] == rest[i];
        }
      }
      match segs[0]
      case Lit(p) =>
        var a := Fill(segs, vals);
        assert a[|p|..] == Fill(rest, vals);
        FillMatches(rest, vals);
      case Hole(n) =>
        var tail := vals[1..];
        assert forall i :: 0 <= i < |tail| ==> PlainValue(tail[i]) by {
          forall i | 0 <= i < |tail| ensures PlainValue(tail[i]) { assert tail[i] == vals[i + 1]; }
        }
        var b := Fill(rest, tail);
        FillMatches(rest, tail);
        if rest != [] {
          assert rest[0].Lit? && |rest[0].text| > 0 && rest[0].text[0] == '/';
          assert b == rest[0].text + Fill(rest[1..], tail);
          FillSlashes(rest, tail);
        }
        HoleBindsValue(n, rest, vals[0], b, Bind(rest, tail));
    }
  }

  // ---------------------------------------------------------------------
  // Templates with one placeholder

  lemma {:induction false} CloseBraceAt(n: string, rest: string)
    requires '}' !in n && '\n' !in n
    ensures CloseBrace(n + "}" + rest) == Some(|n|)
  {
    if n != [] {
      assert (n + "}" + rest)[1..] == n[1..] + "}" + rest;
      CloseBraceAt(n[1..], rest);
    }
  }

  lemma ParseHole(n: string, rest: string)
    requires '}' !in n && '\n' !in n
    ensures Parse("{" + n + "}" + rest) == [Hole(n)] + Parse(rest)
  {
    var t := "{" + n + "}" + rest;
    assert t[1..] == n + "}" + rest;
    CloseBraceAt(n, rest);
    assert t[1..|n| + 1] == n;
    assert t[|n| + 2..] == rest;
  }

  lemma {:induction false} ParseLiteral(p: string, rest: string)
    requires p != [] && '{' !in p
    requires Parse(rest) == [] || Parse(rest)[0].Hole?
    ensures Parse(p + rest) == [Lit(p)] + Parse(rest)
  {
    var t := p + rest;
    assert t[0] == p[0] && t[1..] == p[1..] + rest;
    if |p| == 1 {
      assert p[1..] + rest == rest;
      assert [p[0]] == p;
    } else {
      ParseLiteral(p[1..], rest);
      assert [p[0]] + p[1..] == p;
    }
  }

  /** A template `P{n}S` reads as literal `P`, placeholder `n`, literal `S`. */
  lemma OneHoleTemplate(t: string, p: string, n: string, suffix: string)
    requires p != [] && suffix != [] && '{' !in p && '{' !in suffix
    requires '}' !in n && '\n' !in n
    requires t == p + "{" + n + "}" + suffix
    ensures Parse(t) == [Lit(p), Hole(n), Lit(suffix)]
  {
    var rest := "{" + n + "}" + suffix;
    ParseLiteral(suffix, "");
    assert suffix + "" == suffix;
    assert Parse(suffix) == [Lit(suffix)];
    ParseHole(n, suffix);
    assert Parse(rest) == [Hole(n), Lit(suffix)];
    ParseLiteral(p, rest);
    TemplateSplit(p, n, suffix);
  }

  lemma TemplateSplit(p: string, n: string, suffix: string)
    ensures p + "{" + n + "}" + suffix == p + ("{" + n + "}" + suffix)
  {
  }

  /** A route with one placeholder listens on the topic with `*` in its place. */
  lemma OneHoleTopic(p: string, n: string, suffix: string)
    requires p != [] && suffix != []
    requires forall j :: 0 <= j < |p| ==> !IsMeta(p[j])
    requires forall j :: 0 <= j < |suffix| ==> !IsMeta(suffix[j])
    requires '}' !in n && '\n' !in n
    ensures var t := p + "{" + n + "}" + suffix;
      Parse(t) == [Lit(p), Hole(n), Lit(suffix)]
      && PlainLiterals(Parse(t))
      && RegexToTopic(t) == p + "*" + suffix
  {
    var t := p + "{" + n + "}" + suffix;
    assert '{' !in p by {
      forall j | 0 <= j < |p| ensures p[j] != '{' { assert !IsMeta(p[j]); }
    }
    assert '{' !in suffix by {
      forall j | 0 <= j < |suffix| ensures suffix[j] != '{' { assert !IsMeta(suffix[j]); }
    }
    OneHoleTemplate(t, p, n, suffix);
    RegexToTopicIsWildcard(t);
    OneHoleWildcard(p, n, suffix);
    OneHolePlain(p, n, suffix);
  }

  lemma OneHoleWildcard(p: string, n: string, suffix: string)
    ensures Wildcard([Lit(p), Hole(n), Lit(suffix)]) == p + "*" + suffix
  {
    var segs := [Lit(p), Hole(n), Lit(suffix)];
    assert segs[1..] == [Hole(n), Lit(suffix)];
    assert segs[2..] == [Lit(suffix)];
    assert Wildcard(segs[2..]) == suffix + "";
  }

  lemma OneHolePlain(p: string, n: string, suffix: string)
    requires forall j :: 0 <= j < |p| ==> !IsMeta(p[j])
    requires forall j :: 0 <= j < |suffix| ==> !IsMeta(suffix[j])
    ensures PlainLiterals([Lit(p), Hole(n), Lit(suffix)])
  {
  }

  /**
    A route with one placeholder: the dispatcher topic has `*` in its place,
    and an address that puts a newline-free value there hands the handler
    exactly that value under the placeholder's name.
   */
  lemma OneHoleRoute(p: string, n: string, s: string, suffix: string)
    requires p != [] && suffix != []
    requires forall j :: 0 <= j < |p| ==> !IsMeta(p[j])
    requires forall j :: 0 <= j < |suffix| ==> !IsMeta(suffix[j])
    requires IsIdentifier(n) && '}' !in n && '\n' !in n
    requires '\n' !in s && '\n' !in suffix
    ensures var t := p + "{" + n + "}" + suffix;
      PlainLiterals(Parse(t))
      && RegexToTopic(t) == p + "*" + suffix
      && Regexed(t, p + s + suffix) == Kwargs(map[n := s])
  {
    OneHoleTopic(p, n, suffix);
    var segs := [Lit(p), Hole(n), Lit(suffix)];
    assert Names(segs) == [n] by {
      assert segs[1..] == [Hole(n), Lit(suffix)];
      assert segs[2..] == [Lit(suffix)];
      assert segs[2..][1..] == [];
      assert Names(segs[2..]) == [];
    }
    OnePlaceholder(p, n, s, suffix);
  }

  // ---------------------------------------------------------------------
  // The module object: base topic and route table

  /**
    `_topic_reg`: a sub-topic is given a leading `/` when it lacks one and
    is put after the base topic. An empty sub-topic makes `topic[0]` raise
    `IndexError` (here `None`).
   */
  function TopicReg(base: string, topic: string): (r: Option<string>)
    ensures r.Some? <==> topic != []
    ensures r.Some? ==> base <= r.value && |r.value| > |base| && r.value[|base|] == '/'
    ensures r.Some? ==> EndsWith(r.value, topic) && |r.value| <= |base| + |topic| + 1
    ensures r.Some? ==> r.value == base + "/" + (if topic[0] == '/' then topic[1..] else topic)
  {
    if topic == [] then None
    else if topic[0] == '/' then Some(base + topic)
    else Some(base + "/" + topic)
  }

  /** A sub-topic registers the same route with or without its leading slash. */
  lemma TopicRegSlashOptional(base: string, topic: string)
    requires topic != [] && topic[0] != '/'
    ensures TopicReg(base, "/" + topic) == TopicReg(base, topic)
  {
    assert base + ("/" + topic) == base + "/" + topic;
  }

  /**
    The constructor's base topic: one trailing `/` is dropped. An empty base
    makes `base_topic[-1]` raise `IndexError` (here `None`).
   */
  function NormaliseBase(base: string): (r: Option<string>)
    ensures r.Some? <==> base != []
    ensures r.Some? ==> r.value <= base && |base| - |r.value| <= 1
    ensures r.Some? ==> (r.value == base <==> base[|base| - 1] != '/')
  {
    if base == [] then None
    else if base[|base| - 1] == '/' then Some(base[..|base| - 1])
    else Some(base)
  }

  /** Number of leading non-empty sub-topics: `routes()` stops at the first one that raises. */
  function Leading(subs: seq<string>): (k: nat)
    ensures k <= |subs|
    ensures forall i :: 0 <= i < k ==> subs[i] != []
    ensures k < |subs| ==> subs[k] == []
  {
    if subs == [] || subs[0] == [] then 0 else 1 + Leading(subs[1..])
  }

  /** Full templates of the given non-empty sub-topics. */
  function Templates(base: string, subs: seq<string>): (ts: seq<string>)
    requires forall i :: 0 <= i < |subs| ==> subs[i] != []
    ensures |ts| == |subs|
  {
    if subs == [] then [] else [TopicReg(base, subs[0]).value] + Templates(base, subs[1..])
  }

  /** The `dispatcher.map` calls for the given templates: wildcard topic and the template behind it. */
  function Registrations(ts: seq<string>): (r: seq<(string, string)>)
    ensures |r| == |ts|
    ensures forall i :: 0 <= i < |ts| ==> r[i] == (RegexToTopic(ts[i]), ts[i])
  {
    if ts == [] then [] else [(RegexToTopic(ts[0]), ts[0])] + Registrations(ts[1..])
  }

  datatype RouteOutcome = Added | EmptySubTopic | NoDispatcher

  class OscModule {
    var baseTopic: string
    var hasDispatcher: bool
    /** `_routes`: the full templates, in registration order. */
    var routes: seq<string>
    /** The dispatcher's `map(topic, handler)` calls, as (topic, template) pairs. */
    ghost var mapped: seq<(string, string)>

    constructor (base: string)
      requires base != []
      ensures Some(baseTopic) == NormaliseBase(base)
      ensures !hasDispatcher && routes == [] && mapped == []
    {
      baseTopic := NormaliseBase(base).value;
      hasDispatcher := false;
      routes := [];
      mapped := [];
    }

    /** `OscModule(base_topic)`, including the `IndexError` an empty base raises. */
    static method Create(base: string) returns (m: Option<OscModule>)
      ensures m.Some? <==> base != []
      ensures m.Some? ==> fresh(m.value) && Some(m.value.baseTopic) == NormaliseBase(base)
      ensures m.Some? ==> !m.value.hasDispatcher && m.value.routes == [] && m.value.mapped == []
    {
      if base == [] {
        m := None;
      } else {
        var o := new OscModule(base);
        m := Some(o);
      }
    }

    /**
      `add_route`: one full template appended to `_routes` and one wildcard
      topic mapped. An empty sub-topic, or a module not yet attached to a
      dispatcher, raises before either happens.
     */
    method AddRoute(sub: string) returns (outcome: RouteOutcome)
      modifies this
      ensures baseTopic == old(baseTopic) && hasDispatcher == old(hasDispatcher)
      ensures outcome == (if sub == [] then EmptySubTopic else if !hasDispatcher then NoDispatcher else Added)
      ensures outcome.Added? ==>
        var t := TopicReg(baseTopic, sub).value;
        routes == old(routes) + [t] && mapped == old(mapped) + [(RegexToTopic(t), t)]
      ensures !outcome.Added? ==> routes == old(routes) && mapped == old(mapped)
    {
      var full := TopicReg(baseTopic, sub);
      if full.None? {
        return EmptySubTopic;
      }
      if !hasDispatcher {
        return NoDispatcher;
      }
      var topic := RegexToTopic(full.value);
      mapped := mapped + [(topic, full.value)];
      routes := routes + [full.value];
      outcome := Added;
    }

    /**
      `__call__(dispatcher)`: attach, then register the module's sub-topics
      in order; an empty one raises and ends the registration there.
     */
    method Attach(subs: seq<string>) returns (outcome: RouteOutcome)
      modifies this
      ensures hasDispatcher && baseTopic == old(baseTopic)
      ensures outcome == (if Leading(subs) == |subs| then Added else EmptySubTopic)
      ensures routes == old(routes) + Templates(baseTopic, subs[..Leading(subs)])
      ensures mapped == old(mapped) + Registrations(Templates(baseTopic, subs[..Leading(subs)]))
    {
      hasDispatcher := true;
      ghost var routes0, mapped0, base := routes, mapped, baseTopic;
      var i := 0;
      while i < |subs| && subs[i] != []
        invariant i <= |subs|
        invariant forall j :: 0 <= j < i ==> subs[j] != []
        invariant hasDispatcher && baseTopic == base
        invariant routes == routes0 + Templates(base, subs[..i])
        invariant mapped == mapped0 + Registrations(Templates(base, subs[..i]))
      {
        var r := AddRoute(subs[i]);
        AttachStep(base, subs, i, routes0, mapped0);
        i := i + 1;
      }
      LeadingAt(subs, i);
      assert subs[..Leading(subs)] == subs[..i];
      outcome := if i == |subs| then Added else EmptySubTopic;
    }
  }

  /** One more registered sub-topic adds its template and its registration at the end. */
  lemma AttachStep(base: string, subs: seq<string>, i: nat, routes0: seq<string>, mapped0: seq<(string, string)>)
    requires i < |subs| && forall j :: 0 <= j <= i ==> subs[j] != []
    ensures var ts := Templates(base, subs[..i]);
      var t := TopicReg(base, subs[i]).value;
      routes0 + Templates(base, subs[..i + 1]) == routes0 + ts + [t]
      && mapped0 + Registrations(Templates(base, subs[..i + 1])) == mapped0 + Registrations(ts) + [(RegexToTopic(t), t)]
  {
    var ts := Templates(base, subs[..i]);
    var t := TopicReg(base, subs[i]).value;
    TemplatesAppend(base, subs[..i], subs[i]);
    assert subs[..i + 1] == subs[..i] + [subs[i]];
    RegistrationsAppend(ts, t);
    assert routes0 + (ts + [t]) == routes0 + ts + [t];
    assert mapped0 + (Registrations(ts) + [(RegexToTopic(t), t)]) == mapped0 + Registrations(ts) + [(RegexToTopic(t), t)];
  }

  /** The first `i` sub-topics are not empty and the list ends or has an empty one at `i`. */
  lemma {:induction false} LeadingAt(subs: seq<string>, i: nat)
    requires i <= |subs| && (i == |subs| || subs[i] == [])
    requires forall j :: 0 <= j < i ==> subs[j] != []
    ensures Leading(subs) == i
  {
    if i > 0 {
      assert subs[0] != [];
      LeadingAt(subs[1..], i - 1);
    }
  }

  lemma {:induction false} TemplatesAppend(base: string, subs: seq<string>, s: string)
    requires forall i :: 0 <= i < |subs| ==> subs[i] != []
    requires s != []
    ensures Templates(base, subs + [s]) == Templates(base, subs) + [TopicReg(base, s).value]
  {
    var l := subs + [s];
    if subs != [] {
      assert l[1..] == subs[1..] + [s];
      TemplatesAppend(base, subs[1..], s);
    }
  }

  lemma RegistrationsAppend(ts: seq<string>, t: string)
    ensures Registrations(ts + [t]) == Registrations(ts) + [(RegexToTopic(t), t)]
  {
  }
}
