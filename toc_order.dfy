/**
  Python's `sorted` on the variable names of a table of contents, and the
  `{group: sorted(names)}` comprehension both `_get_toc` methods build.
 */
module TocOrder {
  import opened Registry

  /** Python's `a <= b` on strings: code point by code point, a proper prefix first. */
  predicate StrLe(a: string, b: string) {
    a == [] || (b != [] && (a[0] < b[0] || (a[0] == b[0] && StrLe(a[1..], b[1..]))))
  }

  lemma {:induction false} StrLeRefl(a: string)
    ensures StrLe(a, a)
  {
    if a != [] {
      StrLeRefl(a[1..]);
    }
  }

  lemma {:induction false} StrLeTotal(a: string, b: string)
    ensures StrLe(a, b) || StrLe(b, a)
  {
    if a != [] && b != [] && a[0] == b[0] {
      StrLeTotal(a[1..], b[1..]);
    }
  }

  lemma {:induction false} StrLeTrans(a: string, b: string, c: string)
    requires StrLe(a, b) && StrLe(b, c)
    ensures StrLe(a, c)
  {
    if a != [] && b != [] && c != [] && a[0] == b[0] && b[0] == c[0] {
      StrLeTrans(a[1..], b[1..], c[1..]);
    }
  }

  lemma {:induction false} StrLeAntisym(a: string, b: string)
    requires StrLe(a, b) && StrLe(b, a)
    ensures a == b
  {
    if a != [] && b != [] {
      StrLeAntisym(a[1..], b[1..]);
      assert a == [a[0]] + a[1..] && b == [b[0]] + b[1..];
    }
  }

  predicate Ascending(s: seq<string>) {
    forall i, j :: 0 <= i < j < |s| ==> StrLe(s[i], s[j])
  }

  /** Puts `x` into an ascending list. */
  function Insert(x: string, s: seq<string>): (r: seq<string>)
    requires Ascending(s)
    ensures Ascending(r)
    ensures multiset(r) == multiset(s) + multiset{x}
  {
    if s == [] then [x]
    else if StrLe(x, s[0]) then
      assert forall j :: 0 <= j < |s| ==> StrLe(x, s[j]) by {
        forall j | 0 <= j < |s|
          ensures StrLe(x, s[j])
        {
          if j > 0 {
            StrLeTrans(x, s[0], s[j]);
          }
        }
      }
      assert s == [s[0]] + s[1..];
      [x] + s
    else
      StrLeTotal(x, s[0]);
      var rest := Insert(x, s[1..]);
      assert s == [s[0]] + s[1..];
      assert forall j :: 0 <= j < |rest| ==> StrLe(s[0], rest[j]) by {
        forall j | 0 <= j < |rest|
          ensures StrLe(s[0], rest[j])
        {
          assert rest[j] in multiset(rest);
          if rest[j] != x {
            assert rest[j] in multiset(s[1..]);
            var k :| 0 <= k < |s[1..]| && s[1..][k] == rest[j];
            assert s[k + 1] == rest[j];
          }
        }
      }
      [s[0]] + rest
  }

  /** `sorted(names)`: insertion sort. */
  function Sort(s: seq<string>): (r: seq<string>)
    ensures Ascending(r)
    ensures multiset(r) == multiset(s)
  {
    if s == [] then []
    else
      assert s == [s[0]] + s[1..];
      Insert(s[0], Sort(s[1..]))
  }

  /**
    An ascending list is determined by its elements: whatever the order of
    the names the radio library reports, `sorted` gives the same list.
   */
  lemma {:induction false} AscendingUnique(a: seq<string>, b: seq<string>)
    requires Ascending(a) && Ascending(b) && multiset(a) == multiset(b)
    ensures a == b
  {
    if a != [] {
      assert |b| == |a| by {
        assert |multiset(a)| == |multiset(b)|;
      }
      HeadIsLeast(b, a[0]);
      HeadIsLeast(a, b[0]);
      StrLeAntisym(a[0], b[0]);
      TailMultiset(a);
      TailMultiset(b);
      AscendingTail(a);
      AscendingTail(b);
      AscendingUnique(a[1..], b[1..]);
      assert a == [a[0]] + a[1..] && b == [b[0]] + b[1..];
    }
  }

  /** The head of an ascending list is at most each of its elements. */
  lemma HeadIsLeast(s: seq<string>, x: string)
    requires Ascending(s) && x in multiset(s)
    ensures s != [] && StrLe(s[0], x)
  {
    var i :| 0 <= i < |s| && s[i] == x;
    if i == 0 {
      StrLeRefl(x);
    }
  }

  lemma TailMultiset(s: seq<string>)
    requires s != []
    ensures multiset(s[1..]) == multiset(s) - multiset{s[0]}
  {
    assert s == [s[0]] + s[1..];
  }

  lemma AscendingTail(s: seq<string>)
    requires s != [] && Ascending(s)
    ensures Ascending(s[1..])
  {
    forall i, j | 0 <= i < j < |s[1..]|
      ensures StrLe(s[1..][i], s[1..][j])
    {
      assert s[1..][i] == s[i + 1] && s[1..][j] == s[j + 1];
    }
  }

  /** Sorting does not depend on the order of its input, and sorting twice changes nothing. */
  lemma SortCanonical(s: seq<string>, t: seq<string>)
    requires multiset(s) == multiset(t)
    ensures Sort(s) == Sort(t)
    ensures Sort(Sort(s)) == Sort(s)
  {
    AscendingUnique(Sort(s), Sort(t));
    AscendingUnique(Sort(Sort(s)), Sort(s));
  }

  /** `{key: sorted(value) for key, value in toc}`: the groups in their order, each with its names sorted. */
  function SortedToc(t: Toc): (r: Toc)
    ensures |r| == |t|
    ensures Groups(r) == Groups(t)
  {
    if t == [] then [] else [TocGroup(t[0].group, Sort(t[0].names))] + SortedToc(t[1..])
  }

  /** Entry `i` of the sorted table is entry `i` of the table with its names sorted. */
  lemma {:induction false} SortedTocEntry(t: Toc, i: nat)
    requires i < |t|
    ensures SortedToc(t)[i] == TocGroup(t[i].group, Sort(t[i].names))
  {
    if i > 0 {
      SortedTocEntry(t[1..], i - 1);
    }
  }

  /** Looking a group up in the sorted table gives the sorted names of that group. */
  lemma {:induction false} SortedTocLookup(t: Toc, g: string)
    requires g in Groups(t)
    ensures g in Groups(SortedToc(t))
    ensures TocNames(SortedToc(t), g) == Sort(TocNames(t, g))
  {
    SortedTocEntry(t, 0);
    if t[0].group != g {
      assert Groups(t) == [t[0].group] + Groups(t[1..]);
      assert SortedToc(t)[1..] == SortedToc(t[1..]);
      SortedTocLookup(t[1..], g);
    }
  }
}
