/** The ordering of the weekly per-day rows (src/components/DailyStats.jsx:199-201):
    `Object.entries(daily_totals).sort((a, b) => a[0].localeCompare(b[0]))`.
    `localeCompare` is modelled as code-point lexicographic order, which is what it computes
    for keys of the form `YYYY-MM-DD`; the library sort is modelled by a stable insertion
    sort, and what the view relies on is proved about it: the rows are sorted, are a
    permutation of the entries, and do not depend on the order the entries arrive in. */
module DateOrder {
  import opened Wire

  /** `a` sorts no later than `b`. */
  predicate LexLe(a: string, b: string)
    decreases |a|
  {
    a == [] || (b != [] && (a[0] < b[0] || (a[0] == b[0] && LexLe(a[1..], b[1..]))))
  }

  lemma {:induction false} LexLeTotal(a: string, b: string)
    ensures LexLe(a, b) || LexLe(b, a)
    decreases |a|
  {
    if a != [] && b != [] && a[0] == b[0] {
      LexLeTotal(a[1..], b[1..]);
    }
  }

  lemma {:induction false} LexLeAntisymmetric(a: string, b: string)
    requires LexLe(a, b) && LexLe(b, a)
    ensures a == b
    decreases |a|
  {
    if a != [] && b != [] {
      LexLeAntisymmetric(a[1..], b[1..]);
      assert a == [a[0]] + a[1..] && b == [b[0]] + b[1..];
    }
  }

  lemma {:induction false} LexLeTransitive(a: string, b: string, c: string)
    requires LexLe(a, b) && LexLe(b, c)
    ensures LexLe(a, c)
    decreases |a|
  {
    if a != [] && b != [] && c != [] && a[0] == b[0] && b[0] == c[0] {
      LexLeTransitive(a[1..], b[1..], c[1..]);
    }
  }

  predicate SortedByKey(s: seq<Entry>) {
    forall i, j :: 0 <= i < j < |s| ==> LexLe(s[i].key, s[j].key)
  }

  /** The keys of a JSON object's entries are pairwise different. */
  predicate DistinctKeys(s: seq<Entry>) {
    forall i, j :: 0 <= i < j < |s| ==> s[i].key != s[j].key
  }

  predicate StrictlySortedByKey(s: seq<Entry>) {
    forall i, j :: 0 <= i < j < |s| ==> LexLe(s[i].key, s[j].key) && s[i].key != s[j].key
  }

  lemma PrependSorted(x: Entry, t: seq<Entry>)
    requires SortedByKey(t)
    requires forall y :: y in t ==> LexLe(x.key, y.key)
    ensures SortedByKey([x] + t)
  {
    forall i, j | 0 <= i < j < |[x] + t|
      ensures LexLe(([x] + t)[i].key, ([x] + t)[j].key)
    {
      assert ([x] + t)[j] == t[j - 1];
      if i > 0 {
        assert ([x] + t)[i] == t[i - 1];
      }
    }
  }

  lemma BelowHeadBelowAll(e: Entry, s: seq<Entry>)
    requires SortedByKey(s) && s != [] && LexLe(e.key, s[0].key)
    ensures forall y :: y in s ==> LexLe(e.key, y.key)
  {
    forall y | y in s
      ensures LexLe(e.key, y.key)
    {
      var j :| 0 <= j < |s| && s[j] == y;
      if j > 0 {
        LexLeTransitive(e.key, s[0].key, y.key);
      }
    }
  }

  /** Inserts `e` before the first entry it does not sort after, keeping a sorted list
      sorted; `e` lands before entries with an equal key (stability). */
  function Insert(e: Entry, s: seq<Entry>): (r: seq<Entry>)
    requires SortedByKey(s)
    ensures SortedByKey(r)
    ensures multiset(r) == multiset(s) + multiset{e}
    decreases |s|
  {
    if s == [] then [e]
    else if LexLe(e.key, s[0].key) then
      BelowHeadBelowAll(e, s);
      PrependSorted(e, s);
      [e] + s
    else
      var t := Insert(e, s[1..]);
      LexLeTotal(e.key, s[0].key);
      assert forall y :: y in t ==> LexLe(s[0].key, y.key) by {
        forall y | y in t
          ensures LexLe(s[0].key, y.key)
        {
          assert y in multiset(t);
          if y != e {
            assert y in s[1..];
          }
        }
      }
      PrependSorted(s[0], t);
      assert s == [s[0]] + s[1..];
      [s[0]] + t
  }

  /** The per-day rows in ascending key order: a sorted permutation of the entries. */
  function SortByDate(es: seq<Entry>): (r: seq<Entry>)
    ensures SortedByKey(r)
    ensures multiset(r) == multiset(es)
    decreases |es|
  {
    if es == [] then []
    else
      assert es == [es[0]] + es[1..];
      Insert(es[0], SortByDate(es[1..]))
  }

  lemma {:induction false} InsertKeepsDistinct(e: Entry, s: seq<Entry>)
    requires SortedByKey(s) && DistinctKeys(s)
    requires forall x :: x in s ==> x.key != e.key
    ensures DistinctKeys(Insert(e, s))
    decreases |s|
  {
    if s != [] && !LexLe(e.key, s[0].key) {
      var t := Insert(e, s[1..]);
      InsertKeepsDistinct(e, s[1..]);
      forall y | y in t
        ensures y.key != s[0].key
      {
        assert y in multiset(t);
        if y != e {
          assert y in s[1..];
        }
      }
      var r := [s[0]] + t;
      forall i, j | 0 <= i < j < |r|
        ensures r[i].key != r[j].key
      {
        assert r[j] == t[j - 1];
        if i > 0 {
          assert r[i] == t[i - 1];
        }
      }
    }
  }

  lemma {:induction false} SortKeepsDistinct(es: seq<Entry>)
    requires DistinctKeys(es)
    ensures DistinctKeys(SortByDate(es))
    decreases |es|
  {
    if es != [] {
      var rest := SortByDate(es[1..]);
      SortKeepsDistinct(es[1..]);
      forall x | x in rest
        ensures x.key != es[0].key
      {
        assert x in multiset(rest);
        assert x in es[1..];
      }
      InsertKeepsDistinct(es[0], rest);
    }
  }

  /** Two strictly sorted non-empty lists with the same entries start alike. */
  lemma SameHead(s: seq<Entry>, t: seq<Entry>)
    requires StrictlySortedByKey(s) && StrictlySortedByKey(t)
    requires multiset(s) == multiset(t) && s != []
    ensures t != [] && s[0] == t[0]
  {
    assert s[0] in multiset(t);
    var j :| 0 <= j < |t| && t[j] == s[0];
    assert t[0] in multiset(s);
    var i :| 0 <= i < |s| && s[i] == t[0];
    if j != 0 {
      assert LexLe(t[0].key, s[0].key) && t[0].key != s[0].key;
      assert i != 0 && LexLe(s[0].key, t[0].key);
      LexLeAntisymmetric(s[0].key, t[0].key);
    }
  }

  lemma SameTail(s: seq<Entry>, t: seq<Entry>)
    requires multiset(s) == multiset(t) && s != [] && t != [] && s[0] == t[0]
    ensures multiset(s[1..]) == multiset(t[1..])
  {
    assert s == [s[0]] + s[1..] && t == [t[0]] + t[1..];
    assert multiset(s) == multiset{s[0]} + multiset(s[1..]);
    assert multiset(t) == multiset{t[0]} + multiset(t[1..]);
    assert multiset(s[1..]) == multiset(s) - multiset{s[0]};
    assert multiset(t[1..]) == multiset(t) - multiset{t[0]};
  }

  /** Two strictly sorted lists with the same entries are the same list. */
  lemma {:induction false} StrictlySortedUnique(s: seq<Entry>, t: seq<Entry>)
    requires StrictlySortedByKey(s) && StrictlySortedByKey(t)
    requires multiset(s) == multiset(t)
    ensures s == t
    decreases |s|
  {
    if s == [] {
      assert |multiset(t)| == 0;
    } else {
      SameHead(s, t);
      SameTail(s, t);
      StrictlySortedUnique(s[1..], t[1..]);
      assert s == [s[0]] + s[1..] && t == [t[0]] + t[1..];
    }
  }

  /** With distinct keys the rows are strictly ascending. */
  lemma SortStrictlyAscending(es: seq<Entry>)
    requires DistinctKeys(es)
    ensures StrictlySortedByKey(SortByDate(es))
  {
    SortKeepsDistinct(es);
  }

  /** The rows do not depend on the order in which the object's entries arrive: any two
      listings of the same entries give the same rows. */
  lemma SortIgnoresInputOrder(a: seq<Entry>, b: seq<Entry>)
    requires DistinctKeys(a) && DistinctKeys(b)
    requires multiset(a) == multiset(b)
    ensures SortByDate(a) == SortByDate(b)
  {
    SortStrictlyAscending(a);
    SortStrictlyAscending(b);
    StrictlySortedUnique(SortByDate(a), SortByDate(b));
  }

  lemma {:induction false} LexLeCommonPrefix(p: string, a: string, b: string)
    requires LexLe(a, b)
    ensures LexLe(p + a, p + b)
    decreases |p|
  {
    if p == [] {
      assert p + a == a && p + b == b;
    } else {
      LexLeCommonPrefix(p[1..], a, b);
      assert (p + a)[1..] == p[1..] + a && (p + b)[1..] == p[1..] + b;
      assert (p + a)[0] == p[0] == (p + b)[0];
    }
  }

  /** Three entries arriving last-first-middle come out in key order. */
  lemma ThreeInOrder(e1: Entry, e2: Entry, e3: Entry)
    requires LexLe(e1.key, e2.key) && LexLe(e2.key, e3.key)
    requires e1.key != e2.key && e2.key != e3.key && e1.key != e3.key
    ensures SortByDate([e3, e1, e2]) == [e1, e2, e3]
  {
    var input, expected := [e3, e1, e2], [e1, e2, e3];
    LexLeTransitive(e1.key, e2.key, e3.key);
    assert StrictlySortedByKey(expected);
    assert DistinctKeys(input);
    assert multiset(input) == multiset(expected);
    SortStrictlyAscending(input);
    StrictlySortedUnique(SortByDate(input), expected);
  }

  /** Keys arriving as 03, 01, 02 are shown as 01, 02, 03. */
  lemma WeekExample(c1: real, c2: real, c3: real)
    ensures SortByDate([Entry("2024-01-03", c3), Entry("2024-01-01", c1), Entry("2024-01-02", c2)])
         == [Entry("2024-01-01", c1), Entry("2024-01-02", c2), Entry("2024-01-03", c3)]
  {
    var day := "2024-01-0";
    assert LexLe("1", "2") && LexLe("2", "3");
    LexLeCommonPrefix(day, "1", "2");
    LexLeCommonPrefix(day, "2", "3");
    assert day + "1" == "2024-01-01" && day + "2" == "2024-01-02" && day + "3" == "2024-01-03";
    ThreeInOrder(Entry("2024-01-01", c1), Entry("2024-01-02", c2), Entry("2024-01-03", c3));
  }
}
