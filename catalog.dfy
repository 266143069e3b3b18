/**
 * The article catalog: a module-level array of articles and the queries over it.
 * `getAllArticles` sorts that shared array in place, newest first, with the engine's
 * stable sort; `getArticlesByCategory` filters into a fresh array and sorts only the
 * copy; `getArticleBySlug` is a first-match lookup; `getCategories` is a constant.
 *
 * Publication dates are `YYYY-MM-DD` strings compared as parsed dates; they are
 * modelled as (year, month, day) values mapped to a day index that orders them the same way.
 */
module Catalog {
  import opened Wrappers

  datatype Category = VC | PE | Hedge | Credit

  datatype Date = Date(year: int, month: int, day: int)

  datatype Article = Article(
    slug: string,
    title: string,
    category: Category,
    publishedAt: Date,
    author: string,
    readTime: string)

  predicate WellFormedDate(d: Date) {
    1 <= d.month <= 12 && 1 <= d.day <= 31
  }

  /** A day count that grows with the date (every month padded to 31 days). */
  function DayIndex(d: Date): int {
    d.year * 372 + (d.month - 1) * 31 + (d.day - 1)
  }

  /** Comparing day indices is comparing (year, month, day) lexicographically, which is
      how the parsed `YYYY-MM-DD` dates compare. */
  lemma DayIndexOrdersDates(a: Date, b: Date)
    requires WellFormedDate(a) && WellFormedDate(b)
    ensures DayIndex(a) < DayIndex(b) <==>
            a.year < b.year || (a.year == b.year && (a.month < b.month || (a.month == b.month && a.day < b.day)))
    ensures DayIndex(a) == DayIndex(b) <==> a == b
  {
  }

  /** The sort comparator `(a, b) => date(b) - date(a)`: negative when `a` is newer,
      so that `a` comes first. */
  function Compare(a: Article, b: Article): int {
    DayIndex(b.publishedAt) - DayIndex(a.publishedAt)
  }

  /** Most recent first: no article is older than one after it. */
  predicate SortedNewestFirst(s: seq<Article>) {
    forall i, j :: 0 <= i < j < |s| ==> Compare(s[i], s[j]) <= 0
  }

  // ---------------------------------------------------------------------------
  // The stable sort, as a function
  // ---------------------------------------------------------------------------

  /** Inserts `x` into `t` after every element the comparator does not put after `x`:
      one step of a stable insertion sort, scanning from the end. */
  function InsertLast(t: seq<Article>, x: Article): seq<Article>
    decreases |t|
  {
    if t == [] || Compare(t[|t| - 1], x) <= 0 then t + [x]
    else InsertLast(t[..|t| - 1], x) + [t[|t| - 1]]
  }

  /** The insertion adds `x` and loses nothing. */
  lemma {:induction false} InsertLastPerm(t: seq<Article>, x: Article)
    ensures multiset(InsertLast(t, x)) == multiset(t) + multiset{x}
    decreases |t|
  {
    if t == [] || Compare(t[|t| - 1], x) <= 0 {
    } else {
      assert t == t[..|t| - 1] + [t[|t| - 1]];
      InsertLastPerm(t[..|t| - 1], x);
    }
  }

  lemma {:induction false} InsertLastSorted(t: seq<Article>, x: Article)
    requires SortedNewestFirst(t)
    ensures SortedNewestFirst(InsertLast(t, x))
    decreases |t|
  {
    if t == [] || Compare(t[|t| - 1], x) <= 0 {
    } else {
      var init, last := t[..|t| - 1], t[|t| - 1];
      InsertLastSorted(init, x);
      var u := InsertLast(init, x);
      InsertLastPerm(init, x);
      forall e | e in u ensures Compare(e, last) <= 0 {
        assert e in multiset(u);
        if e != x {
          assert e in multiset(init);
        }
      }
    }
  }

  /** `Array.prototype.sort` with the date comparator: stable, newest first. The order
      of the input decides the order among articles of the same date. */
  function SortByDate(s: seq<Article>): seq<Article>
    decreases |s|
  {
    if s == [] then [] else InsertLast(SortByDate(s[..|s| - 1]), s[|s| - 1])
  }

  /** The sort is a permutation of its input, ordered newest first. */
  lemma {:induction false} SortByDateSorts(s: seq<Article>)
    ensures multiset(SortByDate(s)) == multiset(s)
    ensures SortedNewestFirst(SortByDate(s))
    decreases |s|
  {
    if s != [] {
      var init, last := s[..|s| - 1], s[|s| - 1];
      assert s == init + [last];
      SortByDateSorts(init);
      InsertLastSorted(SortByDate(init), last);
      InsertLastPerm(SortByDate(init), last);
    }
  }

  lemma SortAppendOne(t: seq<Article>, x: Article)
    ensures SortByDate(t + [x]) == InsertLast(SortByDate(t), x)
  {
    assert (t + [x])[..|t|] == t;
  }

  lemma InsertLastAtEnd(t: seq<Article>, x: Article)
    requires t == [] || Compare(t[|t| - 1], x) <= 0
    ensures InsertLast(t, x) == t + [x]
  {
  }

  lemma SortedInit(s: seq<Article>)
    requires SortedNewestFirst(s) && s != []
    ensures SortedNewestFirst(s[..|s| - 1])
  {
    var init := s[..|s| - 1];
    forall i, j | 0 <= i < j < |init| ensures Compare(init[i], init[j]) <= 0 {
      assert init[i] == s[i] && init[j] == s[j];
    }
  }

  /** Sorting an already sorted list changes nothing: sorting twice is sorting once. */
  lemma {:induction false} SortSortedIsIdentity(s: seq<Article>)
    requires SortedNewestFirst(s)
    ensures SortByDate(s) == s
    decreases |s|
  {
    if s != [] {
      var init, last := s[..|s| - 1], s[|s| - 1];
      assert s == init + [last];
      SortedInit(s);
      SortSortedIsIdentity(init);
      SortAppendOne(init, last);
      if init != [] {
        assert Compare(s[|init| - 1], s[|s| - 1]) <= 0;
      }
      InsertLastAtEnd(init, last);
    }
  }

  /** Sorting keeps exactly the articles it was given. */
  lemma SortKeepsElements(s: seq<Article>)
    ensures forall a :: a in SortByDate(s) <==> a in s
  {
    SortByDateSorts(s);
    forall a ensures a in SortByDate(s) <==> a in s {
      assert a in SortByDate(s) <==> a in multiset(SortByDate(s));
      assert a in s <==> a in multiset(s);
    }
  }

  lemma SortIdempotent(s: seq<Article>)
    ensures SortByDate(SortByDate(s)) == SortByDate(s)
  {
    SortByDateSorts(s);
    SortSortedIsIdentity(SortByDate(s));
  }

  // ---------------------------------------------------------------------------
  // Filtering
  // ---------------------------------------------------------------------------

  /** `Array.prototype.filter`: the elements satisfying `p`, in their order. */
  function Filter(s: seq<Article>, p: Article -> bool): (r: seq<Article>)
    ensures |r| <= |s|
    decreases |s|
  {
    if s == [] then []
    else Filter(s[..|s| - 1], p) + (if p(s[|s| - 1]) then [s[|s| - 1]] else [])
  }

  /** The filter keeps exactly the elements satisfying `p`. */
  lemma {:induction false} FilterMembers(s: seq<Article>, p: Article -> bool)
    ensures forall x :: x in Filter(s, p) <==> x in s && p(x)
    decreases |s|
  {
    if s != [] {
      var init, last := s[..|s| - 1], s[|s| - 1];
      assert s == init + [last];
      FilterMembers(init, p);
    }
  }

  /** The filter keeps each element satisfying `p` as often as it occurs, and no other. */
  lemma {:induction false} FilterCounts(s: seq<Article>, p: Article -> bool)
    ensures forall x :: multiset(Filter(s, p))[x] == if p(x) then multiset(s)[x] else 0
    decreases |s|
  {
    if s != [] {
      var init, last := s[..|s| - 1], s[|s| - 1];
      assert s == init + [last];
      FilterCounts(init, p);
    }
  }

  function InCategory(c: Category): Article -> bool {
    (a: Article) => a.category == c
  }

  function OnDay(day: int): Article -> bool {
    (a: Article) => DayIndex(a.publishedAt) == day
  }

  lemma FilterAppendOne(t: seq<Article>, x: Article, p: Article -> bool)
    ensures Filter(t + [x], p) == Filter(t, p) + (if p(x) then [x] else [])
  {
    assert (t + [x])[..|t|] == t;
  }

  /** Filtering distributes over concatenation. */
  lemma {:induction false} FilterAppend(a: seq<Article>, b: seq<Article>, p: Article -> bool)
    ensures Filter(a + b, p) == Filter(a, p) + Filter(b, p)
    decreases |b|
  {
    if b == [] {
      assert a + b == a;
    } else {
      var init, last := b[..|b| - 1], b[|b| - 1];
      assert b == init + [last];
      assert a + b == (a + init) + [last];
      FilterAppend(a, init, p);
      FilterAppendOne(a + init, last, p);
      FilterAppendOne(init, last, p);
    }
  }

  /** A list with no element satisfying `p` filters to nothing. */
  lemma FilterNone(s: seq<Article>, p: Article -> bool)
    requires forall k :: 0 <= k < |s| ==> !p(s[k])
    ensures Filter(s, p) == []
  {
    FilterMembers(s, p);
  }

  /** Every element of a filter of sorted `t` is at least as new as anything `t` ends before. */
  lemma FilterBeforeLater(t: seq<Article>, x: Article, p: Article -> bool)
    requires SortedNewestFirst(t) && t != [] && Compare(t[|t| - 1], x) <= 0
    ensures forall e :: e in Filter(t, p) ==> Compare(e, x) <= 0
  {
    FilterMembers(t, p);
    var last := t[|t| - 1];
    forall e | e in Filter(t, p) ensures Compare(e, x) <= 0 {
      var k :| 0 <= k < |t| && t[k] == e;
      assert Compare(e, last) <= 0;
    }
  }

  /** When `x` goes at the end of `t`, it also goes at the end of any filter of `t`. */
  lemma FilterInsertAtEnd(t: seq<Article>, x: Article, p: Article -> bool)
    requires SortedNewestFirst(t) && t != [] && Compare(t[|t| - 1], x) <= 0
    ensures Filter(InsertLast(t, x), p) == if p(x) then InsertLast(Filter(t, p), x) else Filter(t, p)
  {
    assert InsertLast(t, x) == t + [x];
    FilterAppendOne(t, x, p);
    FilterBeforeLater(t, x, p);
    var f := Filter(t, p);
    if f != [] {
      assert f[|f| - 1] in f;
    }
    InsertLastAtEnd(f, x);
  }

  lemma InsertBeforeAppended(t: seq<Article>, last: Article, x: Article)
    requires Compare(last, x) > 0
    ensures InsertLast(t + [last], x) == InsertLast(t, x) + [last]
  {
    var f := t + [last];
    assert f[..|f| - 1] == t;
  }

  /** When `x` goes before the last element of `t`, filtering commutes with the insertion
      if it commutes with the insertion into the rest of `t`. */
  lemma FilterInsertBeforeLast(t: seq<Article>, x: Article, p: Article -> bool)
    requires t != [] && Compare(t[|t| - 1], x) > 0
    requires Filter(InsertLast(t[..|t| - 1], x), p)
             == if p(x) then InsertLast(Filter(t[..|t| - 1], p), x) else Filter(t[..|t| - 1], p)
    ensures Filter(InsertLast(t, x), p) == if p(x) then InsertLast(Filter(t, p), x) else Filter(t, p)
  {
    var init, last := t[..|t| - 1], t[|t| - 1];
    assert t == init + [last];
    var u := InsertLast(init, x);
    InsertBeforeAppended(init, last, x);
    FilterAppendOne(u, last, p);
    FilterAppendOne(init, last, p);
    if p(last) && p(x) {
      InsertBeforeAppended(Filter(init, p), last, x);
    } else if !p(last) {
      assert Filter(t, p) == Filter(init, p);
    }
  }

  /** Filtering commutes with one insertion step into a sorted list. */
  lemma {:induction false} FilterInsertLast(t: seq<Article>, x: Article, p: Article -> bool)
    requires SortedNewestFirst(t)
    ensures Filter(InsertLast(t, x), p) == if p(x) then InsertLast(Filter(t, p), x) else Filter(t, p)
    decreases |t|
  {
    if t == [] {
      assert InsertLast(t, x) == [x];
      FilterAppendOne([], x, p);
    } else if Compare(t[|t| - 1], x) <= 0 {
      FilterInsertAtEnd(t, x, p);
    } else {
      SortedInit(t);
      FilterInsertLast(t[..|t| - 1], x, p);
      FilterInsertBeforeLast(t, x, p);
    }
  }

  /** Filtering then sorting equals sorting then filtering, order included. */
  lemma {:induction false} FilterSortCommute(s: seq<Article>, p: Article -> bool)
    ensures Filter(SortByDate(s), p) == SortByDate(Filter(s, p))
    decreases |s|
  {
    if s != [] {
      var init, x := s[..|s| - 1], s[|s| - 1];
      assert s == init + [x];
      SortAppendOne(init, x);
      FilterSortCommute(init, p);
      SortByDateSorts(init);
      FilterInsertLast(SortByDate(init), x, p);
      FilterAppendOne(init, x, p);
      if p(x) {
        SortAppendOne(Filter(init, p), x);
      } else {
        assert Filter(s, p) == Filter(init, p);
      }
    }
  }

  /** A list whose articles all share one date is already in sorted order and stays as is. */
  lemma {:induction false} SortSameDayIsIdentity(s: seq<Article>, day: int)
    requires forall e :: e in s ==> DayIndex(e.publishedAt) == day
    ensures SortByDate(s) == s
  {
    forall i, j | 0 <= i < j < |s| ensures Compare(s[i], s[j]) <= 0 {
      assert s[i] in s && s[j] in s;
    }
    SortSortedIsIdentity(s);
  }

  /** Stability: articles published on the same day keep their relative order. */
  lemma SortIsStable(s: seq<Article>, day: int)
    ensures Filter(SortByDate(s), OnDay(day)) == Filter(s, OnDay(day))
  {
    FilterSortCommute(s, OnDay(day));
    FilterMembers(s, OnDay(day));
    SortSameDayIsIdentity(Filter(s, OnDay(day)), day);
  }

  /** The category query equals the full listing restricted to the category. */
  lemma CategoryQueryIsFilteredListing(s: seq<Article>, c: Category)
    ensures SortByDate(Filter(s, InCategory(c))) == Filter(SortByDate(s), InCategory(c))
    ensures forall a :: a in SortByDate(Filter(s, InCategory(c))) <==> a in s && a.category == c
  {
    FilterSortCommute(s, InCategory(c));
    var f := Filter(s, InCategory(c));
    FilterMembers(s, InCategory(c));
    SortByDateSorts(f);
    forall a ensures a in SortByDate(f) <==> a in s && a.category == c {
      assert a in SortByDate(f) <==> a in multiset(SortByDate(f));
      assert a in f <==> a in multiset(f);
    }
  }

  // ---------------------------------------------------------------------------
  // Lookup by slug
  // ---------------------------------------------------------------------------

  predicate UniqueSlugs(s: seq<Article>) {
    forall i, j :: 0 <= i < j < |s| ==> s[i].slug != s[j].slug
  }

  /** The position of the first article with `slug`, or |s| when none has it. */
  function FirstWithSlug(s: seq<Article>, slug: string): (k: nat)
    ensures k <= |s|
    ensures forall j :: 0 <= j < k ==> s[j].slug != slug
    ensures k < |s| ==> s[k].slug == slug
  {
    if s == [] then 0
    else if s[0].slug == slug then 0
    else 1 + FirstWithSlug(s[1..], slug)
  }

  /** `Array.prototype.find` on the slug: the first match, or nothing. */
  function Find(s: seq<Article>, slug: string): (r: Option<Article>)
    ensures r.None? <==> forall a :: a in s ==> a.slug != slug
    ensures r.Some? ==> r.value.slug == slug
    ensures r.Some? ==> exists k :: 0 <= k < |s| && s[k] == r.value && forall j :: 0 <= j < k ==> s[j].slug != slug
  {
    var k := FirstWithSlug(s, slug);
    if k < |s| then Some(s[k]) else None
  }

  /** With unique slugs the first match is the only match. */
  lemma FindUnique(s: seq<Article>, i: nat)
    requires UniqueSlugs(s) && i < |s|
    ensures Find(s, s[i].slug) == Some(s[i])
  {
  }

  /** With unique slugs, reordering the table (as the full listing does) never changes
      what a lookup returns. */
  lemma FindAfterSort(s: seq<Article>, slug: string)
    requires UniqueSlugs(s)
    ensures Find(SortByDate(s), slug) == Find(s, slug)
  {
    var t := SortByDate(s);
    SortKeepsElements(s);
    match Find(s, slug)
    case None =>
    case Some(a) =>
      var b := Find(t, slug).value;
      assert b in t;
      var k :| 0 <= k < |s| && s[k] == a;
      var m :| 0 <= m < |s| && s[m] == b;
  }

  // ---------------------------------------------------------------------------
  // Categories
  // ---------------------------------------------------------------------------

  /** The fixed display order of the categories: every category exactly once. */
  function GetCategories(): (r: seq<Category>)
    ensures |r| == 4
    ensures forall c: Category :: c in r
    ensures forall i, j :: 0 <= i < j < |r| ==> r[i] != r[j]
  {
    CategoriesExhaustive();
    [VC, PE, Hedge, Credit]
  }

  lemma CategoriesExhaustive()
    ensures forall c: Category :: c in [VC, PE, Hedge, Credit]
  {
    forall c: Category ensures c in [VC, PE, Hedge, Credit] {
      match c
      case VC => assert [VC, PE, Hedge, Credit][0] == c;
      case PE => assert [VC, PE, Hedge, Credit][1] == c;
      case Hedge => assert [VC, PE, Hedge, Credit][2] == c;
      case Credit => assert [VC, PE, Hedge, Credit][3] == c;
    }
  }

  // ---------------------------------------------------------------------------
  // The shared array and its queries
  // ---------------------------------------------------------------------------

  /** Where the insertion puts `x`: after the last element that is not newer than it,
      before the run of newer elements that ends `t`. */
  lemma {:induction false} InsertLastSplit(t: seq<Article>, x: Article, j: nat)
    requires j <= |t| && (j == 0 || Compare(t[j - 1], x) <= 0)
    requires forall k :: j <= k < |t| ==> Compare(t[k], x) > 0
    ensures InsertLast(t, x) == t[..j] + [x] + t[j..]
    decreases |t|
  {
    if j == |t| {
      assert t[..j] == t && t[j..] == [];
    } else {
      var init, last := t[..|t| - 1], t[|t| - 1];
      assert Compare(last, x) > 0;
      InsertLastSplit(init, x, j);
      assert init[..j] == t[..j];
      assert init[j..] + [last] == t[j..];
    }
  }

  /** Shifts right by one place every element of `a[..i]`, from the end, that the
      comparator puts after `x`, stopping at the first that it does not; returns the
      position left free. */
  method ShiftAfter(a: array<Article>, i: nat, x: Article) returns (j: nat)
    requires i < a.Length
    modifies a
    ensures j <= i
    ensures a[..j] == old(a[..i])[..j]
    ensures a[j + 1..i + 1] == old(a[..i])[j..]
    ensures a[i + 1..] == old(a[i + 1..])
    ensures j == 0 || Compare(old(a[..i])[j - 1], x) <= 0
    ensures forall k :: j <= k < i ==> Compare(old(a[..i])[k], x) > 0
  {
    ghost var t := a[..i];
    j := i;
    while j > 0
      invariant 0 <= j <= i
      invariant a[..j] == t[..j]
      invariant a[j + 1..i + 1] == t[j..]
      invariant a[i + 1..] == old(a[i + 1..])
      invariant forall k :: j <= k < i ==> Compare(t[k], x) > 0
    {
      if Compare(a[j - 1], x) <= 0 {
        assert a[j - 1] == t[j - 1];
        return;
      }
      assert a[j - 1] == t[j - 1];
      ghost var rest := a[j + 1..i + 1];
      a[j] := a[j - 1];
      assert a[j + 1..i + 1] == rest;
      assert a[j..i + 1] == [t[j - 1]] + rest;
      assert t[j - 1..] == [t[j - 1]] + t[j..];
      j := j - 1;
    }
  }

  /** Writing `x` into the gap at `j` joins the parts on either side of it. */
  lemma FillGap(b: seq<Article>, i: nat, j: nat, x: Article)
    requires j <= i < |b|
    ensures b[j := x][..i + 1] == b[..j] + [x] + b[j + 1..i + 1]
  {
  }

  /** Inserts `a[i]` into the sorted prefix `a[..i]`: the shifted elements move up one
      place and `a[i]` fills the place left free. */
  method InsertIntoPrefix(a: array<Article>, i: nat)
    requires i < a.Length
    modifies a
    ensures a[..i + 1] == InsertLast(old(a[..i]), old(a[i]))
    ensures a[i + 1..] == old(a[i + 1..])
  {
    var x := a[i];
    ghost var t := a[..i];
    var j := ShiftAfter(a, i, x);
    InsertLastSplit(t, x, j);
    ghost var before := a[..];
    FillGap(before, i, j, x);
    a[j] := x;
    assert a[..] == before[j := x];
  }

  /** Sorting one more element of a prefix inserts it into the sorted shorter prefix. */
  lemma SortPrefixStep(s: seq<Article>, i: nat)
    requires i < |s|
    ensures SortByDate(s[..i + 1]) == InsertLast(SortByDate(s[..i]), s[i])
  {
    assert s[..i + 1] == s[..i] + [s[i]];
    SortAppendOne(s[..i], s[i]);
  }

  /** Sorts `a` in place by insertion, newest first, keeping equal dates in their order. */
  method SortNewestFirst(a: array<Article>)
    modifies a
    ensures a[..] == SortByDate(old(a[..]))
  {
    ghost var s := a[..];
    var i := 0;
    while i < a.Length
      invariant 0 <= i <= a.Length
      invariant a[..i] == SortByDate(s[..i])
      invariant a[i..] == s[i..]
    {
      assert a[i] == s[i..][0];
      SortPrefixStep(s, i);
      InsertIntoPrefix(a, i);
      assert a[i + 1..] == s[i..][1..];
      i := i + 1;
    }
    assert a[..] == a[..a.Length];
    assert s == s[..a.Length];
  }

  /** The module-level article table. The binding is constant; its contents are not. */
  class ArticleStore {
    const articles: array<Article>

    constructor (table: seq<Article>)
      ensures fresh(articles) && articles[..] == table
    {
      articles := new Article[|table|](i requires 0 <= i < |table| => table[i]);
    }

    /** Sorts the shared array itself and returns it. */
    method GetAllArticles() returns (r: array<Article>)
      modifies articles
      ensures r == articles
      ensures articles[..] == SortByDate(old(articles[..]))
    {
      SortNewestFirst(articles);
      r := articles;
    }

    /** Filters into a fresh array and sorts only the copy; the shared array is untouched. */
    method GetArticlesByCategory(c: Category) returns (r: array<Article>)
      ensures fresh(r)
      ensures r[..] == SortByDate(Filter(articles[..], InCategory(c)))
    {
      var kept := Filter(articles[..], InCategory(c));
      r := new Article[|kept|](i requires 0 <= i < |kept| => kept[i]);
      assert r[..] == kept;
      SortNewestFirst(r);
    }

    /** The first article in the array's current order with the slug, if any. */
    function GetArticleBySlug(slug: string): (r: Option<Article>)
      reads articles
      ensures r.Some? ==> r.value.slug == slug && r.value in articles[..]
      ensures r.Some? ==> exists k :: 0 <= k < articles.Length && articles[k] == r.value
                                      && forall j :: 0 <= j < k ==> articles[j].slug != slug
      ensures r.None? <==> forall i :: 0 <= i < articles.Length ==> articles[i].slug != slug
    {
      Find(articles[..], slug)
    }
  }
}
