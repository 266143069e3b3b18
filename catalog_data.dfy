/**
 * The concrete article table the site ships with, and what the catalog queries
 * return on it. The markdown body and excerpt of each article are not modelled.
 */
module CatalogData {
  import opened Wrappers
  import opened Catalog

  const Author := "FundOps Team"

  /** The eight articles, in the order of the source table. */
  const Table: seq<Article> := [
    Article("vc-fund-admin-basics", "Fund Administration Basics for Venture Capital",
            VC, Date(2024, 1, 15), Author, "5 min read"),
    Article("vc-compliance-checklist", "Annual Compliance Checklist for VC Funds",
            VC, Date(2024, 2, 20), Author, "4 min read"),
    Article("pe-waterfall-calculations", "Understanding Waterfall Calculations in Private Equity",
            PE, Date(2024, 1, 28), Author, "6 min read"),
    Article("pe-fund-administration", "Private Equity Fund Administration Best Practices",
            PE, Date(2024, 2, 10), Author, "5 min read"),
    Article("hedge-daily-nav-process", "Streamlining Daily NAV Calculations for Hedge Funds",
            Hedge, Date(2024, 1, 18), Author, "4 min read"),
    Article("hedge-compliance-monitoring", "Real-Time Compliance Monitoring for Hedge Funds",
            Hedge, Date(2024, 2, 5), Author, "5 min read"),
    Article("credit-fund-administration", "Fund Administration for Credit Funds: Key Considerations",
            Credit, Date(2024, 1, 25), Author, "5 min read"),
    Article("credit-risk-reporting", "Risk Reporting Best Practices for Credit Funds",
            Credit, Date(2024, 2, 15), Author, "6 min read")
  ]

  /** No two articles share a slug, so a lookup's first match is its only match. */
  lemma TableSlugsUnique()
    ensures |Table| == 8
    ensures UniqueSlugs(Table)
  {
  }

  /** Every date has its month and day in range and no two articles share one, so the newest-first
      order of the table is the same under any stable sort. */
  lemma TableDatesDistinct()
    ensures forall i :: 0 <= i < |Table| ==> WellFormedDate(Table[i].publishedAt)
    ensures forall i, j :: 0 <= i < j < |Table| ==> Table[i].publishedAt != Table[j].publishedAt
  {
  }

  /** The table's date and category columns, row by row: two articles per category, in
      display order. */
  lemma TableColumns()
    ensures |Table| == 8
    ensures Table[0].publishedAt == Date(2024, 1, 15) && Table[0].category == VC
    ensures Table[1].publishedAt == Date(2024, 2, 20) && Table[1].category == VC
    ensures Table[2].publishedAt == Date(2024, 1, 28) && Table[2].category == PE
    ensures Table[3].publishedAt == Date(2024, 2, 10) && Table[3].category == PE
    ensures Table[4].publishedAt == Date(2024, 1, 18) && Table[4].category == Hedge
    ensures Table[5].publishedAt == Date(2024, 2, 5) && Table[5].category == Hedge
    ensures Table[6].publishedAt == Date(2024, 1, 25) && Table[6].category == Credit
    ensures Table[7].publishedAt == Date(2024, 2, 15) && Table[7].category == Credit
  {
  }

  /** Filtering keeps `x` and `y` when nothing around them satisfies `p`. */
  lemma FilterKeepsTwo(before: seq<Article>, x: Article, between: seq<Article>, y: Article,
                       after: seq<Article>, p: Article -> bool)
    requires p(x) && p(y)
    requires Filter(before, p) == [] && Filter(between, p) == [] && Filter(after, p) == []
    ensures Filter(before + [x] + between + [y] + after, p) == [x, y]
  {
    assert Filter([x], p) == [x] && Filter([y], p) == [y] by {
      FilterAppendOne([], x, p);
      FilterAppendOne([], y, p);
      assert [] + [x] == [x] && [] + [y] == [y];
    }
    calc {
      Filter(before + [x] + between + [y] + after, p);
      { FilterAppend(before + [x] + between + [y], after, p); }
      Filter(before + [x] + between + [y], p);
      { FilterAppend(before + [x] + between, [y], p); }
      Filter(before + [x] + between, p) + [y];
      { FilterAppend(before + [x], between, p); }
      Filter(before + [x], p) + [] + [y];
      { var f := Filter(before + [x], p); assert f + [] == f; }
      Filter(before + [x], p) + [y];
      { FilterAppend(before, [x], p); }
      Filter(before, p) + Filter([x], p) + [y];
      [] + [x] + [y];
      [x, y];
    }
  }

  /** Rows `i` and `j` cut a list into five parts. */
  lemma SplitAroundTwo(t: seq<Article>, i: nat, j: nat)
    requires i < j < |t|
    ensures t == t[..i] + [t[i]] + t[i + 1..j] + [t[j]] + t[j + 1..]
  {
    assert t[..j] == t[..i] + [t[i]] + t[i + 1..j];
    assert t == t[..j] + [t[j]] + t[j + 1..];
  }

  /** Filtering keeps rows `i` and `j` when they are the only rows satisfying `p`. */
  lemma FilterTwoRows(t: seq<Article>, p: Article -> bool, i: nat, j: nat)
    requires i < j < |t|
    requires forall k :: 0 <= k < |t| ==> (p(t[k]) <==> k == i || k == j)
    ensures Filter(t, p) == [t[i], t[j]]
  {
    var before, between, after := t[..i], t[i + 1..j], t[j + 1..];
    assert Filter(before, p) == [] by {
      forall k | 0 <= k < |before| ensures !p(before[k]) { assert before[k] == t[k]; }
      FilterNone(before, p);
    }
    assert Filter(between, p) == [] by {
      forall k | 0 <= k < |between| ensures !p(between[k]) { assert between[k] == t[i + 1 + k]; }
      FilterNone(between, p);
    }
    assert Filter(after, p) == [] by {
      forall k | 0 <= k < |after| ensures !p(after[k]) { assert after[k] == t[j + 1 + k]; }
      FilterNone(after, p);
    }
    FilterKeepsTwo(before, t[i], between, t[j], after, p);
    SplitAroundTwo(t, i, j);
  }

  /** Each category keeps two rows of the table: the category's two articles. */
  lemma CategoryRows(c: Category)
    ensures c == VC ==> Filter(Table, InCategory(c)) == [Table[0], Table[1]]
    ensures c == PE ==> Filter(Table, InCategory(c)) == [Table[2], Table[3]]
    ensures c == Hedge ==> Filter(Table, InCategory(c)) == [Table[4], Table[5]]
    ensures c == Credit ==> Filter(Table, InCategory(c)) == [Table[6], Table[7]]
  {
    TableColumns();
    var i: nat := match c case VC => 0 case PE => 2 case Hedge => 4 case Credit => 6;
    forall k | 0 <= k < 8 ensures InCategory(c)(Table[k]) <==> k == i || k == i + 1 {
    }
    FilterTwoRows(Table, InCategory(c), i, i + 1);
  }

  /** Each category has exactly two articles. */
  lemma TwoPerCategory(c: Category)
    ensures |Filter(Table, InCategory(c))| == 2
  {
    CategoryRows(c);
  }

  /** One step of sorting row by row: the next row `x` goes between the sorted rows
      before it that are not older (`before`) and those that are older (`after`). */
  lemma SortStep(s: seq<Article>, x: Article, before: seq<Article>, after: seq<Article>)
    requires SortByDate(s) == before + after
    requires before == [] || Compare(before[|before| - 1], x) <= 0
    requires forall i :: 0 <= i < |after| ==> Compare(after[i], x) > 0
    ensures SortByDate(s + [x]) == before + [x] + after
  {
    var u := before + after;
    assert u[..|before|] == before && u[|before|..] == after;
    SortAppendOne(s, x);
    InsertLastSplit(u, x, |before|);
  }

  /** Row 0 alone is sorted. */
  lemma SortRowsOne(a0: Article)
    ensures SortByDate([a0]) == [a0]
  {
    SortStep([], a0, [], []);
    assert [] + [a0] == [a0];
  }

  /** Row 1 goes before row 0. */
  lemma SortRowsTwo(a0: Article, a1: Article)
    requires a0.publishedAt == Date(2024, 1, 15)
    requires a1.publishedAt == Date(2024, 2, 20)
    ensures SortByDate([a0, a1]) == [a1, a0]
  {
    assert SortByDate([a0]) == [] + [a0] by {
      SortRowsOne(a0);
      assert [] + [a0] == [a0];
    }
    assert SortByDate([a0] + [a1]) == [] + [a1] + [a0] by {
      assert Compare([a0][0], a1) > 0;
      SortStep([a0], a1, [], [a0]);
    }
    assert [a0] + [a1] == [a0, a1];
    assert [] + [a1] + [a0] == [a1, a0];
  }

  /** Row 2 goes after row 1 and before row 0. */
  lemma SortRowsThree(a0: Article, a1: Article, a2: Article)
    requires a0.publishedAt == Date(2024, 1, 15)
    requires a1.publishedAt == Date(2024, 2, 20)
    requires a2.publishedAt == Date(2024, 1, 28)
    ensures SortByDate([a0, a1, a2]) == [a1, a2, a0]
  {
    assert SortByDate([a0, a1]) == [a1] + [a0] by {
      SortRowsTwo(a0, a1);
      assert [a1, a0] == [a1] + [a0];
    }
    assert SortByDate([a0, a1] + [a2]) == [a1] + [a2] + [a0] by {
      SortStep([a0, a1], a2, [a1], [a0]);
    }
    assert [a0, a1] + [a2] == [a0, a1, a2];
    assert [a1] + [a2] + [a0] == [a1, a2, a0];
  }

  /** Row 3 goes after row 1 and before row 2. */
  lemma SortRowsFour(a0: Article, a1: Article, a2: Article, a3: Article)
    requires a0.publishedAt == Date(2024, 1, 15)
    requires a1.publishedAt == Date(2024, 2, 20)
    requires a2.publishedAt == Date(2024, 1, 28)
    requires a3.publishedAt == Date(2024, 2, 10)
    ensures SortByDate([a0, a1, a2, a3]) == [a1, a3, a2, a0]
  {
    assert SortByDate([a0, a1, a2]) == [a1] + [a2, a0] by {
      SortRowsThree(a0, a1, a2);
      assert [a1, a2, a0] == [a1] + [a2, a0];
    }
    assert SortByDate([a0, a1, a2] + [a3]) == [a1] + [a3] + [a2, a0] by {
      SortStep([a0, a1, a2], a3, [a1], [a2, a0]);
    }
    assert [a0, a1, a2] + [a3] == [a0, a1, a2, a3];
    assert [a1] + [a3] + [a2, a0] == [a1, a3, a2, a0];
  }

  /** Row 4 goes after row 2 and before row 0. */
  lemma SortRowsFive(a0: Article, a1: Article, a2: Article, a3: Article, a4: Article)
    requires a0.publishedAt == Date(2024, 1, 15)
    requires a1.publishedAt == Date(2024, 2, 20)
    requires a2.publishedAt == Date(2024, 1, 28)
    requires a3.publishedAt == Date(2024, 2, 10)
    requires a4.publishedAt == Date(2024, 1, 18)
    ensures SortByDate([a0, a1, a2, a3, a4]) == [a1, a3, a2, a4, a0]
  {
    assert SortByDate([a0, a1, a2, a3]) == [a1, a3, a2] + [a0] by {
      SortRowsFour(a0, a1, a2, a3);
      assert [a1, a3, a2, a0] == [a1, a3, a2] + [a0];
    }
    assert SortByDate([a0, a1, a2, a3] + [a4]) == [a1, a3, a2] + [a4] + [a0] by {
      SortStep([a0, a1, a2, a3], a4, [a1, a3, a2], [a0]);
    }
    assert [a0, a1, a2, a3] + [a4] == [a0, a1, a2, a3, a4];
    assert [a1, a3, a2] + [a4] + [a0] == [a1, a3, a2, a4, a0];
  }

  /** Row 5 goes after row 3 and before row 2. */
  lemma SortRowsSix(a0: Article, a1: Article, a2: Article, a3: Article, a4: Article, a5: Article)
    requires a0.publishedAt == Date(2024, 1, 15)
    requires a1.publishedAt == Date(2024, 2, 20)
    requires a2.publishedAt == Date(2024, 1, 28)
    requires a3.publishedAt == Date(2024, 2, 10)
    requires a4.publishedAt == Date(2024, 1, 18)
    requires a5.publishedAt == Date(2024, 2, 5)
    ensures SortByDate([a0, a1, a2, a3, a4, a5]) == [a1, a3, a5, a2, a4, a0]
  {
    assert SortByDate([a0, a1, a2, a3, a4]) == [a1, a3] + [a2, a4, a0] by {
      SortRowsFive(a0, a1, a2, a3, a4);
      assert [a1, a3, a2, a4, a0] == [a1, a3] + [a2, a4, a0];
    }
    assert SortByDate([a0, a1, a2, a3, a4] + [a5]) == [a1, a3] + [a5] + [a2, a4, a0] by {
      SortStep([a0, a1, a2, a3, a4], a5, [a1, a3], [a2, a4, a0]);
    }
    assert [a0, a1, a2, a3, a4] + [a5] == [a0, a1, a2, a3, a4, a5];
    assert [a1, a3] + [a5] + [a2, a4, a0] == [a1, a3, a5, a2, a4, a0];
  }

  /** Row 6 goes after row 2 and before row 4. */
  lemma SortRowsSeven(a0: Article, a1: Article, a2: Article, a3: Article, a4: Article, a5: Article, a6: Article)
    requires a0.publishedAt == Date(2024, 1, 15)
    requires a1.publishedAt == Date(2024, 2, 20)
    requires a2.publishedAt == Date(2024, 1, 28)
    requires a3.publishedAt == Date(2024, 2, 10)
    requires a4.publishedAt == Date(2024, 1, 18)
    requires a5.publishedAt == Date(2024, 2, 5)
    requires a6.publishedAt == Date(2024, 1, 25)
    ensures SortByDate([a0, a1, a2, a3, a4, a5, a6]) == [a1, a3, a5, a2, a6, a4, a0]
  {
    assert SortByDate([a0, a1, a2, a3, a4, a5]) == [a1, a3, a5, a2] + [a4, a0] by {
      SortRowsSix(a0, a1, a2, a3, a4, a5);
      assert [a1, a3, a5, a2, a4, a0] == [a1, a3, a5, a2] + [a4, a0];
    }
    assert SortByDate([a0, a1, a2, a3, a4, a5] + [a6]) == [a1, a3, a5, a2] + [a6] + [a4, a0] by {
      SortStep([a0, a1, a2, a3, a4, a5], a6, [a1, a3, a5, a2], [a4, a0]);
    }
    assert [a0, a1, a2, a3, a4, a5] + [a6] == [a0, a1, a2, a3, a4, a5, a6];
    assert [a1, a3, a5, a2] + [a6] + [a4, a0] == [a1, a3, a5, a2, a6, a4, a0];
  }

  /** Row 7 goes after row 1 and before row 3. */
  lemma SortRowsEight(a0: Article, a1: Article, a2: Article, a3: Article, a4: Article, a5: Article, a6: Article, a7: Article)
    requires a0.publishedAt == Date(2024, 1, 15)
    requires a1.publishedAt == Date(2024, 2, 20)
    requires a2.publishedAt == Date(2024, 1, 28)
    requires a3.publishedAt == Date(2024, 2, 10)
    requires a4.publishedAt == Date(2024, 1, 18)
    requires a5.publishedAt == Date(2024, 2, 5)
    requires a6.publishedAt == Date(2024, 1, 25)
    requires a7.publishedAt == Date(2024, 2, 15)
    ensures SortByDate([a0, a1, a2, a3, a4, a5, a6, a7]) == [a1, a7, a3, a5, a2, a6, a4, a0]
  {
    assert SortByDate([a0, a1, a2, a3, a4, a5, a6]) == [a1] + [a3, a5, a2, a6, a4, a0] by {
      SortRowsSeven(a0, a1, a2, a3, a4, a5, a6);
      assert [a1, a3, a5, a2, a6, a4, a0] == [a1] + [a3, a5, a2, a6, a4, a0];
    }
    assert SortByDate([a0, a1, a2, a3, a4, a5, a6] + [a7]) == [a1] + [a7] + [a3, a5, a2, a6, a4, a0] by {
      SortStep([a0, a1, a2, a3, a4, a5, a6], a7, [a1], [a3, a5, a2, a6, a4, a0]);
    }
    assert [a0, a1, a2, a3, a4, a5, a6] + [a7] == [a0, a1, a2, a3, a4, a5, a6, a7];
    assert [a1] + [a7] + [a3, a5, a2, a6, a4, a0] == [a1, a7, a3, a5, a2, a6, a4, a0];
  }

  /** Sorting any eight rows with these dates gives the newest-first order of the table. */
  lemma SortEight(t: seq<Article>)
    requires |t| == 8
    requires t[0].publishedAt == Date(2024, 1, 15)
    requires t[1].publishedAt == Date(2024, 2, 20)
    requires t[2].publishedAt == Date(2024, 1, 28)
    requires t[3].publishedAt == Date(2024, 2, 10)
    requires t[4].publishedAt == Date(2024, 1, 18)
    requires t[5].publishedAt == Date(2024, 2, 5)
    requires t[6].publishedAt == Date(2024, 1, 25)
    requires t[7].publishedAt == Date(2024, 2, 15)
    ensures SortByDate(t) == [t[1], t[7], t[3], t[5], t[2], t[6], t[4], t[0]]
  {
    assert t == [t[0], t[1], t[2], t[3], t[4], t[5], t[6], t[7]];
    assert SortByDate([t[0], t[1], t[2], t[3], t[4], t[5], t[6], t[7]])
        == [t[1], t[7], t[3], t[5], t[2], t[6], t[4], t[0]] by {
      SortRowsEight(t[0], t[1], t[2], t[3], t[4], t[5], t[6], t[7]);
    }
  }

  /** The slugs of a listing, in order. */
  function Slugs(s: seq<Article>): (r: seq<string>)
    ensures |r| == |s|
    ensures forall i :: 0 <= i < |s| ==> r[i] == s[i].slug
  {
    if s == [] then [] else [s[0].slug] + Slugs(s[1..])
  }

  /** The slugs of eight articles, spelled out. */
  lemma SlugsOfEight(s: seq<Article>)
    requires |s| == 8
    ensures Slugs(s) == [s[0].slug, s[1].slug, s[2].slug, s[3].slug,
                         s[4].slug, s[5].slug, s[6].slug, s[7].slug]
  {
  }

  /** The table's slug column. */
  lemma TableSlugs()
    ensures |Table| == 8
    ensures Table[0].slug == "vc-fund-admin-basics" && Table[1].slug == "vc-compliance-checklist"
    ensures Table[2].slug == "pe-waterfall-calculations" && Table[3].slug == "pe-fund-administration"
    ensures Table[4].slug == "hedge-daily-nav-process" && Table[5].slug == "hedge-compliance-monitoring"
    ensures Table[6].slug == "credit-fund-administration" && Table[7].slug == "credit-risk-reporting"
  {
  }

  /** The full listing, newest first. */
  lemma ListingOrder()
    ensures SortByDate(Table) == [Table[1], Table[7], Table[3], Table[5], Table[2], Table[6], Table[4], Table[0]]
  {
    TableColumns();
    SortEight(Table);
  }

  /** The slugs of the full listing, newest first. */
  lemma ListingSlugs()
    ensures Slugs(SortByDate(Table)) == [
      "vc-compliance-checklist", "credit-risk-reporting", "pe-fund-administration",
      "hedge-compliance-monitoring", "pe-waterfall-calculations",
      "credit-fund-administration", "hedge-daily-nav-process", "vc-fund-admin-basics"]
  {
    ListingOrder();
    TableSlugs();
    SlugsOfEight(SortByDate(Table));
  }

  /** Two rows, the second newer than the first, sort into reverse order. */
  lemma SortNewerSecond(f: seq<Article>)
    requires |f| == 2 && Compare(f[0], f[1]) > 0
    ensures SortByDate(f) == [f[1], f[0]]
  {
    assert SortByDate([f[0]]) == [] + [f[0]] by {
      SortRowsOne(f[0]);
      assert [] + [f[0]] == [f[0]];
    }
    assert SortByDate([f[0]] + [f[1]]) == [] + [f[1]] + [f[0]] by {
      assert Compare([f[0]][0], f[1]) > 0;
      SortStep([f[0]], f[1], [], [f[0]]);
    }
    assert [f[0]] + [f[1]] == f;
    assert [] + [f[1]] + [f[0]] == [f[1], f[0]];
  }

  /** The private-equity listing puts the February article before the January one. */
  lemma PrivateEquityListing()
    ensures SortByDate(Filter(Table, InCategory(PE))) == [Table[3], Table[2]]
  {
    CategoryRows(PE);
    assert Compare(Table[2], Table[3]) > 0 by {
      TableColumns();
    }
    SortNewerSecond([Table[2], Table[3]]);
  }

  /** The slugs of the private-equity listing, newest first. */
  lemma PrivateEquitySlugs()
    ensures Slugs(SortByDate(Filter(Table, InCategory(PE)))) == ["pe-fund-administration", "pe-waterfall-calculations"]
  {
    PrivateEquityListing();
    TableSlugs();
  }

  /** A known slug finds its article. */
  lemma LookupKnownSlug()
    ensures Find(Table, "vc-fund-admin-basics") == Some(Table[0])
    ensures Find(Table, "credit-risk-reporting") == Some(Table[7])
  {
    TableSlugsUnique();
    FindUnique(Table, 0);
    FindUnique(Table, 7);
  }

  /** Sorting the table first, as the full listing does, changes no lookup. */
  lemma LookupAfterListing()
    ensures Find(SortByDate(Table), "pe-waterfall-calculations") == Some(Table[2])
  {
    TableSlugsUnique();
    FindUnique(Table, 2);
    FindAfterSort(Table, "pe-waterfall-calculations");
  }

  /** A slug no article has finds nothing. */
  lemma LookupUnknownSlug()
    ensures Find(Table, "no-such-article") == None
  {
    forall i | 0 <= i < |Table| ensures Table[i].slug != "no-such-article" {
      assert Table[i].slug[0] != 'n';
    }
  }

  /** Builds the store over the table, runs the full listing and then a lookup, and
      returns what a page rendering the listing would show. */
  method ListingThenLookup() returns (slugs: seq<string>, found: Option<Article>)
    ensures slugs == [
      "vc-compliance-checklist", "credit-risk-reporting", "pe-fund-administration",
      "hedge-compliance-monitoring", "pe-waterfall-calculations",
      "credit-fund-administration", "hedge-daily-nav-process", "vc-fund-admin-basics"]
    ensures found == Some(Table[0])
  {
    var store := new ArticleStore(Table);
    var listing := store.GetAllArticles();
    ListingSlugs();
    slugs := Slugs(listing[..]);
    TableSlugsUnique();
    FindAfterSort(Table, "vc-fund-admin-basics");
    FindUnique(Table, 0);
    found := store.GetArticleBySlug("vc-fund-admin-basics");
  }
}
