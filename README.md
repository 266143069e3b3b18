# Fund-administration site: pricing model and article catalog

This project models, in Dafny, the two pieces of logic in a fund-administration
marketing site.

**The pricing estimator** (`components/pricing-estimator.tsx`, module `Pricing`, file
`pricing.dfy`).
- The questionnaire schema checks a submitted form: three required selections, three
  numeric ranges, and an optional e-mail. The selections have no default value, so the
  model's `Form` holds each as an option that stays unset until one is chosen;
  `Validate` turns an accepted `Form` into the `FormData` that is priced.
- On an accepted form:
  - `getAumTier` maps assets under management to one of eight tiers and a base fee;
  - `calculatePricing` multiplies that base by six factors (fund type, investor count
    capped at 500, number of funds, trading frequency, regulatory regimes, reporting
    frequency);
  - it adds 15000 per additional service, rounds with JavaScript's `Math.round`, and
    derives the low (×0.75) and high (×1.35) quotes;
  - it recommends a tier from a 0–5 complexity score.
- The two checkbox groups build the `regulatory` and `additionalServices` lists by
  appending a checked value, or by filtering out an unchecked one.
- All arithmetic is exact (`real`); `Math.round` is `Floor(x + 1/2)`.

**The article catalog** (`content/articles/utils.ts` over the table in
`content/articles/data.ts`, modules `Catalog` in `catalog.dfy` and `CatalogData` in
`catalog_data.dfy`).
- `getAllArticles` sorts the shared module-level array in place, newest first, and
  returns that same array. The model is a class `ArticleStore` holding the array, whose
  `GetAllArticles` method runs an in-place stable insertion sort (`SortNewestFirst`).
  That sort is proved equal to a functional specification, `SortByDate`.
- `getArticlesByCategory` filters into a fresh array and sorts only the copy.
- `getArticleBySlug` is a first-match lookup (`Find`).
- `getCategories` is the constant list of the four fund categories.
- Dates are `(year, month, day)` values ordered by a day index; comparing them is
  comparing the parsed `YYYY-MM-DD` strings.
- `CatalogData` holds the eight-article table and proves concrete facts about it:
  - the slugs are unique;
  - each category has two articles;
  - the dates are distinct;
  - it gives the exact order of the full listing and of the private-equity listing;
  - it gives the results of several lookups.

`wrappers.dfy` holds the `Option` and `Result` types.

Two behaviours of the code shape the model:
- The medium price never falls as an input grows, but it does not always rise.
  - It is a step function of AUM: flat inside each tier, rising only at a tier boundary.
  - It is flat in the investor count from 500 investors on; below 500 each whole
    investor adds at least 15 dollars.
  - Each whole fund adds at least 2297 dollars, but a fractional change in the number
    of funds can round to the same price.
  - Each step of trading frequency adds at least 1701 dollars, and each added
    regulatory regime at least 1531.
- The article table is not read-only state. Each call of `getAllArticles` reorders it
  in place, so later first-match lookups see the sorted order.

## Model

| member | source | states |
|---|---|---|
| Pricing.Entered | components/pricing-estimator.tsx:18-30 | the form holding given data has all three selections made |
| Pricing.Parsed | components/pricing-estimator.tsx:18-30 | a form with its selections made parses to data that the form holds exactly (the inverse of Entered) |
| Pricing.RequiredIssue | components/pricing-estimator.tsx:19-25 | a selection raises an issue exactly when it is unset or empty: "required" exactly when unset, "too small" exactly when empty, for that field only |
| Pricing.RangeIssue | components/pricing-estimator.tsx:20-22 | a number raises no issue exactly when it lies in its closed range; "too small" exactly below it, "too big" exactly above it, and no other kind |
| Pricing.NumberIssues | components/pricing-estimator.tsx:20-22 | no numeric issue iff AUM ∈ [1, 50000], investors ∈ [1, 10000] and funds ∈ [1, 100]; each bound's issue appears iff that bound is broken |
| Pricing.EmailIssue | components/pricing-estimator.tsx:27 | the e-mail raises an issue exactly when it is present, non-empty and not an address |
| Pricing.Issues | components/pricing-estimator.tsx:18-28 | the collected issue list is empty iff the form satisfies the whole schema |
| Pricing.IssuesNameEachField | components/pricing-estimator.tsx:18-28 | the list holds "required" for a selection exactly when it is unset, "too small" exactly when it is empty, and an e-mail issue exactly when the e-mail is refused |
| Pricing.IssuesNameEachBound | components/pricing-estimator.tsx:20-22 | for AUM, investors and funds, the list holds exactly the numeric issues of that field |
| Pricing.Valid | components/pricing-estimator.tsx:18-28 | the schema as a predicate: all three selections made and non-empty, the three numbers in range, and the e-mail absent, empty or an address |
| Pricing.Validate | components/pricing-estimator.tsx:18-28 | accepts iff the form is valid, and then returns in-bounds data that is exactly the form's content; otherwise it returns the form's full, non-empty issue list |
| Pricing.Round | components/pricing-estimator.tsx:124-137 | `Math.round`: the result is the integer within half of x, ties going up |
| Pricing.RoundMonotone | components/pricing-estimator.tsx:124-137 | rounding never reverses an order |
| Pricing.RoundShift | components/pricing-estimator.tsx:124-133 | adding a whole number before rounding adds it after |
| Pricing.GetAumTier | components/pricing-estimator.tsx:68-77 | tier in 1..8 with its base fee; AUM is at or above the tier's lower threshold and below its upper one |
| Pricing.AumTierMonotone | components/pricing-estimator.tsx:68-77 | tier and base fee never fall as AUM grows |
| Pricing.FundTypeMultiplier | components/pricing-estimator.tsx:85-92 | factor in [0.8, 1.1]; an unlisted fund type gets 1.0 |
| Pricing.InvestorMultiplier | components/pricing-estimator.tsx:95 | factor in [1.001, 1.5] for at least one investor, and exactly 1.5 from 500 investors on |
| Pricing.FundsMultiplier | components/pricing-estimator.tsx:98 | factor at least 1 for at least one fund |
| Pricing.TradingMultiplier | components/pricing-estimator.tsx:101-107 | factor in [0.9, 1.4]; an unlisted frequency gets 1.0 |
| Pricing.RegulatoryMultiplier | components/pricing-estimator.tsx:110 | factor at least 1 |
| Pricing.ReportingMultiplier | components/pricing-estimator.tsx:113-118 | factor in [0.85, 1.2]; an unlisted frequency gets 1.0 |
| Pricing.ServicesAdd | components/pricing-estimator.tsx:121 | the services fee is never negative; its exact effect on the price, 15000 per service, is stated by Pricing.ServicesAreFlatFee |
| Pricing.Unrounded | components/pricing-estimator.tsx:124-133 | on accepted data the unrounded medium price is at least 15315.3 above the services fee |
| Pricing.MediumPrice | components/pricing-estimator.tsx:124-133 | on accepted data the rounded medium price is at least 15315 above the services fee |
| Pricing.FormulaAtLeast | components/pricing-estimator.tsx:124-130 | with every factor at the least the schema admits, the product is at least 15315.3 |
| Pricing.FormulaMonotone | components/pricing-estimator.tsx:124-133 | with non-negative factors, the unrounded price never falls when the base, any factor or the fee grows |
| Pricing.MediumMonotone | components/pricing-estimator.tsx:68-133 | on valid forms, the medium price never falls when every input moves up (AUM, each factor, list lengths) |
| Pricing.MediumMonotoneInAum | components/pricing-estimator.tsx:68-77 | more AUM, other fields fixed, never lowers the medium price, across tier boundaries too |
| Pricing.MediumMonotoneInInvestors | components/pricing-estimator.tsx:95 | more investors never lowers the medium price |
| Pricing.InvestorCapFlat | components/pricing-estimator.tsx:95 | any two investor counts of 500 or more give the same medium price |
| Pricing.MediumMonotoneInFunds | components/pricing-estimator.tsx:98 | more funds never lowers the medium price |
| Pricing.MediumMonotoneInRegulatory | components/pricing-estimator.tsx:110 | more regulatory regimes never lower the medium price |
| Pricing.MediumMonotoneInTrading | components/pricing-estimator.tsx:101-107 | along low < medium < high < veryHigh trading, the medium price never falls |
| Pricing.MulGap | components/pricing-estimator.tsx:124-133 | a gap between two values, scaled by a factor of at least k, stays a gap of at least k times as much |
| Pricing.PrefixAtLeast | components/pricing-estimator.tsx:124-127 | on valid forms the base, fund-type, investor and funds factors multiply to at least 20020 |
| Pricing.FormulaGapInTrading | components/pricing-estimator.tsx:124-133 | raising the trading factor by 0.1 or more raises the unrounded price by at least 1701.7 |
| Pricing.FormulaGapInRegulatory | components/pricing-estimator.tsx:124-133 | raising the regulatory factor by 0.1 or more raises the unrounded price by at least 1531.53 |
| Pricing.FormulaGapInFunds | components/pricing-estimator.tsx:124-133 | raising the funds factor by 0.15 or more raises the unrounded price by at least 2297.295 |
| Pricing.FormulaGapInInvestors | components/pricing-estimator.tsx:124-133 | raising the investor factor by 0.001 or more raises the unrounded price by at least 15.3 |
| Pricing.MediumStrictInFunds | components/pricing-estimator.tsx:98 | each whole fund added raises the medium price by at least 2297 |
| Pricing.MediumStrictInInvestors | components/pricing-estimator.tsx:95 | below 500, each whole investor added raises the medium price by at least 15 |
| Pricing.MediumStrictInTrading | components/pricing-estimator.tsx:101-107 | each step along low < medium < high < veryHigh trading raises the medium price by at least 1701 |
| Pricing.MediumStrictInRegulatory | components/pricing-estimator.tsx:110 | each added regulatory regime raises the medium price by at least 1531 |
| Pricing.ServicesAreFlatFee | components/pricing-estimator.tsx:121-133 | each additional service moves the medium price by exactly 15000 |
| Pricing.MediumAtLeast | components/pricing-estimator.tsx:124-137 | on a valid form the medium price is at least 15315 and 0 < low < medium < high |
| Pricing.CheapestQuote | components/pricing-estimator.tsx:79-157 | the cheapest accepted form is quoted 11486 / 15315 / 20675, recommended low, and no accepted form gets a lower medium price |
| Pricing.RangeOrdered | components/pricing-estimator.tsx:136-137 | for a medium price of 3 or more, 0 < round(0.75·medium) < medium < round(1.35·medium) |
| Pricing.ComplexityScore | components/pricing-estimator.tsx:140-145 | score in 0..5; 5 exactly when all five conditions hold, 0 exactly when none does |
| Pricing.TradingPoint | components/pricing-estimator.tsx:143 | trading frequency adds one point exactly for "high" or "veryHigh", and nothing for any other string |
| Pricing.Recommend | components/pricing-estimator.tsx:147-149 | "low" iff score ≤ 1, "high" iff score ≥ 4, "medium" iff 2 ≤ score ≤ 3 |
| Pricing.RecommendMonotone | components/pricing-estimator.tsx:147-149 | the recommendation never falls as the score rises, and one more point moves it by at most one tier |
| Pricing.RecommendationMonotone | components/pricing-estimator.tsx:140-149 | more investors, funds, regimes or services, or high trading, never lower the score or the recommendation |
| Pricing.CalculatePricing | components/pricing-estimator.tsx:79-157 | the medium quote is the rounded formula, and low < medium < high once medium ≥ 3 |
| Pricing.Submit | components/pricing-estimator.tsx:159-160 | a quote is produced iff the form is valid, and it is then the pricing of the form's data, ordered, with medium ≥ 15315; otherwise the result is the form's non-empty issue list |
| Pricing.Without | components/pricing-estimator.tsx:379 | unchecking removes every copy of the value and keeps every other value's count |
| Pricing.WithoutAppend | components/pricing-estimator.tsx:379 | removal distributes over concatenation, so the other entries keep their order |
| Pricing.WithoutAbsent | components/pricing-estimator.tsx:379 | removing an absent value changes nothing |
| Pricing.Toggle | components/pricing-estimator.tsx:375-380 | checking appends the value at the end (a present value is duplicated); unchecking removes all copies; no other value's count changes |
| Pricing.ToggleRoundTrip | components/pricing-estimator.tsx:375-380 | checking and then unchecking an absent value restores the list |
| Pricing.ToggleOffIdempotent | components/pricing-estimator.tsx:375-380 | unchecking twice is unchecking once |
| Pricing.RegulatoryToggleMonotone | components/pricing-estimator.tsx:375-380 | checking a regime never lowers the medium price and unchecking never raises it |
| Pricing.ServiceToggleFee | components/pricing-estimator.tsx:439-445 | checking a service adds exactly 15000; unchecking removes 15000 per copy removed |
| Pricing.SmallHedgeFundQuote | components/pricing-estimator.tsx:79-157 | a 5M hedge fund with 10 investors gets 17044 / 22725 / 30679, recommended low |
| Pricing.ComplexPrivateEquityQuote | components/pricing-estimator.tsx:79-157 | a 600M private-equity form with every complexity condition gets 510128 / 680170 / 918230, recommended high |
| Pricing.ZeroAumRejected | components/pricing-estimator.tsx:20 | zero AUM is refused with an AUM "too small" issue |
| Pricing.UnsetFundTypeRequired | components/pricing-estimator.tsx:51-58 | submitting with no fund type chosen (it has no default) is refused as "required", not as "too small" |
| Catalog.DayIndexOrdersDates | content/articles/utils.ts:6 | on dates whose month and day are in range, the day index orders dates as (year, month, day) do and is equal exactly on equal dates |
| Catalog.Compare | content/articles/utils.ts:6 | the comparator: positive exactly when the second article is newer, so the newer one goes first |
| Catalog.InsertLastPerm | content/articles/utils.ts:5-7 | one insertion step adds exactly the inserted article |
| Catalog.InsertLastSorted | content/articles/utils.ts:5-7 | one insertion step keeps a newest-first list newest first |
| Catalog.SortByDateSorts | content/articles/utils.ts:5-7 | the sort is a permutation of its input, newest first |
| Catalog.SortByDate | content/articles/utils.ts:5-7 | the stable newest-first sort as a function; the lemmas around it state that it is a newest-first permutation, is stable, and is idempotent |
| Catalog.SortSortedIsIdentity | content/articles/utils.ts:5-7 | a list already newest first is left as it is |
| Catalog.SortKeepsElements | content/articles/utils.ts:5-7 | the sort keeps exactly the articles of its input |
| Catalog.SortIdempotent | content/articles/utils.ts:4-8 | sorting a second time changes nothing |
| Catalog.SortSameDayIsIdentity | content/articles/utils.ts:5-7 | articles that share one date keep their order |
| Catalog.SortIsStable | content/articles/utils.ts:5-7 | for every date, the articles of that date appear in the same relative order before and after sorting |
| Catalog.InCategory | content/articles/utils.ts:12 | the filter predicate: an article's category is the one asked for |
| Catalog.Filter | content/articles/utils.ts:12 | the filter result is no longer than its input |
| Catalog.FilterMembers | content/articles/utils.ts:12 | the filter keeps exactly the articles that satisfy the predicate |
| Catalog.FilterCounts | content/articles/utils.ts:12 | each kept article occurs as often as in the input, each dropped one not at all |
| Catalog.FilterAppend | content/articles/utils.ts:12 | filtering distributes over concatenation |
| Catalog.FilterInsertLast | content/articles/utils.ts:10-16 | filtering commutes with one insertion step into a newest-first list |
| Catalog.FilterSortCommute | content/articles/utils.ts:4-16 | filtering the sorted list equals sorting the filtered list |
| Catalog.CategoryQueryIsFilteredListing | content/articles/utils.ts:4-16 | a category query equals the full listing restricted to that category, and holds exactly that category's articles |
| Catalog.FirstWithSlug | content/articles/utils.ts:18-20 | the position found is the first with the slug, or the length when no article has it |
| Catalog.Find | content/articles/utils.ts:18-20 | no result iff no article has the slug; a result has the slug and is the first article that does |
| Catalog.FindUnique | content/articles/utils.ts:18-20 | with unique slugs, looking up an article's slug finds that article |
| Catalog.FindAfterSort | content/articles/utils.ts:4-20 | with unique slugs, sorting the array first changes no lookup |
| Catalog.GetCategories | content/articles/utils.ts:22-24 | four categories, pairwise distinct, covering every category |
| Catalog.CategoriesExhaustive | content/articles/types.ts:1 | the four categories are the whole category type |
| Catalog.InsertLastSplit | content/articles/utils.ts:5-7 | inserting after the last article that is not older puts it between the two runs |
| Catalog.ShiftAfter | content/articles/utils.ts:5-7 | moves each older article of the prefix up one place, stopping at the first that is not older, and returns the freed position |
| Catalog.InsertIntoPrefix | content/articles/utils.ts:5-7 | the in-place insertion step equals the functional insertion step, and the rest of the array is unchanged |
| Catalog.SortPrefixStep | content/articles/utils.ts:5-7 | sorting one more element of a prefix inserts it into the sorted shorter prefix |
| Catalog.SortNewestFirst | content/articles/utils.ts:5-7 | the in-place sort leaves exactly the functional sort of the old contents |
| Catalog.ArticleStore.constructor | content/articles/data.ts:3 | the shared array holds the table |
| Catalog.ArticleStore.GetAllArticles | content/articles/utils.ts:4-8 | the shared array itself is sorted newest first in place and is what is returned |
| Catalog.ArticleStore.GetArticlesByCategory | content/articles/utils.ts:10-16 | a fresh array holding the sorted category articles; the shared array is not modified |
| Catalog.ArticleStore.GetArticleBySlug | content/articles/utils.ts:18-20 | a result has the slug and is the first article in the array's current order that does; no result iff no article has it |
| CatalogData.Table | content/articles/data.ts:3-269 | the eight articles of the table, in table order, with their slug, title, category, date, author and read time |
| CatalogData.TableSlugsUnique | content/articles/data.ts:6-235 | eight articles, no two sharing a slug |
| CatalogData.TableSlugs | content/articles/data.ts:6-235 | the slug column, row by row |
| CatalogData.TableDatesDistinct | content/articles/data.ts:31-265 | every date has its month in 1..12 and its day in 1..31, and no two articles share one |
| CatalogData.TableColumns | content/articles/data.ts:8-265 | the date and category columns, row by row |
| CatalogData.CategoryRows | content/articles/data.ts:8-237 | each category keeps its two rows, in table order |
| CatalogData.TwoPerCategory | content/articles/data.ts:8-237 | every category has exactly two articles |
| CatalogData.SortEight | content/articles/data.ts:31-265 | any eight rows with the table's dates sort into the listing order |
| CatalogData.ListingOrder | content/articles/data.ts:31-265 | the full listing is rows 1, 7, 3, 5, 2, 6, 4, 0 |
| CatalogData.ListingSlugs | content/articles/data.ts:6-265 | the full listing's slugs, from vc-compliance-checklist to vc-fund-admin-basics |
| CatalogData.SortNewerSecond | content/articles/utils.ts:5-7 | two articles where the second is newer sort into reverse order |
| CatalogData.PrivateEquityListing | content/articles/data.ts:71-127 | the private-equity query returns the 2024-02-10 article before the 2024-01-28 one |
| CatalogData.PrivateEquitySlugs | content/articles/data.ts:71-127 | that query's slugs are pe-fund-administration, then pe-waterfall-calculations |
| CatalogData.LookupKnownSlug | content/articles/utils.ts:18-20 | two known slugs find their own rows |
| CatalogData.LookupAfterListing | content/articles/utils.ts:4-20 | after the listing reorders the table, a lookup still finds the same article |
| CatalogData.LookupUnknownSlug | content/articles/utils.ts:18-20 | a slug that no article has finds nothing |
| CatalogData.ListingThenLookup | content/articles/utils.ts:4-20 | on the live store, the listing's slugs are all eight in newest-first order, and a later lookup finds the first table row |

## Left out

- The React component, `useState`/`useForm`/`watch`/`setValue` wiring, and rendering are
  not modelled; neither is the delayed `scrollIntoView` after submission. Submission is
  modelled as `Submit`: validate, then compute.
- `formatCurrency` and `formatAumLabel` are left out: they only format numbers for
  display, through `Intl.NumberFormat` and `toFixed`.
- The schema's e-mail syntax check belongs to the validation library. It is the
  parameter `isEmail`, and the model states only how its verdict is used.
- IEEE-754 doubles are not modelled. All arithmetic is exact, so where a product lands
  within rounding error of a half, the browser may round differently from the model.
- Looking up a multiplier table with a key such as "constructor", which the object's
  prototype supplies, gives NaN in JavaScript. This is not modelled: every unlisted key
  gets the 1.0 fallback. The form's select boxes cannot produce such keys.
- `new Date(...)` parsing is not modelled. Dates are `(year, month, day)` values, and
  `DayIndex` orders them as the parsed timestamps do.
- The sort algorithm of the JavaScript engine is not modelled. The model uses a stable
  insertion sort. Any stable sort with the same comparator gives the same result, which
  `SortByDate` pins down.
- The markdown body and the excerpt of each article, the `categoryInfo` display
  strings, and all presentational pages and components are left out.
- A cleared investors or funds input reads as NaN, which the schema refuses as a
  wrong type. A `real` cannot hold NaN, so this case is not modelled.
- Pricing.MediumMonotoneInInvestors: states that the price never falls, not that it
  strictly rises. The investor factor stops at 500, and a fractional change can round
  to the same price, so the code does not rise strictly. Whole steps below 500 are
  stated by Pricing.MediumStrictInInvestors.
- Pricing.MediumMonotone: states non-decreasing, since a larger AUM, investor count or
  number of funds can leave the rounded price where it was. Strict growth is stated
  for whole funds, whole investors below 500, trading and regulatory regimes by the
  Pricing.MediumStrictIn lemmas.
- Pricing.FundsMultiplier: states only the lower bound of 1. The factor's growth with
  the number of funds is stated by Pricing.MediumMonotoneInFunds.
- Pricing.RegulatoryMultiplier: states only the lower bound of 1, since the number of
  regimes a form may carry has no upper bound in the schema.
