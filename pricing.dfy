/**
 * The fund-administration pricing estimator: the form schema that guards the
 * questionnaire, the AUM tier table, the price formula with its three tiers,
 * the complexity-based recommendation, and the checkbox toggles that build
 * the regulatory and additional-service lists.
 *
 * Amounts are exact reals; JavaScript's Math.round is Floor(x + 1/2).
 */
module Pricing {
  import opened Wrappers

  // ---------------------------------------------------------------------------
  // The questionnaire and its validation
  // ---------------------------------------------------------------------------

  /** The questionnaire as the user fills it in. The three choice fields have no default
      and stay unset (None) until a selection is made; a selection is always one of the
      listed values. The numbers are plain numbers (no integrality check). */
  datatype Form = Form(
    fundType: Option<string>,
    aum: real,
    investors: real,
    funds: real,
    tradingFrequency: Option<string>,
    regulatory: seq<string>,
    reportingFrequency: Option<string>,
    additionalServices: seq<string>,
    email: Option<string>)

  /** The data the schema hands to the pricing once it accepts the form: the three
      choices made, as strings. */
  datatype FormData = FormData(
    fundType: string,
    aum: real,
    investors: real,
    funds: real,
    tradingFrequency: string,
    regulatory: seq<string>,
    reportingFrequency: string,
    additionalServices: seq<string>,
    email: Option<string>)

  datatype Field = FundType | Aum | Investors | Funds | TradingFrequency | ReportingFrequency | Email

  /** The kinds of issue the schema raises: a choice never made, a value below a minimum
      (a number under its bound or an empty string), a number above its maximum, a
      malformed email. */
  datatype IssueKind = Required | TooSmall | TooBig | InvalidEmail

  datatype Issue = Issue(field: Field, kind: IssueKind)

  /** All three choices have been made. */
  predicate Chosen(f: Form) {
    f.fundType.Some? && f.tradingFrequency.Some? && f.reportingFrequency.Some?
  }

  /** The form that holds exactly the data `d`. */
  function Entered(d: FormData): (f: Form)
    ensures Chosen(f)
  {
    Form(Some(d.fundType), d.aum, d.investors, d.funds, Some(d.tradingFrequency), d.regulatory,
         Some(d.reportingFrequency), d.additionalServices, d.email)
  }

  /** The data of a form whose choices are made; `Entered` is its inverse. */
  function Parsed(f: Form): (d: FormData)
    requires Chosen(f)
    ensures Entered(d) == f
  {
    FormData(f.fundType.value, f.aum, f.investors, f.funds, f.tradingFrequency.value, f.regulatory,
             f.reportingFrequency.value, f.additionalServices, f.email)
  }

  /** The non-email part of the schema: the bounds every pricing property relies on. */
  predicate InBounds(d: FormData) {
    && |d.fundType| >= 1
    && 1.0 <= d.aum <= 50000.0
    && 1.0 <= d.investors <= 10000.0
    && 1.0 <= d.funds <= 100.0
    && |d.tradingFrequency| >= 1
    && |d.reportingFrequency| >= 1
  }

  /** The email is optional, may be the empty string, and otherwise must satisfy the
      schema's email syntax check, which is given as `isEmail`. */
  predicate EmailAccepted(email: Option<string>, isEmail: string -> bool) {
    email.None? || email.value == "" || isEmail(email.value)
  }

  /** The questionnaire the schema accepts. */
  predicate Valid(f: Form, isEmail: string -> bool) {
    Chosen(f) && InBounds(Parsed(f)) && EmailAccepted(f.email, isEmail)
  }

  /** The issue a required string raises: unset, or set to the empty string. */
  function RequiredIssue(f: Field, s: Option<string>): (r: seq<Issue>)
    ensures r == [] <==> s.Some? && |s.value| >= 1
    ensures forall i :: i in r ==> i.field == f
    ensures Issue(f, Required) in r <==> s.None?
    ensures Issue(f, TooSmall) in r <==> s == Some("")
    ensures Issue(f, TooBig) !in r && Issue(f, InvalidEmail) !in r
  {
    match s
    case None => [Issue(f, Required)]
    case Some(v) => if |v| < 1 then [Issue(f, TooSmall)] else []
  }

  /** The issues a bounded number raises: its minimum and maximum are checked separately. */
  function RangeIssue(f: Field, x: real, lo: real, hi: real): (r: seq<Issue>)
    ensures r == [] <==> lo <= x <= hi
    ensures forall i :: i in r ==> i.field == f && (i.kind == TooSmall || i.kind == TooBig)
    ensures Issue(f, TooSmall) in r <==> x < lo
    ensures Issue(f, TooBig) in r <==> x > hi
  {
    (if x < lo then [Issue(f, TooSmall)] else []) + (if x > hi then [Issue(f, TooBig)] else [])
  }

  /** The issues of the three bounded numbers, which the schema lists consecutively. */
  function NumberIssues(f: Form): (r: seq<Issue>)
    ensures r == [] <==> 1.0 <= f.aum <= 50000.0 && 1.0 <= f.investors <= 10000.0 && 1.0 <= f.funds <= 100.0
    ensures forall i :: i in r ==> i.field in {Aum, Investors, Funds} && (i.kind == TooSmall || i.kind == TooBig)
    ensures Issue(Aum, TooSmall) in r <==> f.aum < 1.0
    ensures Issue(Aum, TooBig) in r <==> f.aum > 50000.0
    ensures Issue(Investors, TooSmall) in r <==> f.investors < 1.0
    ensures Issue(Investors, TooBig) in r <==> f.investors > 10000.0
    ensures Issue(Funds, TooSmall) in r <==> f.funds < 1.0
    ensures Issue(Funds, TooBig) in r <==> f.funds > 100.0
  {
    var aum := RangeIssue(Aum, f.aum, 1.0, 50000.0);
    var investors := RangeIssue(Investors, f.investors, 1.0, 10000.0);
    var funds := RangeIssue(Funds, f.funds, 1.0, 100.0);
    assert forall i :: i in aum + investors + funds <==> i in aum || i in investors || i in funds;
    aum + investors + funds
  }

  /** The issue a provided email raises when the syntax check rejects it. */
  function EmailIssue(email: Option<string>, isEmail: string -> bool): (r: seq<Issue>)
    ensures r == [] <==> EmailAccepted(email, isEmail)
    ensures forall i :: i in r ==> i == Issue(Email, InvalidEmail)
  {
    if EmailAccepted(email, isEmail) then [] else [Issue(Email, InvalidEmail)]
  }

  /** Every issue the schema reports for `f`, in the order of its fields; all of them,
      not just the first. The form is accepted exactly when there is none. */
  function Issues(f: Form, isEmail: string -> bool): (r: seq<Issue>)
    ensures r == [] <==> Valid(f, isEmail)
  {
    RequiredIssue(FundType, f.fundType) + NumberIssues(f)
    + RequiredIssue(TradingFrequency, f.tradingFrequency)
    + RequiredIssue(ReportingFrequency, f.reportingFrequency)
    + EmailIssue(f.email, isEmail)
  }

  /** An issue is reported when one of the fields reports it. */
  lemma IssuesParts(f: Form, isEmail: string -> bool, i: Issue)
    ensures i in Issues(f, isEmail) <==>
      || i in RequiredIssue(FundType, f.fundType)
      || i in NumberIssues(f)
      || i in RequiredIssue(TradingFrequency, f.tradingFrequency)
      || i in RequiredIssue(ReportingFrequency, f.reportingFrequency)
      || i in EmailIssue(f.email, isEmail)
  {
  }

  /** Each choice's issues, and the email's, are reported exactly when that field breaks
      its rule: "required" when it is unset, "too small" when it is the empty string. */
  lemma IssuesNameEachField(f: Form, isEmail: string -> bool)
    ensures Issue(FundType, Required) in Issues(f, isEmail) <==> f.fundType.None?
    ensures Issue(FundType, TooSmall) in Issues(f, isEmail) <==> f.fundType == Some("")
    ensures Issue(TradingFrequency, Required) in Issues(f, isEmail) <==> f.tradingFrequency.None?
    ensures Issue(TradingFrequency, TooSmall) in Issues(f, isEmail) <==> f.tradingFrequency == Some("")
    ensures Issue(ReportingFrequency, Required) in Issues(f, isEmail) <==> f.reportingFrequency.None?
    ensures Issue(ReportingFrequency, TooSmall) in Issues(f, isEmail) <==> f.reportingFrequency == Some("")
    ensures Issue(Email, InvalidEmail) in Issues(f, isEmail) <==> !EmailAccepted(f.email, isEmail)
  {
    IssuesParts(f, isEmail, Issue(FundType, Required));
    IssuesParts(f, isEmail, Issue(FundType, TooSmall));
    IssuesParts(f, isEmail, Issue(TradingFrequency, Required));
    IssuesParts(f, isEmail, Issue(TradingFrequency, TooSmall));
    IssuesParts(f, isEmail, Issue(ReportingFrequency, Required));
    IssuesParts(f, isEmail, Issue(ReportingFrequency, TooSmall));
    IssuesParts(f, isEmail, Issue(Email, InvalidEmail));
  }

  /** Each bound of each number is reported exactly when it is broken. */
  lemma IssuesNameEachBound(f: Form, isEmail: string -> bool)
    ensures forall fd, k :: fd in {Aum, Investors, Funds} ==>
              (Issue(fd, k) in Issues(f, isEmail) <==> Issue(fd, k) in NumberIssues(f))
  {
    forall fd, k | fd in {Aum, Investors, Funds}
      ensures Issue(fd, k) in Issues(f, isEmail) <==> Issue(fd, k) in NumberIssues(f)
    {
      IssuesParts(f, isEmail, Issue(fd, k));
    }
  }

  /** Parsing the form: its data when the schema accepts it, otherwise every issue. */
  function Validate(f: Form, isEmail: string -> bool): (r: Result<FormData, seq<Issue>>)
    ensures r.Ok? <==> Valid(f, isEmail)
    ensures r.Ok? ==> InBounds(r.value) && Entered(r.value) == f
    ensures r.Err? ==> r.error == Issues(f, isEmail) && |r.error| > 0
  {
    var issues := Issues(f, isEmail);
    if issues == [] then Ok(Parsed(f)) else Err(issues)
  }

  // ---------------------------------------------------------------------------
  // Rounding
  // ---------------------------------------------------------------------------

  /** JavaScript Math.round: the nearest integer, halves rounded toward +infinity. */
  function Round(x: real): (r: int)
    ensures r as real - 0.5 <= x < r as real + 0.5
  {
    (x + 0.5).Floor
  }

  lemma RoundMonotone(x: real, y: real)
    requires x <= y
    ensures Round(x) <= Round(y)
  {
  }

  /** Adding a whole number of dollars before rounding adds it after rounding. */
  lemma RoundShift(x: real, n: int)
    ensures Round(x + n as real) == Round(x) + n
  {
  }

  // ---------------------------------------------------------------------------
  // AUM tiers
  // ---------------------------------------------------------------------------

  datatype AumTier = AumTier(tier: int, base: int)

  /** Lower bounds (in millions) of tiers 2..8; tier k covers [Thresholds[k-2], Thresholds[k-1]). */
  const Thresholds: seq<real> := [10.0, 50.0, 100.0, 250.0, 500.0, 1000.0, 5000.0]

  /** Base prices of tiers 1..8. */
  const Bases: seq<int> := [25000, 50000, 75000, 100000, 150000, 200000, 350000, 500000]

  /** The tier whose half-open AUM interval holds `aum`, and its base price. */
  function GetAumTier(aum: real): (t: AumTier)
    ensures 1 <= t.tier <= 8 && t.base == Bases[t.tier - 1]
    ensures t.tier == 1 || Thresholds[t.tier - 2] <= aum
    ensures t.tier == 8 || aum < Thresholds[t.tier - 1]
  {
    if aum < 10.0 then AumTier(1, 25000)
    else if aum < 50.0 then AumTier(2, 50000)
    else if aum < 100.0 then AumTier(3, 75000)
    else if aum < 250.0 then AumTier(4, 100000)
    else if aum < 500.0 then AumTier(5, 150000)
    else if aum < 1000.0 then AumTier(6, 200000)
    else if aum < 5000.0 then AumTier(7, 350000)
    else AumTier(8, 500000)
  }

  /** Tier and base price never decrease as AUM grows. */
  lemma AumTierMonotone(a1: real, a2: real)
    requires a1 <= a2
    ensures GetAumTier(a1).tier <= GetAumTier(a2).tier
    ensures GetAumTier(a1).base <= GetAumTier(a2).base
  {
  }

  // ---------------------------------------------------------------------------
  // Multipliers
  // ---------------------------------------------------------------------------

  const FundTypes: seq<string> := ["hedge", "privateEquity", "ventureCapital", "realEstate", "fundOfFunds"]

  /** Trading frequencies in order of severity. */
  const TradingLevels: seq<string> := ["low", "medium", "high", "veryHigh"]

  const ReportingFrequencies: seq<string> := ["monthly", "quarterly", "annual"]

  /** Fund-type lookup with the 1.0 fallback for a value the table does not list. */
  function FundTypeMultiplier(fundType: string): (m: real)
    ensures 0.8 <= m <= 1.1
    ensures fundType !in FundTypes ==> m == 1.0
  {
    if fundType == "hedge" then 1.0
    else if fundType == "privateEquity" then 0.9
    else if fundType == "ventureCapital" then 0.85
    else if fundType == "realEstate" then 0.8
    else if fundType == "fundOfFunds" then 1.1
    else 1.0
  }

  function Min(x: real, y: real): real {
    if x <= y then x else y
  }

  /** The investor count counts up to 500 and no further. */
  function InvestorMultiplier(investors: real): (m: real)
    ensures investors >= 500.0 ==> m == 1.5
    ensures 1.0 <= investors ==> 1.001 <= m <= 1.5
  {
    1.0 + Min(investors, 500.0) / 1000.0
  }

  function FundsMultiplier(funds: real): (m: real)
    ensures 1.0 <= funds ==> 1.0 <= m
  {
    1.0 + (funds - 1.0) * 0.15
  }

  /** Trading-frequency lookup with the 1.0 fallback. */
  function TradingMultiplier(tradingFrequency: string): (m: real)
    ensures 0.9 <= m <= 1.4
    ensures tradingFrequency !in TradingLevels ==> m == 1.0
  {
    if tradingFrequency == "low" then 0.9
    else if tradingFrequency == "medium" then 1.0
    else if tradingFrequency == "high" then 1.2
    else if tradingFrequency == "veryHigh" then 1.4
    else 1.0
  }

  function RegulatoryMultiplier(count: nat): (m: real)
    ensures 1.0 <= m
  {
    1.0 + count as real * 0.1
  }

  /** Reporting-frequency lookup with the 1.0 fallback. */
  function ReportingMultiplier(reportingFrequency: string): (m: real)
    ensures 0.85 <= m <= 1.2
    ensures reportingFrequency !in ReportingFrequencies ==> m == 1.0
  {
    if reportingFrequency == "monthly" then 1.2
    else if reportingFrequency == "quarterly" then 1.0
    else if reportingFrequency == "annual" then 0.85
    else 1.0
  }

  /** The flat fee for additional services, added after the product. */
  function ServicesAdd(count: nat): (fee: int)
    ensures fee >= 0
  {
    count * 15000
  }

  // ---------------------------------------------------------------------------
  // The price formula
  // ---------------------------------------------------------------------------

  /** The shape of the medium-price expression: a base times six multipliers, plus a fee. */
  function Formula(base: real, m1: real, m2: real, m3: real, m4: real, m5: real, m6: real, fee: real): real {
    base * m1 * m2 * m3 * m4 * m5 * m6 + fee
  }

  /** The unrounded medium price: base times the six multipliers, plus the services fee.
      On accepted data the product alone is at least 25000 x 0.8 x 1.001 x 1.0 x 0.9 x 1.0 x 0.85. */
  function Unrounded(d: FormData): (r: real)
    ensures InBounds(d) ==> ServicesAdd(|d.additionalServices|) as real + 15315.3 <= r
  {
    FormulaAtLeast(
      GetAumTier(d.aum).base as real,
      FundTypeMultiplier(d.fundType),
      InvestorMultiplier(d.investors),
      FundsMultiplier(d.funds),
      TradingMultiplier(d.tradingFrequency),
      RegulatoryMultiplier(|d.regulatory|),
      ReportingMultiplier(d.reportingFrequency),
      ServicesAdd(|d.additionalServices|) as real);
    Formula(
      GetAumTier(d.aum).base as real,
      FundTypeMultiplier(d.fundType),
      InvestorMultiplier(d.investors),
      FundsMultiplier(d.funds),
      TradingMultiplier(d.tradingFrequency),
      RegulatoryMultiplier(|d.regulatory|),
      ReportingMultiplier(d.reportingFrequency),
      ServicesAdd(|d.additionalServices|) as real)
  }

  /** The medium price: the formula rounded by Math.round. On accepted data it is at least
      15315 dollars above the services fee. */
  function MediumPrice(d: FormData): (r: int)
    ensures InBounds(d) ==> 15315 + ServicesAdd(|d.additionalServices|) <= r
  {
    Round(Unrounded(d))
  }

  datatype Tier = Low | Medium | High

  datatype PricingResult = PricingResult(low: int, medium: int, high: int, recommended: Tier)

  /** The number of complexity conditions `d` meets. */
  function ComplexityScore(d: FormData): (s: int)
    ensures 0 <= s <= 5
    ensures s == 5 <==> d.investors > 100.0 && d.funds > 2.0 && d.tradingFrequency in ["high", "veryHigh"]
                        && |d.regulatory| > 2 && |d.additionalServices| > 2
    ensures s == 0 <==> d.investors <= 100.0 && d.funds <= 2.0 && d.tradingFrequency !in ["high", "veryHigh"]
                        && |d.regulatory| <= 2 && |d.additionalServices| <= 2
  {
    (if d.investors > 100.0 then 1 else 0)
    + (if d.funds > 2.0 then 1 else 0)
    + (if d.tradingFrequency == "high" || d.tradingFrequency == "veryHigh" then 1 else 0)
    + (if |d.regulatory| > 2 then 1 else 0)
    + (if |d.additionalServices| > 2 then 1 else 0)
  }

  /** The recommended tier: it starts as Medium and is overwritten by two sequential tests. */
  function Recommend(score: int): (t: Tier)
    ensures t == Low <==> score <= 1
    ensures t == High <==> score >= 4
    ensures t == Medium <==> 2 <= score <= 3
  {
    var initial := Medium;
    var afterLow := if score <= 1 then Low else initial;
    if score >= 4 then High else afterLow
  }

  /** The quote. Any medium price of at least 3 dollars yields three strictly ordered tiers. */
  function CalculatePricing(d: FormData): (r: PricingResult)
    ensures r.medium == MediumPrice(d)
    ensures r.medium >= 3 ==> 0 < r.low < r.medium < r.high
  {
    var medium := MediumPrice(d);
    PricingResult(
      Round(medium as real * 0.75),
      medium,
      Round(medium as real * 1.35),
      Recommend(ComplexityScore(d)))
  }

  /** Form submission: validate, and price only what the schema accepts. */
  function Submit(f: Form, isEmail: string -> bool): (r: Result<PricingResult, seq<Issue>>)
    ensures r.Ok? <==> Valid(f, isEmail)
    ensures r.Ok? ==> r.value == CalculatePricing(Parsed(f))
    ensures r.Ok? ==> 15315 <= r.value.medium && 0 < r.value.low < r.value.medium < r.value.high
    ensures r.Err? ==> r.error == Issues(f, isEmail) && |r.error| > 0
  {
    match Validate(f, isEmail)
    case Err(issues) => Err(issues)
    case Ok(data) =>
      MediumAtLeast(data);
      Ok(CalculatePricing(data))
  }

  // ---------------------------------------------------------------------------
  // Properties of the price formula
  // ---------------------------------------------------------------------------

  /** Low and high are the rounded 75% and 135% of medium, strictly around it. */
  lemma RangeOrdered(medium: int)
    requires medium >= 3
    ensures 0 < Round(medium as real * 0.75) < medium < Round(medium as real * 1.35)
  {
  }

  lemma MulLe(a: real, b: real, c: real, e: real)
    requires 0.0 <= a <= b && 0.0 <= c <= e
    ensures 0.0 <= a * c <= b * e
  {
    assert a * c <= b * c;
  }

  /** A gap of at least `g` between `x` and `y`, scaled by `c >= k`, is a gap of at least `g * k`. */
  lemma MulGap(x: real, y: real, g: real, c: real, k: real)
    requires x + g <= y && 0.0 <= g && 0.0 <= k <= c
    ensures x * c + g * k <= y * c
  {
    assert y * c == x * c + (y - x) * c;
    MulLe(g, y - x, k, c);
  }

  /** The smallest factors the schema admits bound the formula from below: the product is
      at least 15315.3 whatever the fee. */
  lemma FormulaAtLeast(b: real, m1: real, m2: real, m3: real, m4: real, m5: real, m6: real, fee: real)
    ensures 25000.0 <= b && 0.8 <= m1 && 1.001 <= m2 && 1.0 <= m3 && 0.9 <= m4 && 1.0 <= m5 && 0.85 <= m6
            ==> fee + 15315.3 <= Formula(b, m1, m2, m3, m4, m5, m6, fee)
  {
    if 25000.0 <= b && 0.8 <= m1 && 1.001 <= m2 && 1.0 <= m3 && 0.9 <= m4 && 1.0 <= m5 && 0.85 <= m6 {
      PrefixAtLeast(b, m1, m2, m3);
      var p := b * m1 * m2 * m3;
      MulLe(20020.0, p, 0.9, m4);
      MulLe(18018.0, p * m4, 1.0, m5);
      MulLe(18018.0, p * m4 * m5, 0.85, m6);
    }
  }

  /** Base, fund-type, investor and funds factors multiply to at least 25000 x 0.8 x 1.001 x 1.0. */
  lemma PrefixAtLeast(b: real, m1: real, m2: real, m3: real)
    requires 25000.0 <= b && 0.8 <= m1 && 1.001 <= m2 && 1.0 <= m3
    ensures 20020.0 <= b * m1 * m2 * m3
  {
    MulLe(25000.0, b, 0.8, m1);
    MulLe(20000.0, b * m1, 1.001, m2);
    MulLe(20020.0, b * m1 * m2, 1.0, m3);
  }

  /** The formula grows with each of its arguments when all of them are non-negative. */
  lemma FormulaMonotone(
    b: real, m1: real, m2: real, m3: real, m4: real, m5: real, m6: real, fee: real,
    b': real, n1: real, n2: real, n3: real, n4: real, n5: real, n6: real, fee': real)
    requires 0.0 <= b <= b' && 0.0 <= m1 <= n1 && 0.0 <= m2 <= n2 && 0.0 <= m3 <= n3
    requires 0.0 <= m4 <= n4 && 0.0 <= m5 <= n5 && 0.0 <= m6 <= n6 && fee <= fee'
    ensures Formula(b, m1, m2, m3, m4, m5, m6, fee) <= Formula(b', n1, n2, n3, n4, n5, n6, fee')
  {
    var p1, q1 := b * m1, b' * n1;
    MulLe(b, b', m1, n1);
    var p2, q2 := p1 * m2, q1 * n2;
    MulLe(p1, q1, m2, n2);
    var p3, q3 := p2 * m3, q2 * n3;
    MulLe(p2, q2, m3, n3);
    var p4, q4 := p3 * m4, q3 * n4;
    MulLe(p3, q3, m4, n4);
    var p5, q5 := p4 * m5, q4 * n5;
    MulLe(p4, q4, m5, n5);
    MulLe(p5, q5, m6, n6);
  }

  /** Medium is monotone in every input at once: larger base, multipliers and counts
      never give a lower price. */
  lemma MediumMonotone(d1: FormData, d2: FormData)
    requires InBounds(d1) && InBounds(d2)
    requires d1.aum <= d2.aum
    requires FundTypeMultiplier(d1.fundType) <= FundTypeMultiplier(d2.fundType)
    requires d1.investors <= d2.investors
    requires d1.funds <= d2.funds
    requires TradingMultiplier(d1.tradingFrequency) <= TradingMultiplier(d2.tradingFrequency)
    requires |d1.regulatory| <= |d2.regulatory|
    requires ReportingMultiplier(d1.reportingFrequency) <= ReportingMultiplier(d2.reportingFrequency)
    requires |d1.additionalServices| <= |d2.additionalServices|
    ensures MediumPrice(d1) <= MediumPrice(d2)
  {
    AumTierMonotone(d1.aum, d2.aum);
    FormulaMonotone(
      GetAumTier(d1.aum).base as real, FundTypeMultiplier(d1.fundType), InvestorMultiplier(d1.investors),
      FundsMultiplier(d1.funds), TradingMultiplier(d1.tradingFrequency), RegulatoryMultiplier(|d1.regulatory|),
      ReportingMultiplier(d1.reportingFrequency), ServicesAdd(|d1.additionalServices|) as real,
      GetAumTier(d2.aum).base as real, FundTypeMultiplier(d2.fundType), InvestorMultiplier(d2.investors),
      FundsMultiplier(d2.funds), TradingMultiplier(d2.tradingFrequency), RegulatoryMultiplier(|d2.regulatory|),
      ReportingMultiplier(d2.reportingFrequency), ServicesAdd(|d2.additionalServices|) as real);
    RoundMonotone(Unrounded(d1), Unrounded(d2));
  }

  lemma MediumMonotoneInAum(d: FormData, aum: real)
    requires InBounds(d) && d.aum <= aum <= 50000.0
    ensures MediumPrice(d) <= MediumPrice(d.(aum := aum))
  {
    MediumMonotone(d, d.(aum := aum));
  }

  lemma MediumMonotoneInInvestors(d: FormData, investors: real)
    requires InBounds(d) && d.investors <= investors <= 10000.0
    ensures MediumPrice(d) <= MediumPrice(d.(investors := investors))
  {
    MediumMonotone(d, d.(investors := investors));
  }

  /** Beyond 500 investors the count no longer affects the price. */
  lemma InvestorCapFlat(d: FormData, investors: real)
    requires d.investors >= 500.0 && investors >= 500.0
    ensures MediumPrice(d.(investors := investors)) == MediumPrice(d)
  {
    assert InvestorMultiplier(investors) == InvestorMultiplier(d.investors);
    assert Unrounded(d.(investors := investors)) == Unrounded(d);
  }

  lemma MediumMonotoneInFunds(d: FormData, funds: real)
    requires InBounds(d) && d.funds <= funds <= 100.0
    ensures MediumPrice(d) <= MediumPrice(d.(funds := funds))
  {
    MediumMonotone(d, d.(funds := funds));
  }

  lemma MediumMonotoneInRegulatory(d: FormData, regulatory: seq<string>)
    requires InBounds(d) && |d.regulatory| <= |regulatory|
    ensures MediumPrice(d) <= MediumPrice(d.(regulatory := regulatory))
  {
    MediumMonotone(d, d.(regulatory := regulatory));
  }

  /** A step of severity raises the unrounded medium price by at least 1701.7: the step
      adds at least 0.1 to the trading multiplier, and the factors before it multiply to at
      least 25000 x 0.8 x 1.001 x 1.0, those after it to at least 1.0 x 0.85. */
  lemma FormulaGapInTrading(b: real, m1: real, m2: real, m3: real, m4: real, m5: real, m6: real, fee: real, n4: real)
    requires 25000.0 <= b && 0.8 <= m1 && 1.001 <= m2 && 1.0 <= m3
    requires 0.0 <= m4 && m4 + 0.1 <= n4 && 1.0 <= m5 && 0.85 <= m6
    ensures Formula(b, m1, m2, m3, m4, m5, m6, fee) + 1701.7 <= Formula(b, m1, m2, m3, n4, m5, m6, fee)
  {
    var p := b * m1 * m2 * m3;
    PrefixAtLeast(b, m1, m2, m3);
    MulGap(m4, n4, 0.1, p, 20020.0);
    MulGap(p * m4, p * n4, 2002.0, m5, 1.0);
    MulGap(p * m4 * m5, p * n4 * m5, 2002.0, m6, 0.85);
  }

  /** One more regime raises the unrounded medium price by at least 1531.53: it adds 0.1 to
      the regulatory multiplier, and the other factors multiply to at least
      25000 x 0.8 x 1.001 x 1.0 x 0.9 x 0.85. */
  lemma FormulaGapInRegulatory(b: real, m1: real, m2: real, m3: real, m4: real, m5: real, m6: real, fee: real, n5: real)
    requires 25000.0 <= b && 0.8 <= m1 && 1.001 <= m2 && 1.0 <= m3
    requires 0.9 <= m4 && 0.0 <= m5 && m5 + 0.1 <= n5 && 0.85 <= m6
    ensures Formula(b, m1, m2, m3, m4, m5, m6, fee) + 1531.53 <= Formula(b, m1, m2, m3, m4, n5, m6, fee)
  {
    var p := b * m1 * m2 * m3;
    PrefixAtLeast(b, m1, m2, m3);
    MulLe(20020.0, p, 0.9, m4);
    MulGap(m5, n5, 0.1, p * m4, 18018.0);
    MulGap(p * m4 * m5, p * m4 * n5, 1801.8, m6, 0.85);
  }

  /** One more fund raises the unrounded medium price by at least 2297.295: it adds 0.15 to
      the funds multiplier, and the other factors multiply to at least
      25000 x 0.8 x 1.001 x 0.9 x 1.0 x 0.85. */
  lemma FormulaGapInFunds(b: real, m1: real, m2: real, m3: real, m4: real, m5: real, m6: real, fee: real, n3: real)
    requires 25000.0 <= b && 0.8 <= m1 && 1.001 <= m2
    requires 0.0 <= m3 && m3 + 0.15 <= n3 && 0.9 <= m4 && 1.0 <= m5 && 0.85 <= m6
    ensures Formula(b, m1, m2, m3, m4, m5, m6, fee) + 2297.295 <= Formula(b, m1, m2, n3, m4, m5, m6, fee)
  {
    var p := b * m1 * m2;
    MulLe(25000.0, b, 0.8, m1);
    MulLe(20000.0, b * m1, 1.001, m2);
    MulGap(m3, n3, 0.15, p, 20020.0);
    MulGap(p * m3, p * n3, 3003.0, m4, 0.9);
    MulGap(p * m3 * m4, p * n3 * m4, 2702.7, m5, 1.0);
    MulGap(p * m3 * m4 * m5, p * n3 * m4 * m5, 2702.7, m6, 0.85);
  }

  /** One more investor, below the cap, raises the unrounded medium price by at least 15.3:
      it adds 0.001 to the investor multiplier, and the other factors multiply to at least
      25000 x 0.8 x 1.0 x 0.9 x 1.0 x 0.85. */
  lemma FormulaGapInInvestors(b: real, m1: real, m2: real, m3: real, m4: real, m5: real, m6: real, fee: real, n2: real)
    requires 25000.0 <= b && 0.8 <= m1
    requires 0.0 <= m2 && m2 + 0.001 <= n2 && 1.0 <= m3 && 0.9 <= m4 && 1.0 <= m5 && 0.85 <= m6
    ensures Formula(b, m1, m2, m3, m4, m5, m6, fee) + 15.3 <= Formula(b, m1, n2, m3, m4, m5, m6, fee)
  {
    var p := b * m1;
    MulLe(25000.0, b, 0.8, m1);
    MulGap(m2, n2, 0.001, p, 20000.0);
    MulGap(p * m2, p * n2, 20.0, m3, 1.0);
    MulGap(p * m2 * m3, p * n2 * m3, 20.0, m4, 0.9);
    MulGap(p * m2 * m3 * m4, p * n2 * m3 * m4, 18.0, m5, 1.0);
    MulGap(p * m2 * m3 * m4 * m5, p * n2 * m3 * m4 * m5, 18.0, m6, 0.85);
  }

  /** Each added fund raises medium by at least 2297 dollars. */
  lemma {:induction false} MediumStrictInFunds(d: FormData, k: nat)
    requires InBounds(d) && d.funds + k as real <= 100.0
    ensures MediumPrice(d) + 2297 * k <= MediumPrice(d.(funds := d.funds + k as real))
    decreases k
  {
    if k > 0 {
      var d' := d.(funds := d.funds + 1.0);
      var base := GetAumTier(d.aum).base as real;
      assert base >= 25000.0;
      assert FundsMultiplier(d.funds) + 0.15 <= FundsMultiplier(d'.funds);
      FormulaGapInFunds(
        base, FundTypeMultiplier(d.fundType), InvestorMultiplier(d.investors), FundsMultiplier(d.funds),
        TradingMultiplier(d.tradingFrequency), RegulatoryMultiplier(|d.regulatory|), ReportingMultiplier(d.reportingFrequency),
        ServicesAdd(|d.additionalServices|) as real, FundsMultiplier(d'.funds));
      assert Unrounded(d) + 2297.0 <= Unrounded(d');
      RoundShift(Unrounded(d), 2297);
      RoundMonotone(Unrounded(d) + 2297.0, Unrounded(d'));
      MediumStrictInFunds(d', k - 1);
      assert d'.(funds := d'.funds + (k - 1) as real) == d.(funds := d.funds + k as real);
    }
  }

  /** Below the cap of 500, each added investor raises medium by at least 15 dollars. */
  lemma {:induction false} MediumStrictInInvestors(d: FormData, k: nat)
    requires InBounds(d) && d.investors + k as real <= 500.0
    ensures MediumPrice(d) + 15 * k <= MediumPrice(d.(investors := d.investors + k as real))
    decreases k
  {
    if k > 0 {
      var d' := d.(investors := d.investors + 1.0);
      var base := GetAumTier(d.aum).base as real;
      assert base >= 25000.0;
      assert InvestorMultiplier(d.investors) + 0.001 <= InvestorMultiplier(d'.investors);
      FormulaGapInInvestors(
        base, FundTypeMultiplier(d.fundType), InvestorMultiplier(d.investors), FundsMultiplier(d.funds),
        TradingMultiplier(d.tradingFrequency), RegulatoryMultiplier(|d.regulatory|), ReportingMultiplier(d.reportingFrequency),
        ServicesAdd(|d.additionalServices|) as real, InvestorMultiplier(d'.investors));
      assert Unrounded(d) + 15.0 <= Unrounded(d');
      RoundShift(Unrounded(d), 15);
      RoundMonotone(Unrounded(d) + 15.0, Unrounded(d'));
      MediumStrictInInvestors(d', k - 1);
      assert d'.(investors := d'.investors + (k - 1) as real) == d.(investors := d.investors + k as real);
    }
  }

  /** Each added regime raises medium by at least 1531 dollars. */
  lemma {:induction false} MediumStrictInRegulatory(d: FormData, regulatory: seq<string>)
    requires InBounds(d) && |d.regulatory| < |regulatory|
    ensures MediumPrice(d) + 1531 * (|regulatory| - |d.regulatory|) <= MediumPrice(d.(regulatory := regulatory))
    decreases |regulatory| - |d.regulatory|
  {
    var d' := d.(regulatory := regulatory[..|d.regulatory| + 1]);
    var base := GetAumTier(d.aum).base as real;
    assert base >= 25000.0;
    FormulaGapInRegulatory(
      base, FundTypeMultiplier(d.fundType), InvestorMultiplier(d.investors), FundsMultiplier(d.funds),
      TradingMultiplier(d.tradingFrequency), RegulatoryMultiplier(|d.regulatory|), ReportingMultiplier(d.reportingFrequency),
      ServicesAdd(|d.additionalServices|) as real, RegulatoryMultiplier(|d'.regulatory|));
    assert Unrounded(d) + 1531.0 <= Unrounded(d');
    RoundShift(Unrounded(d), 1531);
    RoundMonotone(Unrounded(d) + 1531.0, Unrounded(d'));
    if |d'.regulatory| < |regulatory| {
      MediumStrictInRegulatory(d', regulatory);
      assert d'.(regulatory := regulatory) == d.(regulatory := regulatory);
    }
  }

  /** Each step of trading severity low < medium < high < veryHigh raises medium by at
      least 1701 dollars. */
  lemma {:induction false} MediumStrictInTrading(d: FormData, i: nat, j: nat)
    requires InBounds(d) && i < j < |TradingLevels|
    ensures MediumPrice(d.(tradingFrequency := TradingLevels[i])) + 1701 * (j - i)
            <= MediumPrice(d.(tradingFrequency := TradingLevels[j]))
    decreases j - i
  {
    var lo := d.(tradingFrequency := TradingLevels[i]);
    var hi := d.(tradingFrequency := TradingLevels[i + 1]);
    var base := GetAumTier(d.aum).base as real;
    assert base >= 25000.0;
    assert TradingMultiplier(TradingLevels[i]) + 0.1 <= TradingMultiplier(TradingLevels[i + 1]);
    FormulaGapInTrading(
      base, FundTypeMultiplier(d.fundType), InvestorMultiplier(d.investors), FundsMultiplier(d.funds),
      TradingMultiplier(lo.tradingFrequency), RegulatoryMultiplier(|d.regulatory|), ReportingMultiplier(d.reportingFrequency),
      ServicesAdd(|d.additionalServices|) as real, TradingMultiplier(hi.tradingFrequency));
    assert Unrounded(lo) + 1701.0 <= Unrounded(hi);
    RoundShift(Unrounded(lo), 1701);
    RoundMonotone(Unrounded(lo) + 1701.0, Unrounded(hi));
    if i + 1 < j {
      MediumStrictInTrading(d, i + 1, j);
    }
  }

  /** Trading severity low < medium < high < veryHigh never lowers the price. */
  lemma MediumMonotoneInTrading(d: FormData, i: nat, j: nat)
    requires InBounds(d) && i <= j < |TradingLevels|
    ensures MediumPrice(d.(tradingFrequency := TradingLevels[i])) <= MediumPrice(d.(tradingFrequency := TradingLevels[j]))
  {
    assert TradingMultiplier(TradingLevels[i]) <= TradingMultiplier(TradingLevels[j]);
    MediumMonotone(d.(tradingFrequency := TradingLevels[i]), d.(tradingFrequency := TradingLevels[j]));
  }

  /** The services fee sits outside the product: each service moves medium by exactly 15000,
      whatever the rest of the form says. */
  lemma ServicesAreFlatFee(d: FormData, services: seq<string>)
    ensures MediumPrice(d.(additionalServices := services))
            == MediumPrice(d) + 15000 * (|services| - |d.additionalServices|)
  {
    var d' := d.(additionalServices := services);
    var n := 15000 * (|services| - |d.additionalServices|);
    assert Unrounded(d') == Unrounded(d) + n as real;
    RoundShift(Unrounded(d), n);
  }

  /** The cheapest questionnaire the schema admits. */
  const Cheapest := FormData("realEstate", 1.0, 1.0, 1.0, "low", [], "annual", [], None)

  /** For accepted input medium is at least 15315 dollars, so the three tiers are positive
      and strictly ordered. */
  lemma MediumAtLeast(d: FormData)
    requires InBounds(d)
    ensures MediumPrice(d) >= 15315
    ensures 0 < CalculatePricing(d).low < CalculatePricing(d).medium < CalculatePricing(d).high
  {
  }

  /** The bound is attained: the cheapest questionnaire (25000 x 0.8 x 1.001 x 0.9 x 0.85 =
      15315.3) is quoted 11486 / 15315 / 20675, and no accepted form is quoted less. */
  lemma CheapestQuote(isEmail: string -> bool)
    ensures Submit(Entered(Cheapest), isEmail) == Ok(PricingResult(11486, 15315, 20675, Low))
    ensures forall f :: Valid(f, isEmail) ==> Submit(Entered(Cheapest), isEmail).value.medium <= Submit(f, isEmail).value.medium
  {
    assert Unrounded(Cheapest) == 15315.3;
  }

  // ---------------------------------------------------------------------------
  // Properties of the recommendation
  // ---------------------------------------------------------------------------

  function Rank(t: Tier): int {
    match t
    case Low => 0
    case Medium => 1
    case High => 2
  }

  /** The recommendation is a monotone step function of the score, and one more point
      moves it by at most one tier. */
  lemma RecommendMonotone(s1: int, s2: int)
    requires s1 <= s2
    ensures Rank(Recommend(s1)) <= Rank(Recommend(s2))
    ensures s2 == s1 + 1 ==> Rank(Recommend(s2)) <= Rank(Recommend(s1)) + 1
  {
  }

  /** A form that meets more complexity conditions never gets a lower recommendation. */
  lemma RecommendationMonotone(d1: FormData, d2: FormData)
    requires d1.investors <= d2.investors && d1.funds <= d2.funds
    requires |d1.regulatory| <= |d2.regulatory| && |d1.additionalServices| <= |d2.additionalServices|
    requires d1.tradingFrequency in ["high", "veryHigh"] ==> d2.tradingFrequency in ["high", "veryHigh"]
    ensures ComplexityScore(d1) <= ComplexityScore(d2)
    ensures Rank(CalculatePricing(d1).recommended) <= Rank(CalculatePricing(d2).recommended)
  {
    RecommendMonotone(ComplexityScore(d1), ComplexityScore(d2));
  }

  /** Trading earns its complexity point for exactly "high" and "veryHigh"; any other
      string, recognised or not, earns none. */
  lemma TradingPoint(d: FormData, tradingFrequency: string)
    ensures ComplexityScore(d.(tradingFrequency := tradingFrequency))
            == ComplexityScore(d.(tradingFrequency := "low"))
               + (if tradingFrequency == "high" || tradingFrequency == "veryHigh" then 1 else 0)
  {
  }

  // ---------------------------------------------------------------------------
  // Checkbox toggles
  // ---------------------------------------------------------------------------

  /** The list with every occurrence of `v` removed (a `filter(x => x !== v)`). */
  function Without(s: seq<string>, v: string): (r: seq<string>)
    ensures v !in r
    ensures forall x :: x != v ==> multiset(r)[x] == multiset(s)[x]
    ensures |r| == |s| - multiset(s)[v]
  {
    if s == [] then []
    else
      assert s == [s[0]] + s[1..];
      if s[0] == v then Without(s[1..], v)
      else [s[0]] + Without(s[1..], v)
  }

  /** Removing occurrences is done piecewise, so the kept entries stay in order. */
  lemma {:induction false} WithoutAppend(a: seq<string>, b: seq<string>, v: string)
    ensures Without(a + b, v) == Without(a, v) + Without(b, v)
  {
    if a == [] {
      assert a + b == b;
    } else {
      assert (a + b)[1..] == a[1..] + b;
      WithoutAppend(a[1..], b, v);
    }
  }

  /** Removing a value that is absent changes nothing. */
  lemma {:induction false} WithoutAbsent(s: seq<string>, v: string)
    requires v !in s
    ensures Without(s, v) == s
  {
    if s != [] {
      WithoutAbsent(s[1..], v);
    }
  }

  /** A checkbox change: checking appends the value at the end (a second time if it is
      already there); unchecking removes every occurrence. */
  function Toggle(current: seq<string>, value: string, checked: bool): (r: seq<string>)
    ensures checked ==> |r| == |current| + 1 && r[..|current|] == current && r[|current|] == value
    ensures checked ==> multiset(r)[value] == multiset(current)[value] + 1
    ensures !checked ==> value !in r && |r| == |current| - multiset(current)[value]
    ensures forall x :: x != value ==> multiset(r)[x] == multiset(current)[x]
  {
    if checked then current + [value] else Without(current, value)
  }

  /** Checking then unchecking a value that was not selected restores the list. */
  lemma ToggleRoundTrip(current: seq<string>, value: string)
    requires value !in current
    ensures Toggle(Toggle(current, value, true), value, false) == current
  {
    WithoutAppend(current, [value], value);
    WithoutAbsent(current, value);
    assert Without([value], value) == [];
  }

  /** Unchecking twice is the same as unchecking once. */
  lemma ToggleOffIdempotent(current: seq<string>, value: string)
    ensures Toggle(Toggle(current, value, false), value, false) == Toggle(current, value, false)
  {
    WithoutAbsent(Without(current, value), value);
  }

  /** The regulatory checkboxes never lower the price when checked and never raise it
      when unchecked. */
  lemma RegulatoryToggleMonotone(d: FormData, value: string)
    requires InBounds(d)
    ensures MediumPrice(d) <= MediumPrice(d.(regulatory := Toggle(d.regulatory, value, true)))
    ensures MediumPrice(d.(regulatory := Toggle(d.regulatory, value, false))) <= MediumPrice(d)
  {
    MediumMonotoneInRegulatory(d, Toggle(d.regulatory, value, true));
    MediumMonotone(d.(regulatory := Toggle(d.regulatory, value, false)), d);
  }

  /** Checking a service adds exactly 15000; unchecking removes 15000 per occurrence. */
  lemma ServiceToggleFee(d: FormData, value: string)
    ensures MediumPrice(d.(additionalServices := Toggle(d.additionalServices, value, true))) == MediumPrice(d) + 15000
    ensures MediumPrice(d.(additionalServices := Toggle(d.additionalServices, value, false)))
            == MediumPrice(d) - 15000 * multiset(d.additionalServices)[value]
  {
    ServicesAreFlatFee(d, Toggle(d.additionalServices, value, true));
    ServicesAreFlatFee(d, Toggle(d.additionalServices, value, false));
  }

  // ---------------------------------------------------------------------------
  // Worked examples
  // ---------------------------------------------------------------------------

  /** A small hedge fund: 25000 x 1.01 x 0.9 = 22725, range 17044..30679, recommended low. */
  lemma SmallHedgeFundQuote(isEmail: string -> bool)
    ensures Submit(Form(Some("hedge"), 5.0, 10.0, 1.0, Some("low"), [], Some("quarterly"), [], None), isEmail)
            == Ok(PricingResult(17044, 22725, 30679, Low))
  {
    var d := FormData("hedge", 5.0, 10.0, 1.0, "low", [], "quarterly", [], None);
    assert Unrounded(d) == 22725.0;
  }

  /** A complex private-equity fund meets all five conditions and is recommended high. */
  lemma ComplexPrivateEquityQuote(isEmail: string -> bool)
    ensures Submit(Form(Some("privateEquity"), 600.0, 300.0, 4.0, Some("high"), ["sec", "finra", "erisa"],
                        Some("monthly"), ["tax", "audit", "portal"], Some("")), isEmail)
            == Ok(PricingResult(510128, 680170, 918230, High))
  {
    var d := FormData("privateEquity", 600.0, 300.0, 4.0, "high", ["sec", "finra", "erisa"],
                      "monthly", ["tax", "audit", "portal"], Some(""));
    assert GetAumTier(d.aum).base == 200000;
    assert InvestorMultiplier(d.investors) == 1.3;
    assert FundsMultiplier(d.funds) == 1.45;
    assert RegulatoryMultiplier(3) == 1.3;
    assert Unrounded(d) == 680169.6;
    assert MediumPrice(d) == 680170;
    assert ComplexityScore(d) == 5;
  }

  /** An AUM of zero is rejected with an issue on that field, and nothing is priced. */
  lemma ZeroAumRejected(f: Form, isEmail: string -> bool)
    requires f.aum == 0.0
    ensures Submit(f, isEmail).Err? && Issue(Aum, TooSmall) in Submit(f, isEmail).error
  {
  }

  /** Submitting before choosing a fund type is rejected as "required", not as "too small". */
  lemma UnsetFundTypeRequired(f: Form, isEmail: string -> bool)
    requires f.fundType.None?
    ensures Submit(f, isEmail).Err?
    ensures Issue(FundType, Required) in Submit(f, isEmail).error
    ensures Issue(FundType, TooSmall) !in Submit(f, isEmail).error
  {
    IssuesNameEachField(f, isEmail);
  }
}
