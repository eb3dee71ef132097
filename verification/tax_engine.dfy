/**
 * The federal income-tax engine: filing statuses, the 2024 bracket and
 * standard-deduction tables (IRS Revenue Procedure 2023-34), and the
 * progressive bracket walk that produces the total tax, the marginal and
 * effective rates, and a per-bracket breakdown.
 *
 * Money and rates are exact reals; the top bracket's infinite upper bound is
 * the `Unbounded` constructor.
 */
module TaxEngine {
  import opened Wrappers
  import opened Text

  type Money = real
  type Rate = real

  /** The engine's error kinds, with the text their `Display` renders. */
  datatype TaxError = InvalidFilingStatus(input: string) | UnsupportedState(input: string) {
    /** The rendered text names the kind in its first letter and ends with the offending input. */
    function Message(): (r: string)
      ensures |input| < |r| && r[|r| - |input|..] == input
      ensures InvalidFilingStatus? <==> r[0] == 'I'
      ensures UnsupportedState? <==> r[0] == 'U'
    {
      match this
      case InvalidFilingStatus(s) => "Invalid filing status: " + s
      case UnsupportedState(s) => "Unsupported state: " + s
    }
  }

  /** Distinct errors render distinct texts, so the message determines the error. */
  lemma MessageInjective(e1: TaxError, e2: TaxError)
    requires e1.Message() == e2.Message()
    ensures e1 == e2
  {
    var m := e1.Message();
    assert e1.InvalidFilingStatus? == e2.InvalidFilingStatus?;
    assert |e1.input| == |e2.input| by {
      if e1.InvalidFilingStatus? {
        assert |m| == 23 + |e1.input| == 23 + |e2.input|;
      } else {
        assert |m| == 19 + |e1.input| == 19 + |e2.input|;
      }
    }
    assert e1.input == m[|m| - |e1.input|..] == e2.input;
  }

  // ---------------------------------------------------------------------
  // Filing status
  // ---------------------------------------------------------------------

  datatype FilingStatus =
    | Single
    | MarriedFilingJointly
    | MarriedFilingSeparately
    | HeadOfHousehold
    | QualifyingWidow

  /** The lower-case spellings `from_str` accepts for each status. */
  function FilingStatusAliases(f: FilingStatus): set<string> {
    match f
    case Single => {"single"}
    case MarriedFilingJointly => {"married_filing_jointly", "married filing jointly", "mfj"}
    case MarriedFilingSeparately => {"married_filing_separately", "married filing separately", "mfs"}
    case HeadOfHousehold => {"head_of_household", "head of household", "hoh"}
    case QualifyingWidow => {"qualifying_widow", "qualifying widow", "qw"}
  }

  /** `FilingStatus::from_str`: case-insensitive match against the aliases. */
  function ParseFilingStatus(s: string): (r: Result<FilingStatus, TaxError>)
    ensures r.Ok? ==> Lower(s) in FilingStatusAliases(r.value)
    ensures r.Err? ==> r.error == InvalidFilingStatus(s)
    ensures r.Err? ==> forall f :: Lower(s) !in FilingStatusAliases(f)
  {
    var l := Lower(s);
    if l == "single" then Ok(Single)
    else if l == "married_filing_jointly" || l == "married filing jointly" || l == "mfj" then Ok(MarriedFilingJointly)
    else if l == "married_filing_separately" || l == "married filing separately" || l == "mfs" then Ok(MarriedFilingSeparately)
    else if l == "head_of_household" || l == "head of household" || l == "hoh" then Ok(HeadOfHousehold)
    else if l == "qualifying_widow" || l == "qualifying widow" || l == "qw" then Ok(QualifyingWidow)
    else Err(InvalidFilingStatus(s))
  }

  /**
   * `FilingStatus::as_str`: the display label. It parses back to its status,
   * except "Qualifying Widow(er)", which is none of the accepted spellings.
   */
  function FilingStatusLabel(f: FilingStatus): (r: string)
    ensures f != QualifyingWidow ==> ParseFilingStatus(r) == Ok(f)
    ensures f == QualifyingWidow ==> ParseFilingStatus(r).Err?
  {
    match f
    case Single =>
      OtherLabelsLowered();
      ParseFilingStatusAccepts(f, "Single");
      "Single"
    case MarriedFilingJointly =>
      JointLabelLowered();
      ParseFilingStatusAccepts(f, "Married Filing Jointly");
      "Married Filing Jointly"
    case MarriedFilingSeparately =>
      SeparateLabelLowered();
      ParseFilingStatusAccepts(f, "Married Filing Separately");
      "Married Filing Separately"
    case HeadOfHousehold =>
      OtherLabelsLowered();
      ParseFilingStatusAccepts(f, "Head of Household");
      "Head of Household"
    case QualifyingWidow =>
      OtherLabelsLowered();
      "Qualifying Widow(er)"
  }

  /** The labels, lower-cased. */
  lemma JointLabelLowered()
    ensures Lower("Married Filing Jointly") == "married filing jointly"
  {
  }

  lemma SeparateLabelLowered()
    ensures Lower("Married Filing Separately") == "married filing separately"
  {
  }

  lemma OtherLabelsLowered()
    ensures Lower("Single") == "single"
    ensures Lower("Head of Household") == "head of household"
    ensures Lower("Qualifying Widow(er)") == "qualifying widow(er)"
  {
  }

  /** No spelling is accepted for two different statuses. */
  lemma FilingStatusAliasesDisjoint(f: FilingStatus, g: FilingStatus)
    requires f != g
    ensures FilingStatusAliases(f) !! FilingStatusAliases(g)
  {
  }

  /** Every alias of a status, in any letter case, parses to that status. */
  lemma ParseFilingStatusAccepts(f: FilingStatus, s: string)
    requires Lower(s) in FilingStatusAliases(f)
    ensures ParseFilingStatus(s) == Ok(f)
  {
    var r := ParseFilingStatus(s);
    if r.Ok? && r.value != f {
      FilingStatusAliasesDisjoint(f, r.value);
    }
  }

  // ---------------------------------------------------------------------
  // Brackets and tables
  // ---------------------------------------------------------------------

  /** A bracket's upper limit: a finite amount, or no limit (`f64::INFINITY`). */
  datatype Bound = Finite(value: Money) | Unbounded

  datatype TaxBracket = TaxBracket(min: Money, max: Bound, rate: Rate)

  /** One bracket's share of a calculation. */
  datatype BracketDetail = BracketDetail(min: Money, max: Bound, rate: Rate, taxableAmount: Money, taxAmount: Money)

  datatype TaxCalculation = TaxCalculation(
    totalTax: Money,
    effectiveRate: Rate,
    marginalRate: Rate,
    bracketDetails: seq<BracketDetail>)

  const SingleBrackets: seq<TaxBracket> := [
    TaxBracket(0.0, Finite(11_600.0), 0.10),
    TaxBracket(11_600.0, Finite(47_150.0), 0.12),
    TaxBracket(47_150.0, Finite(100_525.0), 0.22),
    TaxBracket(100_525.0, Finite(191_950.0), 0.24),
    TaxBracket(191_950.0, Finite(243_725.0), 0.32),
    TaxBracket(243_725.0, Finite(609_350.0), 0.35),
    TaxBracket(609_350.0, Unbounded, 0.37)
  ]

  const MarriedFilingJointlyBrackets: seq<TaxBracket> := [
    TaxBracket(0.0, Finite(23_200.0), 0.10),
    TaxBracket(23_200.0, Finite(94_300.0), 0.12),
    TaxBracket(94_300.0, Finite(201_050.0), 0.22),
    TaxBracket(201_050.0, Finite(383_900.0), 0.24),
    TaxBracket(383_900.0, Finite(487_450.0), 0.32),
    TaxBracket(487_450.0, Finite(731_200.0), 0.35),
    TaxBracket(731_200.0, Unbounded, 0.37)
  ]

  const MarriedFilingSeparatelyBrackets: seq<TaxBracket> := [
    TaxBracket(0.0, Finite(11_600.0), 0.10),
    TaxBracket(11_600.0, Finite(47_150.0), 0.12),
    TaxBracket(47_150.0, Finite(100_525.0), 0.22),
    TaxBracket(100_525.0, Finite(191_950.0), 0.24),
    TaxBracket(191_950.0, Finite(243_725.0), 0.32),
    TaxBracket(243_725.0, Finite(365_600.0), 0.35),
    TaxBracket(365_600.0, Unbounded, 0.37)
  ]

  const HeadOfHouseholdBrackets: seq<TaxBracket> := [
    TaxBracket(0.0, Finite(16_550.0), 0.10),
    TaxBracket(16_550.0, Finite(63_100.0), 0.12),
    TaxBracket(63_100.0, Finite(100_500.0), 0.22),
    TaxBracket(100_500.0, Finite(191_950.0), 0.24),
    TaxBracket(191_950.0, Finite(243_700.0), 0.32),
    TaxBracket(243_700.0, Finite(609_350.0), 0.35),
    TaxBracket(609_350.0, Unbounded, 0.37)
  ]

  /** Qualifying widow(er)s share the married-filing-jointly table. */
  const QualifyingWidowBrackets: seq<TaxBracket> := MarriedFilingJointlyBrackets

  /**
   * `Chain(bs, lo)`: `bs` is a well-formed run of brackets starting at `lo`.
   * Each bracket begins where the previous one ended, is non-empty, has a
   * rate in [0, 1] strictly above the previous rate, and only the last one
   * is unbounded.
   */
  predicate Chain(bs: seq<TaxBracket>, lo: Money)
    decreases |bs|
  {
    && |bs| > 0
    && bs[0].min == lo
    && 0.0 <= bs[0].rate <= 1.0
    && match bs[0].max {
         case Unbounded => |bs| == 1
         case Finite(m) => lo < m && |bs| > 1 && bs[0].rate < bs[1].rate && Chain(bs[1..], m)
       }
  }

  /** A bracket table: a well-formed run of brackets starting at zero. */
  predicate ValidTable(bs: seq<TaxBracket>) {
    Chain(bs, 0.0)
  }

  /** The shape of a well-formed run, stated position by position. */
  lemma {:induction false} ChainShape(bs: seq<TaxBracket>, lo: Money)
    requires Chain(bs, lo)
    ensures bs[0].min == lo
    ensures forall i :: 0 <= i < |bs| - 1 ==> bs[i].max == Finite(bs[i + 1].min)
    ensures bs[|bs| - 1].max == Unbounded
    ensures forall i, j :: 0 <= i < j < |bs| ==> bs[i].rate < bs[j].rate
    ensures forall i, j :: 0 <= i < j < |bs| ==> bs[i].min < bs[j].min
    ensures forall i :: 0 <= i < |bs| ==> 0.0 <= bs[i].rate <= 1.0
    decreases |bs|
  {
    match bs[0].max
    case Unbounded =>
    case Finite(m) =>
      var tail := bs[1..];
      ChainShape(tail, m);
      assert forall i :: 1 <= i < |bs| ==> bs[i] == tail[i - 1];
  }

  /**
   * Every table starts at 0, is contiguous, has exactly one unbounded
   * bracket (the last), and has strictly increasing rates.
   */
  lemma TableShape(bs: seq<TaxBracket>)
    requires ValidTable(bs)
    ensures bs[0].min == 0.0
    ensures forall i :: 0 <= i < |bs| - 1 ==> bs[i].max == Finite(bs[i + 1].min)
    ensures forall i :: 0 <= i < |bs| ==> (bs[i].max == Unbounded <==> i == |bs| - 1)
    ensures forall i, j :: 0 <= i < j < |bs| ==> bs[i].rate < bs[j].rate
  {
    ChainShape(bs, 0.0);
    forall i | 0 <= i < |bs| - 1
      ensures bs[i].max != Unbounded
    {
      assert bs[i].max == Finite(bs[i + 1].min);
    }
  }

  /** `get_brackets`: the table for a status. The tax year is ignored. */
  function Brackets(status: FilingStatus, taxYear: int): (r: seq<TaxBracket>)
    ensures ValidTable(r)
    ensures |r| == 7
  {
    match status
    case Single => SingleTableValid(); SingleBrackets
    case MarriedFilingJointly => JointTableValid(); MarriedFilingJointlyBrackets
    case MarriedFilingSeparately => SeparateTableValid(); MarriedFilingSeparatelyBrackets
    case HeadOfHousehold => HouseholdTableValid(); HeadOfHouseholdBrackets
    case QualifyingWidow => JointTableValid(); QualifyingWidowBrackets
  }

  lemma SingleTableValid()
    ensures ValidTable(SingleBrackets)
  {
    var bs := SingleBrackets;
    assert Chain(bs[6..], 609_350.0);
    assert Chain(bs[5..], 243_725.0);
    assert Chain(bs[4..], 191_950.0);
    assert Chain(bs[3..], 100_525.0);
    assert Chain(bs[2..], 47_150.0);
    assert Chain(bs[1..], 11_600.0);
  }

  lemma JointTableValid()
    ensures ValidTable(MarriedFilingJointlyBrackets)
  {
    var bs := MarriedFilingJointlyBrackets;
    assert Chain(bs[6..], 731_200.0);
    assert Chain(bs[5..], 487_450.0);
    assert Chain(bs[4..], 383_900.0);
    assert Chain(bs[3..], 201_050.0);
    assert Chain(bs[2..], 94_300.0);
    assert Chain(bs[1..], 23_200.0);
  }

  lemma SeparateTableValid()
    ensures ValidTable(MarriedFilingSeparatelyBrackets)
  {
    var bs := MarriedFilingSeparatelyBrackets;
    assert Chain(bs[6..], 365_600.0);
    assert Chain(bs[5..], 243_725.0);
    assert Chain(bs[4..], 191_950.0);
    assert Chain(bs[3..], 100_525.0);
    assert Chain(bs[2..], 47_150.0);
    assert Chain(bs[1..], 11_600.0);
  }

  lemma HouseholdTableValid()
    ensures ValidTable(HeadOfHouseholdBrackets)
  {
    var bs := HeadOfHouseholdBrackets;
    assert Chain(bs[6..], 609_350.0);
    assert Chain(bs[5..], 243_700.0);
    assert Chain(bs[4..], 191_950.0);
    assert Chain(bs[3..], 100_500.0);
    assert Chain(bs[2..], 63_100.0);
    assert Chain(bs[1..], 16_550.0);
  }

  /** The tables do not depend on the year, and widow(er)s use the joint table. */
  lemma BracketsLookup(status: FilingStatus, y1: int, y2: int)
    ensures Brackets(status, y1) == Brackets(status, y2)
    ensures Brackets(QualifyingWidow, y1) == Brackets(MarriedFilingJointly, y2)
  {
  }

  /** `get_standard_deduction`: the 2024 amount for a status. The tax year is ignored. */
  function StandardDeduction(status: FilingStatus, taxYear: int): (r: Money)
    ensures r > 0.0
  {
    match status
    case Single => 14_600.0
    case MarriedFilingJointly => 29_200.0
    case MarriedFilingSeparately => 14_600.0
    case HeadOfHousehold => 21_900.0
    case QualifyingWidow => 29_200.0
  }

  // ---------------------------------------------------------------------
  // The bracket walk
  // ---------------------------------------------------------------------

  function Min(a: real, b: real): real {
    if a <= b then a else b
  }

  function Max(a: real, b: real): real {
    if a >= b then a else b
  }

  /** `bracket.max - bracket.min`, infinite for the top bracket. */
  function BracketSize(b: TaxBracket): Bound {
    match b.max
    case Finite(m) => Finite(m - b.min)
    case Unbounded => Unbounded
  }

  /** `remaining.min(bracket_size)`. */
  function TakeIn(remaining: Money, size: Bound): Money {
    match size
    case Finite(s) => Min(remaining, s)
    case Unbounded => remaining
  }

  /** The loop's running state: accumulated tax, last rate used, emitted details. */
  datatype WalkState = WalkState(totalTax: Money, marginalRate: Rate, details: seq<BracketDetail>)

  function Sum(xs: seq<real>): real
    decreases |xs|
  {
    if |xs| == 0 then 0.0 else Sum(xs[..|xs| - 1]) + xs[|xs| - 1]
  }

  function TaxAmounts(ds: seq<BracketDetail>): (r: seq<real>)
    ensures |r| == |ds|
    ensures forall i :: 0 <= i < |ds| ==> r[i] == ds[i].taxAmount
  {
    seq(|ds|, i requires 0 <= i < |ds| => ds[i].taxAmount)
  }

  function TaxableAmounts(ds: seq<BracketDetail>): (r: seq<real>)
    ensures |r| == |ds|
    ensures forall i :: 0 <= i < |ds| ==> r[i] == ds[i].taxableAmount
  {
    seq(|ds|, i requires 0 <= i < |ds| => ds[i].taxableAmount)
  }

  /** Sum of `tax_amount` over a breakdown. */
  function SumTax(ds: seq<BracketDetail>): Money {
    Sum(TaxAmounts(ds))
  }

  /** Sum of `taxable_amount` over a breakdown. */
  function SumTaxable(ds: seq<BracketDetail>): Money {
    Sum(TaxableAmounts(ds))
  }

  /** The rate of the last detail, or 0 when there is none. */
  function LastRate(ds: seq<BracketDetail>): Rate {
    if |ds| == 0 then 0.0 else ds[|ds| - 1].rate
  }

  /** The accumulated total and marginal rate agree with the emitted details. */
  predicate Consistent(s: WalkState) {
    s.totalTax == SumTax(s.details) && s.marginalRate == LastRate(s.details)
  }

  lemma {:induction false} SumAppend(xs: seq<real>, x: real)
    ensures Sum(xs + [x]) == Sum(xs) + x
  {
    assert (xs + [x])[..|xs|] == xs;
  }

  lemma {:induction false} SumConcat(xs: seq<real>, ys: seq<real>)
    ensures Sum(xs + ys) == Sum(xs) + Sum(ys)
    decreases |ys|
  {
    if |ys| == 0 {
      assert xs + ys == xs;
    } else {
      var init := ys[..|ys| - 1];
      var last := ys[|ys| - 1];
      assert xs + ys == (xs + init) + [last];
      assert ys == init + [last];
      SumAppend(xs + init, last);
      SumAppend(init, last);
      SumConcat(xs, init);
    }
  }

  lemma SumTaxAppend(ds: seq<BracketDetail>, d: BracketDetail)
    ensures SumTax(ds + [d]) == SumTax(ds) + d.taxAmount
  {
    assert TaxAmounts(ds + [d]) == TaxAmounts(ds) + [d.taxAmount];
    SumAppend(TaxAmounts(ds), d.taxAmount);
  }

  lemma SumTaxableAppend(ds: seq<BracketDetail>, d: BracketDetail)
    ensures SumTaxable(ds + [d]) == SumTaxable(ds) + d.taxableAmount
  {
    assert TaxableAmounts(ds + [d]) == TaxableAmounts(ds) + [d.taxableAmount];
    SumAppend(TaxableAmounts(ds), d.taxableAmount);
  }

  lemma SumsConcat(a: seq<BracketDetail>, b: seq<BracketDetail>)
    ensures SumTax(a + b) == SumTax(a) + SumTax(b)
    ensures SumTaxable(a + b) == SumTaxable(a) + SumTaxable(b)
  {
    assert TaxAmounts(a + b) == TaxAmounts(a) + TaxAmounts(b);
    assert TaxableAmounts(a + b) == TaxableAmounts(a) + TaxableAmounts(b);
    SumConcat(TaxAmounts(a), TaxAmounts(b));
    SumConcat(TaxableAmounts(a), TaxableAmounts(b));
  }

  /** The state after one bracket: a detail is recorded only for a positive amount. */
  function Step(acc: WalkState, b: TaxBracket, taxable: Money): (r: WalkState)
    ensures Consistent(acc) ==> Consistent(r)
    ensures acc.details <= r.details
  {
    if taxable > 0.0 then
      SumTaxAppend(acc.details, BracketDetail(b.min, b.max, b.rate, taxable, taxable * b.rate));
      WalkState(
        acc.totalTax + taxable * b.rate,
        b.rate,
        acc.details + [BracketDetail(b.min, b.max, b.rate, taxable, taxable * b.rate)])
    else
      acc
  }

  /** A positive amount records one detail for the bracket. */
  lemma StepRecords(acc: WalkState, b: TaxBracket, taxable: Money)
    requires taxable > 0.0
    ensures Step(acc, b, taxable).details == acc.details + [BracketDetail(b.min, b.max, b.rate, taxable, taxable * b.rate)]
    ensures Step(acc, b, taxable).totalTax == acc.totalTax + taxable * b.rate
  {
    var d := BracketDetail(b.min, b.max, b.rate, taxable, taxable * b.rate);
    assert Step(acc, b, taxable) == WalkState(acc.totalTax + taxable * b.rate, b.rate, acc.details + [d]);
  }

  /**
   * The loop of `calculate_tax`: stop once nothing remains; otherwise tax the
   * part of `remaining` that fits in the bracket, and subtract the whole
   * bracket size from `remaining`. After an unbounded bracket `remaining`
   * is minus infinity, so the walk ends there.
   */
  function Walk(bs: seq<TaxBracket>, remaining: Money, acc: WalkState): (r: WalkState)
    ensures Consistent(acc) ==> Consistent(r)
    ensures acc.details <= r.details
    decreases |bs|
  {
    if |bs| == 0 || remaining <= 0.0 then acc
    else
      var b := bs[0];
      var next := Step(acc, b, TakeIn(remaining, BracketSize(b)));
      match BracketSize(b)
      case Unbounded => next
      case Finite(size) => Walk(bs[1..], remaining - size, next)
  }

  /** `calculate_tax` over an arbitrary bracket list. */
  function CalculateOn(bs: seq<TaxBracket>, taxableIncome: Money): TaxCalculation {
    var s := Walk(bs, taxableIncome, WalkState(0.0, 0.0, []));
    TaxCalculation(
      s.totalTax,
      if taxableIncome > 0.0 then s.totalTax / taxableIncome else 0.0,
      s.marginalRate,
      s.details)
  }

  // ---------------------------------------------------------------------
  // Reference definition: the closed form of the breakdown
  // ---------------------------------------------------------------------

  /** `min(x, upper)`, with no cap for an unbounded bracket. */
  function CapAt(x: Money, upper: Bound): Money {
    match upper
    case Finite(m) => Min(x, m)
    case Unbounded => x
  }

  /** The amount of `x` lying inside bracket `b`, and its tax. */
  function Contribution(b: TaxBracket, x: Money): BracketDetail {
    var amount := CapAt(x, b.max) - b.min;
    BracketDetail(b.min, b.max, b.rate, amount, amount * b.rate)
  }

  /** One contribution per bracket whose lower bound `x` exceeds, in table order. */
  function Breakdown(bs: seq<TaxBracket>, x: Money): seq<BracketDetail>
    decreases |bs|
  {
    if |bs| == 0 then []
    else (if x > bs[0].min then [Contribution(bs[0], x)] else []) + Breakdown(bs[1..], x)
  }

  lemma {:induction false} BreakdownBelow(bs: seq<TaxBracket>, lo: Money, x: Money)
    requires Chain(bs, lo)
    requires x <= lo
    ensures Breakdown(bs, x) == []
    decreases |bs|
  {
    match bs[0].max
    case Unbounded =>
      assert bs[1..] == [];
    case Finite(m) =>
      BreakdownBelow(bs[1..], m, x);
  }

  /** Above the start of a run, the first bracket contributes a positive amount taxed at its rate. */
  lemma BreakdownStarts(bs: seq<TaxBracket>, lo: Money, x: Money)
    requires Chain(bs, lo)
    requires x > lo
    ensures Breakdown(bs, x) == [Contribution(bs[0], x)] + Breakdown(bs[1..], x)
    ensures Contribution(bs[0], x).taxableAmount > 0.0
    ensures Contribution(bs[0], x).rate == bs[0].rate
    ensures Contribution(bs[0], x).taxAmount == Contribution(bs[0], x).taxableAmount * bs[0].rate
  {
  }

  /** Within a bracket that `x` reaches, the walk's step records the closed-form contribution. */
  lemma StepIsContribution(acc: WalkState, b: TaxBracket, x: Money)
    requires x > b.min
    requires b.max.Finite? ==> b.min < b.max.value
    ensures Step(acc, b, TakeIn(x - b.min, BracketSize(b))).details == acc.details + [Contribution(b, x)]
  {
    var taxable := TakeIn(x - b.min, BracketSize(b));
    match b.max {
      case Unbounded =>
        assert taxable == x - b.min;
      case Finite(m) =>
        assert taxable == Min(x, m) - b.min;
    }
    StepRecords(acc, b, taxable);
    assert Contribution(b, x) == BracketDetail(b.min, b.max, b.rate, taxable, taxable * b.rate);
  }

  /** Walking from `lo` with `x - lo` remaining emits exactly the closed-form breakdown. */
  lemma {:induction false} WalkIsBreakdown(bs: seq<TaxBracket>, lo: Money, x: Money, acc: WalkState)
    requires Chain(bs, lo)
    ensures Walk(bs, x - lo, acc).details == acc.details + Breakdown(bs, x)
    decreases |bs|
  {
    var b := bs[0];
    if x - lo <= 0.0 {
      BreakdownBelow(bs, lo, x);
    } else {
      var next := Step(acc, b, TakeIn(x - lo, BracketSize(b)));
      StepIsContribution(acc, b, x);
      assert Breakdown(bs, x) == [Contribution(b, x)] + Breakdown(bs[1..], x);
      match b.max
      case Unbounded =>
        assert bs[1..] == [];
      case Finite(m) =>
        assert (x - lo) - (m - lo) == x - m;
        WalkIsBreakdown(bs[1..], m, x, next);
    }
  }

  /** Above the start of a run, the breakdown's amounts add up to `x - lo`. */
  lemma {:induction false} BreakdownCoversIncome(bs: seq<TaxBracket>, lo: Money, x: Money)
    requires Chain(bs, lo)
    requires x > lo
    ensures SumTaxable(Breakdown(bs, x)) == x - lo
    decreases |bs|
  {
    var head := [Contribution(bs[0], x)];
    SumsConcat(head, Breakdown(bs[1..], x));
    assert SumTaxable(head) == CapAt(x, bs[0].max) - lo by {
      SumAppend([], head[0].taxableAmount);
      assert TaxableAmounts(head) == [] + [head[0].taxableAmount];
    }
    match bs[0].max
    case Unbounded =>
      assert bs[1..] == [];
    case Finite(m) =>
      if x <= m {
        BreakdownBelow(bs[1..], m, x);
      } else {
        BreakdownCoversIncome(bs[1..], m, x);
      }
  }

  /** How a breakdown entry sits inside its bracket. */
  predicate EntryFits(d: BracketDetail, b: TaxBracket) {
    && d.min == b.min && d.max == b.max && d.rate == b.rate
    && 0.0 < d.taxableAmount
    && (b.max.Finite? ==> d.taxableAmount <= b.max.value - b.min)
    && d.taxAmount == d.taxableAmount * b.rate
  }

  /** The closed-form breakdown is a prefix of the run, entry by entry. */
  lemma {:induction false} BreakdownIsPrefix(bs: seq<TaxBracket>, lo: Money, x: Money)
    requires Chain(bs, lo)
    ensures |Breakdown(bs, x)| <= |bs|
    ensures forall i :: 0 <= i < |Breakdown(bs, x)| ==> EntryFits(Breakdown(bs, x)[i], bs[i])
    decreases |bs|
  {
    var rest := Breakdown(bs[1..], x);
    if x <= lo {
      BreakdownBelow(bs, lo, x);
    } else {
      match bs[0].max
      case Unbounded =>
        assert bs[1..] == [];
      case Finite(m) =>
        BreakdownIsPrefix(bs[1..], m, x);
        if x <= m {
          BreakdownBelow(bs[1..], m, x);
        }
        var all := Breakdown(bs, x);
        assert all == [Contribution(bs[0], x)] + rest;
        forall i | 0 <= i < |all|
          ensures EntryFits(all[i], bs[i])
        {
          if i > 0 {
            assert all[i] == rest[i - 1];
            assert bs[i] == bs[1..][i - 1];
          }
        }
    }
  }

  /** One entry taxed at a rate within [lo, hi]. */
  lemma ScaleBounds(t: Money, rate: Rate, lo: Rate, hi: Rate)
    requires 0.0 <= t
    requires lo <= rate <= hi
    ensures lo * t <= t * rate <= hi * t
  {
    assert (rate - lo) * t >= 0.0;
    assert (hi - rate) * t >= 0.0;
  }

  /** Adding an entry taxed within [lo, hi] per dollar keeps the running sums within [lo, hi]. */
  lemma AddBounds(a: Money, tax: Money, t: Money, tt: Money, sum: Money, lo: Rate, hi: Rate)
    requires lo * a <= tax <= hi * a
    requires lo * t <= tt <= hi * t
    requires sum == a + t
    ensures lo * sum <= tax + tt <= hi * sum
  {
    assert lo * sum == lo * a + lo * t;
    assert hi * sum == hi * a + hi * t;
  }

  /** Every entry is taxed at its own rate, on a non-negative amount, with the rate in [lo, hi]. */
  predicate RatesWithin(ds: seq<BracketDetail>, lo: Rate, hi: Rate) {
    forall i :: 0 <= i < |ds| ==>
      && lo <= ds[i].rate <= hi
      && 0.0 <= ds[i].taxableAmount
      && ds[i].taxAmount == ds[i].taxableAmount * ds[i].rate
  }

  /** Appending one entry taxed within [lo, hi] keeps the weighted bounds. */
  lemma WeightedStep(init: seq<BracketDetail>, d: BracketDetail, lo: Rate, hi: Rate)
    requires lo * SumTaxable(init) <= SumTax(init) <= hi * SumTaxable(init)
    requires lo <= d.rate <= hi && 0.0 <= d.taxableAmount
    requires d.taxAmount == d.taxableAmount * d.rate
    ensures lo * SumTaxable(init + [d]) <= SumTax(init + [d]) <= hi * SumTaxable(init + [d])
  {
    SumTaxAppend(init, d);
    SumTaxableAppend(init, d);
    ScaleBounds(d.taxableAmount, d.rate, lo, hi);
    AddBounds(SumTaxable(init), SumTax(init), d.taxableAmount, d.taxAmount, SumTaxable(init + [d]), lo, hi);
  }

  /** Dropping the last entry keeps the rate bounds. */
  lemma RatesWithinPrefix(ds: seq<BracketDetail>, lo: Rate, hi: Rate)
    requires |ds| > 0 && RatesWithin(ds, lo, hi)
    ensures RatesWithin(ds[..|ds| - 1], lo, hi)
  {
    var init := ds[..|ds| - 1];
    forall i | 0 <= i < |init| ensures init[i] == ds[i] { }
  }

  /** A breakdown taxed at rates within [lo, hi] costs between lo and hi per dollar. */
  lemma {:induction false} WeightedRateBounds(ds: seq<BracketDetail>, lo: Rate, hi: Rate)
    requires |ds| > 0
    requires RatesWithin(ds, lo, hi)
    ensures lo * SumTaxable(ds) <= SumTax(ds)
    ensures SumTax(ds) <= hi * SumTaxable(ds)
    decreases |ds|
  {
    var init := ds[..|ds| - 1];
    var d := ds[|ds| - 1];
    assert ds == init + [d];
    assert lo <= d.rate <= hi && 0.0 <= d.taxableAmount;
    assert d.taxAmount == d.taxableAmount * d.rate;
    if |init| == 0 {
      assert SumTaxable(init) == 0.0 && SumTax(init) == 0.0;
    } else {
      RatesWithinPrefix(ds, lo, hi);
      WeightedRateBounds(init, lo, hi);
    }
    WeightedStep(init, d, lo, hi);
  }

  // ---------------------------------------------------------------------
  // calculate_tax and its contract
  // ---------------------------------------------------------------------

  /** What `calculate_tax` computes over any well-formed table. */
  lemma CalculateOnSpec(bs: seq<TaxBracket>, x: Money)
    requires ValidTable(bs)
    ensures var r := CalculateOn(bs, x);
      && SumTax(r.bracketDetails) == r.totalTax
      && r.marginalRate == LastRate(r.bracketDetails)
      && r.bracketDetails == Breakdown(bs, x)
      && (x > 0.0 ==> r.effectiveRate == r.totalTax / x)
      && (x <= 0.0 ==> r.effectiveRate == 0.0 && r.bracketDetails == [])
      && (x > 0.0 ==> SumTaxable(r.bracketDetails) == x && |r.bracketDetails| > 0)
      && |r.bracketDetails| <= |bs|
      && (forall i :: 0 <= i < |r.bracketDetails| ==> EntryFits(r.bracketDetails[i], bs[i]))
  {
    CalculateOnIsBreakdown(bs, x);
    BreakdownIsPrefix(bs, 0.0, x);
    if x > 0.0 {
      BreakdownCoversIncome(bs, 0.0, x);
      BreakdownStarts(bs, 0.0, x);
    } else {
      BreakdownBelow(bs, 0.0, x);
    }
  }

  /** `calculate_tax`: walk the status's table over the taxable income. */
  function CalculateTax(taxableIncome: Money, status: FilingStatus, taxYear: int): (r: TaxCalculation)
    ensures SumTax(r.bracketDetails) == r.totalTax
    ensures r.bracketDetails == Breakdown(Brackets(status, taxYear), taxableIncome)
    ensures taxableIncome <= 0.0 ==>
      r.totalTax == 0.0 && r.marginalRate == 0.0 && r.effectiveRate == 0.0 && r.bracketDetails == []
    ensures taxableIncome > 0.0 ==>
      && |r.bracketDetails| > 0
      && r.marginalRate == r.bracketDetails[|r.bracketDetails| - 1].rate
      && r.effectiveRate == r.totalTax / taxableIncome
      && SumTaxable(r.bracketDetails) == taxableIncome
    ensures |r.bracketDetails| <= |Brackets(status, taxYear)|
    ensures forall i :: 0 <= i < |r.bracketDetails| ==>
      EntryFits(r.bracketDetails[i], Brackets(status, taxYear)[i])
  {
    var bs := Brackets(status, taxYear);
    CalculateOnSpec(bs, taxableIncome);
    CalculateOn(bs, taxableIncome)
  }

  /** Lowering the floor keeps every entry's rate within range. */
  lemma RatesWithinWeaken(ds: seq<BracketDetail>, lo: Rate, lo': Rate, hi: Rate)
    requires RatesWithin(ds, lo, hi)
    requires lo' <= lo
    ensures RatesWithin(ds, lo', hi)
  {
  }

  /** A single entry taxed at its own rate. */
  lemma RatesWithinSingle(c: BracketDetail, floor: Rate)
    requires floor <= c.rate
    requires 0.0 <= c.taxableAmount
    requires c.taxAmount == c.taxableAmount * c.rate
    ensures RatesWithin([c], floor, LastRate([c]))
  {
  }

  /** Putting an entry with a rate in range in front of a breakdown keeps it in range. */
  lemma RatesWithinCons(c: BracketDetail, rest: seq<BracketDetail>, floor: Rate)
    requires rest != []
    requires RatesWithin(rest, floor, LastRate(rest))
    requires floor <= c.rate <= LastRate(rest)
    requires 0.0 <= c.taxableAmount
    requires c.taxAmount == c.taxableAmount * c.rate
    ensures RatesWithin([c] + rest, floor, LastRate([c] + rest))
  {
    var ds := [c] + rest;
    assert LastRate(ds) == LastRate(rest);
    forall i | 0 < i < |ds|
      ensures ds[i] == rest[i - 1]
    {
    }
  }

  /**
   * Every breakdown entry is taxed at its own rate on a positive amount, at
   * a rate between `floor` and the last entry's rate.
   */
  lemma {:induction false} BreakdownRates(bs: seq<TaxBracket>, lo: Money, x: Money, floor: Rate)
    requires Chain(bs, lo)
    requires floor <= bs[0].rate
    ensures RatesWithin(Breakdown(bs, x), floor, LastRate(Breakdown(bs, x)))
    decreases |bs|
  {
    if x <= lo {
      BreakdownBelow(bs, lo, x);
    } else {
      var c := Contribution(bs[0], x);
      var rest := Breakdown(bs[1..], x);
      BreakdownStarts(bs, lo, x);
      match bs[0].max
      case Unbounded =>
        assert bs[1..] == [];
        RatesWithinSingle(c, floor);
      case Finite(m) =>
        if x <= m {
          BreakdownBelow(bs[1..], m, x);
          RatesWithinSingle(c, floor);
        } else {
          assert Chain(bs[1..], m) && floor <= bs[0].rate < bs[1].rate;
          BreakdownRates(bs[1..], m, x, bs[1].rate);
          BreakdownStarts(bs[1..], m, x);
          assert rest != [] && rest[0].rate == bs[1].rate;
          RatesWithinWeaken(rest, bs[1].rate, floor, LastRate(rest));
          RatesWithinCons(c, rest, floor);
        }
    }
  }

  /** Over any table, the breakdown's tax lies between the first and the last rate times the income. */
  lemma BreakdownTaxBounds(bs: seq<TaxBracket>, x: Money)
    requires ValidTable(bs)
    requires x > 0.0
    ensures bs[0].rate * x <= SumTax(Breakdown(bs, x)) <= LastRate(Breakdown(bs, x)) * x
  {
    var ds := Breakdown(bs, x);
    BreakdownRates(bs, 0.0, x, bs[0].rate);
    WeightedRateBounds(ds, bs[0].rate, LastRate(ds));
    BreakdownCoversIncome(bs, 0.0, x);
    assert SumTaxable(ds) == x;
  }

  /** Over any table the walk's result is the closed-form breakdown and its sums. */
  lemma CalculateOnIsBreakdown(bs: seq<TaxBracket>, x: Money)
    requires ValidTable(bs)
    ensures var r := CalculateOn(bs, x);
      && r.bracketDetails == Breakdown(bs, x)
      && r.totalTax == SumTax(Breakdown(bs, x))
      && r.marginalRate == LastRate(Breakdown(bs, x))
      && r.effectiveRate == (if x > 0.0 then r.totalTax / x else 0.0)
  {
    var init := WalkState(0.0, 0.0, []);
    assert Consistent(init);
    WalkIsBreakdown(bs, 0.0, x, init);
    assert x - 0.0 == x;
  }

  /** Over any table the effective rate lies between the first rate and the marginal rate. */
  lemma CalculateOnRateBounds(bs: seq<TaxBracket>, x: Money)
    requires ValidTable(bs)
    requires x > 0.0
    ensures var r := CalculateOn(bs, x);
      && bs[0].rate <= r.effectiveRate <= r.marginalRate
      && r.totalTax <= r.marginalRate * x
  {
    CalculateOnIsBreakdown(bs, x);
    BreakdownTaxBounds(bs, x);
    var r := CalculateOn(bs, x);
    DivideBounds(bs[0].rate, r.totalTax, r.marginalRate, x);
  }

  /** The marginal rate bounds the effective rate from above, the first rate from below. */
  lemma EffectiveRateBounds(taxableIncome: Money, status: FilingStatus, taxYear: int)
    requires taxableIncome > 0.0
    ensures var r := CalculateTax(taxableIncome, status, taxYear);
      Brackets(status, taxYear)[0].rate <= r.effectiveRate <= r.marginalRate
  {
    var bs := Brackets(status, taxYear);
    assert CalculateTax(taxableIncome, status, taxYear) == CalculateOn(bs, taxableIncome);
    CalculateOnRateBounds(bs, taxableIncome);
  }

  lemma DivideBounds(lo: real, t: real, hi: real, x: real)
    requires x > 0.0
    requires lo * x <= t <= hi * x
    ensures lo <= t / x <= hi
  {
  }

  lemma MulMonotone(a: real, b: real, k: real)
    requires a <= b
    requires k >= 0.0
    ensures a * k <= b * k
  {
    assert (b - a) * k >= 0.0;
  }

  /** One step with more income and more tax so far ends with more tax. */
  lemma StepMonotone(a1: WalkState, a2: WalkState, b: TaxBracket, t1: Money, t2: Money)
    requires a1.totalTax <= a2.totalTax
    requires t1 <= t2
    requires b.rate >= 0.0
    ensures Step(a1, b, t1).totalTax <= Step(a2, b, t2).totalTax
  {
    if t1 > 0.0 {
      StepRecords(a1, b, t1);
      StepRecords(a2, b, t2);
      MulMonotone(t1, t2, b.rate);
    } else if t2 > 0.0 {
      StepRecords(a2, b, t2);
      MulMonotone(0.0, t2, b.rate);
    }
  }

  /**
   * Raising the income never lowers the tax, for any bracket list whose rates
   * are non-negative.
   */
  lemma {:induction false} WalkMonotone(bs: seq<TaxBracket>, r1: Money, r2: Money, a1: WalkState, a2: WalkState)
    requires forall i :: 0 <= i < |bs| ==> bs[i].rate >= 0.0
    requires r1 <= r2
    requires a1.totalTax <= a2.totalTax
    ensures Walk(bs, r1, a1).totalTax <= Walk(bs, r2, a2).totalTax
    decreases |bs|
  {
    if |bs| == 0 || r2 <= 0.0 {
    } else if r1 <= 0.0 {
      WalkGrows(bs, r2, a2);
    } else {
      var b := bs[0];
      var t1 := TakeIn(r1, BracketSize(b));
      var t2 := TakeIn(r2, BracketSize(b));
      StepMonotone(a1, a2, b, t1, t2);
      match BracketSize(b)
      case Unbounded =>
      case Finite(size) =>
        assert forall i :: 0 <= i < |bs[1..]| ==> bs[1..][i] == bs[i + 1];
        WalkMonotone(bs[1..], r1 - size, r2 - size, Step(a1, b, t1), Step(a2, b, t2));
    }
  }

  /** With non-negative rates the walk only adds tax. */
  lemma {:induction false} WalkGrows(bs: seq<TaxBracket>, rem: Money, acc: WalkState)
    requires forall i :: 0 <= i < |bs| ==> bs[i].rate >= 0.0
    ensures acc.totalTax <= Walk(bs, rem, acc).totalTax
    decreases |bs|
  {
    if |bs| == 0 || rem <= 0.0 {
    } else {
      var b := bs[0];
      var t := TakeIn(rem, BracketSize(b));
      var n := Step(acc, b, t);
      if t > 0.0 {
        StepMonotone(acc, acc, b, 0.0, t);
      }
      match BracketSize(b)
      case Unbounded =>
      case Finite(size) =>
        assert forall i :: 0 <= i < |bs[1..]| ==> bs[1..][i] == bs[i + 1];
        WalkGrows(bs[1..], rem - size, n);
    }
  }

  /** More taxable income never means less tax. */
  lemma CalculateTaxMonotone(x1: Money, x2: Money, status: FilingStatus, taxYear: int)
    requires x1 <= x2
    ensures CalculateTax(x1, status, taxYear).totalTax <= CalculateTax(x2, status, taxYear).totalTax
  {
    var bs := Brackets(status, taxYear);
    TableShape(bs);
    ChainShape(bs, 0.0);
    WalkMonotone(bs, x1, x2, WalkState(0.0, 0.0, []), WalkState(0.0, 0.0, []));
  }

  lemma SumOfTwo(ds: seq<BracketDetail>)
    requires |ds| == 2
    ensures SumTax(ds) == ds[0].taxAmount + ds[1].taxAmount
  {
    var xs := TaxAmounts(ds);
    assert xs[..1][..0] == [];
    assert Sum(xs[..1]) == xs[0];
    assert Sum(xs) == Sum(xs[..1]) + xs[1];
  }

  lemma SumOfThree(ds: seq<BracketDetail>)
    requires |ds| == 3
    ensures SumTax(ds) == ds[0].taxAmount + ds[1].taxAmount + ds[2].taxAmount
  {
    var xs := TaxAmounts(ds);
    assert xs[..2][..1][..0] == [];
    assert xs[..2][..1] == xs[..1];
    assert Sum(xs[..1]) == xs[0];
    assert Sum(xs[..2]) == Sum(xs[..1]) + xs[1];
    assert Sum(xs) == Sum(xs[..2]) + xs[2];
  }

  /** A single filer at 35,400 reaches the first two brackets only. */
  lemma SingleBreakdownAt35400()
    ensures Breakdown(SingleBrackets, 35_400.0)
         == [Contribution(SingleBrackets[0], 35_400.0), Contribution(SingleBrackets[1], 35_400.0)]
  {
    var s := SingleBrackets;
    var x := 35_400.0;
    SingleTableValid();
    BreakdownBelow(s[2..], 47_150.0, x);
    assert s[1..][1..] == s[2..];
    assert Breakdown(s[1..], x) == [Contribution(s[1], x)] + Breakdown(s[2..], x);
  }

  /** Worked example: a single filer with 35,400 of taxable income owes 4,016 at 12%. */
  lemma SingleFilerExample(x: Money)
    requires x == 35_400.0
    ensures CalculateTax(x, Single, 2024).totalTax == 4_016.0
    ensures CalculateTax(x, Single, 2024).marginalRate == 0.12
  {
    var ds := Breakdown(SingleBrackets, 35_400.0);
    SingleBreakdownAt35400();
    assert ds[0].taxAmount == 1_160.0;
    assert ds[1].taxAmount == 2_856.0;
    SumOfTwo(ds);
  }

  /** A joint filer at 120,800 reaches the first three brackets only. */
  lemma JointBreakdownAt120800()
    ensures Breakdown(MarriedFilingJointlyBrackets, 120_800.0)
         == [Contribution(MarriedFilingJointlyBrackets[0], 120_800.0),
             Contribution(MarriedFilingJointlyBrackets[1], 120_800.0),
             Contribution(MarriedFilingJointlyBrackets[2], 120_800.0)]
  {
    var j := MarriedFilingJointlyBrackets;
    var x := 120_800.0;
    JointTableValid();
    BreakdownBelow(j[3..], 201_050.0, x);
    assert j[2..][1..] == j[3..];
    assert j[1..][1..] == j[2..];
    assert Breakdown(j[2..], x) == [Contribution(j[2], x)] + Breakdown(j[3..], x);
    assert Breakdown(j[1..], x) == [Contribution(j[1], x)] + Breakdown(j[2..], x);
  }

  /** Worked example: a joint filer with 120,800 of taxable income owes 16,682 at 22%. */
  lemma JointFilerExample(x: Money)
    requires x == 120_800.0
    ensures CalculateTax(x, MarriedFilingJointly, 2024).totalTax == 16_682.0
    ensures CalculateTax(x, MarriedFilingJointly, 2024).marginalRate == 0.22
  {
    var ds := Breakdown(MarriedFilingJointlyBrackets, 120_800.0);
    JointBreakdownAt120800();
    assert ds[0].taxAmount == 2_320.0;
    assert ds[1].taxAmount == 8_532.0;
    assert ds[2].taxAmount == 5_830.0;
    SumOfThree(ds);
  }

  /** The 2024 standard deductions. */
  lemma StandardDeductionValues(taxYear: int)
    ensures StandardDeduction(Single, taxYear) == 14_600.0
    ensures StandardDeduction(MarriedFilingJointly, taxYear) == 29_200.0
    ensures StandardDeduction(MarriedFilingSeparately, taxYear) == 14_600.0
    ensures StandardDeduction(HeadOfHousehold, taxYear) == 21_900.0
    ensures StandardDeduction(QualifyingWidow, taxYear) == 29_200.0
  {
  }
}
