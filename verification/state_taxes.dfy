/**
 * The flat-rate state income tax: one approximate 2024 rate per state code
 * (50 states and DC), looked up after upper-casing the code.
 */
module StateTaxes {
  import opened Wrappers
  import opened Text
  import opened TaxEngine

  /**
   * A state code of the table. Every code there is two characters long, so
   * the table is keyed by the pair of characters.
   */
  type StateCode = (char, char)

  /** The two-character string a table key stands for. */
  function CodeText(k: StateCode): string {
    [k.0, k.1]
  }

  /** The key a string looks up: its two characters, or none for any other length. */
  function KeyOf(s: string): (r: Option<StateCode>)
    ensures r.Some? <==> |s| == 2
    ensures r.Some? ==> CodeText(r.value) == s
  {
    if |s| == 2 then Some((s[0], s[1])) else None
  }

  /** The nine states without a wage income tax. */
  const NoIncomeTaxStates: set<StateCode> := {('A', 'K'), ('F', 'L'), ('N', 'V'), ('N', 'H'), ('S', 'D'), ('T', 'N'), ('T', 'X'), ('W', 'A'), ('W', 'Y')}

  /** The nine flat-tax states. */
  const FlatTaxStates: set<StateCode> := {('C', 'O'), ('I', 'L'), ('I', 'N'), ('K', 'Y'), ('M', 'A'), ('M', 'I'), ('N', 'C'), ('P', 'A'), ('U', 'T')}

  /**
   * `STATE_RATES`: the simplified rate of each supported code, in the table's
   * order. Every supported code is two capitals, and every rate lies in [0, 10%).
   */
  function StateRate(k: StateCode): (r: Option<Rate>)
    ensures r.Some? ==> IsUpper(k.0) && IsUpper(k.1)
    ensures r.Some? ==> 0.0 <= r.value < 0.1
  {
    match k
    case ('A', 'K') => Some(0.0)
    case ('F', 'L') => Some(0.0)
    case ('N', 'V') => Some(0.0)
    case ('N', 'H') => Some(0.0)
    case ('S', 'D') => Some(0.0)
    case ('T', 'N') => Some(0.0)
    case ('T', 'X') => Some(0.0)
    case ('W', 'A') => Some(0.0)
    case ('W', 'Y') => Some(0.0)
    case ('C', 'O') => Some(0.044)
    case ('I', 'L') => Some(0.0495)
    case ('I', 'N') => Some(0.0305)
    case ('K', 'Y') => Some(0.04)
    case ('M', 'A') => Some(0.05)
    case ('M', 'I') => Some(0.0405)
    case ('N', 'C') => Some(0.0475)
    case ('P', 'A') => Some(0.0307)
    case ('U', 'T') => Some(0.0465)
    case ('A', 'L') => Some(0.05)
    case ('A', 'Z') => Some(0.025)
    case ('A', 'R') => Some(0.047)
    case ('C', 'A') => Some(0.0725)
    case ('C', 'T') => Some(0.05)
    case ('D', 'E') => Some(0.055)
    case ('G', 'A') => Some(0.0549)
    case ('H', 'I') => Some(0.0725)
    case ('I', 'D') => Some(0.058)
    case ('I', 'A') => Some(0.057)
    case ('K', 'S') => Some(0.057)
    case ('L', 'A') => Some(0.0425)
    case ('M', 'E') => Some(0.0715)
    case ('M', 'D') => Some(0.0575)
    case ('M', 'N') => Some(0.0785)
    case ('M', 'S') => Some(0.05)
    case ('M', 'O') => Some(0.0495)
    case ('M', 'T') => Some(0.059)
    case ('N', 'E') => Some(0.0584)
    case ('N', 'J') => Some(0.0637)
    case ('N', 'M') => Some(0.049)
    case ('N', 'Y') => Some(0.0685)
    case ('N', 'D') => Some(0.0219)
    case ('O', 'H') => Some(0.0399)
    case ('O', 'K') => Some(0.0475)
    case ('O', 'R') => Some(0.099)
    case ('R', 'I') => Some(0.0599)
    case ('S', 'C') => Some(0.064)
    case ('V', 'T') => Some(0.0875)
    case ('V', 'A') => Some(0.0575)
    case ('W', 'V') => Some(0.052)
    case ('W', 'I') => Some(0.0765)
    case ('D', 'C') => Some(0.0895)
    case _ => None
  }

  /** Whether `code`, as given, is a key of the table. */
  predicate Supported(code: string) {
    KeyOf(code).Some? && StateRate(KeyOf(code).value).Some?
  }

  /** The rate of a supported code. */
  function RateOf(code: string): Rate
    requires Supported(code)
  {
    StateRate(KeyOf(code).value).value
  }

  /**
   * `calculate_state_tax`: the income times the rate of the upper-cased code;
   * an unknown code is an error carrying the code as given. The year is ignored.
   */
  function CalculateStateTax(taxableIncome: Money, state: string, taxYear: int): (r: Result<Money, TaxError>)
    ensures r.Ok? <==> Supported(Upper(state))
    ensures r.Ok? ==> r.value == taxableIncome * RateOf(Upper(state))
    ensures r.Err? ==> r.error == UnsupportedState(state)
  {
    var code := Upper(state);
    if Supported(code) then Ok(taxableIncome * RateOf(code))
    else Err(UnsupportedState(state))
  }

  /** A supported code is its own upper-case form. */
  lemma StateCodesAreUpper(k: StateCode)
    requires StateRate(k).Some?
    ensures Upper(CodeText(k)) == CodeText(k)
  {
  }

  /** The nine flat-tax states are all in the table. */
  lemma FlatTaxStatesSupported(k: StateCode)
    requires k in FlatTaxStates
    ensures StateRate(k).Some? && StateRate(k).value > 0.0
  {
  }

  /** A rate is zero exactly for the nine states without income tax. */
  lemma ZeroRateStates(k: StateCode)
    requires StateRate(k).Some?
    ensures StateRate(k).value == 0.0 <==> k in NoIncomeTaxStates
  {
  }

  /** The lookup ignores letter case, apart from the code echoed in the error. */
  lemma StateTaxIgnoresCase(x: Money, state: string, taxYear: int)
    ensures CalculateStateTax(x, Lower(state), taxYear).Ok? == CalculateStateTax(x, state, taxYear).Ok?
    ensures CalculateStateTax(x, Lower(state), taxYear).Ok? ==>
      CalculateStateTax(x, Lower(state), taxYear) == CalculateStateTax(x, state, taxYear)
  {
    UpperAfterLower(state);
  }

  /** A supported code is accepted in any letter case and taxes at its own rate. */
  lemma KnownStateAccepted(x: Money, k: StateCode, taxYear: int)
    requires StateRate(k).Some?
    ensures CalculateStateTax(x, CodeText(k), taxYear) == Ok(x * StateRate(k).value)
    ensures CalculateStateTax(x, Lower(CodeText(k)), taxYear) == Ok(x * StateRate(k).value)
  {
    var code := CodeText(k);
    StateCodesAreUpper(k);
    UpperAfterLower(code);
    assert Upper(code) == code && Upper(Lower(code)) == code;
    assert KeyOf(code) == Some(k);
    assert Supported(code) && RateOf(code) == StateRate(k).value;
    var lowered := CalculateStateTax(x, Lower(code), taxYear);
    assert lowered.Ok? && lowered.value == x * RateOf(Upper(Lower(code)));
  }

  /** A no-income-tax state owes nothing on any income. */
  lemma NoIncomeTaxStateOwesNothing(x: Money, state: string, taxYear: int)
    requires KeyOf(Upper(state)).Some? && KeyOf(Upper(state)).value in NoIncomeTaxStates
    ensures CalculateStateTax(x, state, taxYear) == Ok(0.0)
  {
  }

  /** The empty code, and any code not two characters long, is unsupported. */
  lemma MalformedCodesRejected(x: Money, state: string, taxYear: int)
    requires |state| != 2
    ensures CalculateStateTax(x, state, taxYear) == Err(UnsupportedState(state))
  {
  }

  /** For a supported state and non-negative income, the tax is between 0 and 10% of it. */
  lemma StateTaxBounds(x: Money, state: string, taxYear: int)
    requires x >= 0.0
    requires CalculateStateTax(x, state, taxYear).Ok?
    ensures 0.0 <= CalculateStateTax(x, state, taxYear).value <= x * 0.1
  {
    var rate := RateOf(Upper(state));
    assert (0.1 - rate) * x >= 0.0;
    assert rate * x >= 0.0;
  }

  /** Worked examples: Texas at 100,000 owes nothing, California owes 7,250. */
  lemma StateTaxExamples()
    ensures CalculateStateTax(100_000.0, "TX", 2024) == Ok(0.0)
    ensures CalculateStateTax(100_000.0, "CA", 2024) == Ok(7_250.0)
    ensures CalculateStateTax(100_000.0, "", 2024).Err?
  {
    assert Upper("TX") == "TX";
    assert Upper("CA") == "CA";
  }
}
