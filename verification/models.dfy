/**
 * The enumerations the database stores as text, with their case-insensitive
 * parsers and canonical spellings, and the records built from them.
 */
module Models {
  import opened Wrappers
  import opened Text

  // ---------------------------------------------------------------------
  // TaxReturnStatus
  // ---------------------------------------------------------------------

  /** The lifecycle status of a tax return. */
  datatype TaxReturnStatus =
    | Draft
    | InProgress
    | Review
    | Filed
    | Amended

  /** The lower-case spellings `from_str` accepts for each variant. */
  function TaxReturnStatusAliases(v: TaxReturnStatus): set<string> {
    match v
    case Draft => {"draft"}
    case InProgress => {"in_progress", "inprogress"}
    case Review => {"review"}
    case Filed => {"filed"}
    case Amended => {"amended"}
  }

  /** `TaxReturnStatus::from_str`: case-insensitive match against the aliases. */
  function ParseTaxReturnStatus(s: string): (r: Result<TaxReturnStatus, string>)
    ensures r.Ok? ==> Lower(s) in TaxReturnStatusAliases(r.value)
    ensures r.Err? ==> r.error == "Unknown status: " + s
    ensures r.Err? ==> forall v :: Lower(s) !in TaxReturnStatusAliases(v)
  {
    var l := Lower(s);
    if l == "draft" then Ok(Draft)
    else if l == "in_progress" || l == "inprogress" then Ok(InProgress)
    else if l == "review" then Ok(Review)
    else if l == "filed" then Ok(Filed)
    else if l == "amended" then Ok(Amended)
    else Err("Unknown status: " + s)
  }

  /** `TaxReturnStatus::as_str`: the canonical spelling stored in the database. */
  function TaxReturnStatusStr(v: TaxReturnStatus): (r: string)
    ensures Lower(r) == r
    ensures r in TaxReturnStatusAliases(v)
  {
    match v
    case Draft => LowerOfLowerCase("draft"); "draft"
    case InProgress => LowerOfLowerCase("in_progress"); "in_progress"
    case Review => LowerOfLowerCase("review"); "review"
    case Filed => LowerOfLowerCase("filed"); "filed"
    case Amended => LowerOfLowerCase("amended"); "amended"
  }

  /** The variant's name as `{:?}` prints it. */
  function TaxReturnStatusDebugName(v: TaxReturnStatus): string {
    match v
    case Draft => "Draft"
    case InProgress => "InProgress"
    case Review => "Review"
    case Filed => "Filed"
    case Amended => "Amended"
  }

  /** The variant names, lower-cased. */
  lemma TaxReturnStatusDebugNameLowered(v: TaxReturnStatus)
    ensures Lower(TaxReturnStatusDebugName(v)) in TaxReturnStatusAliases(v)
  {
    match v
    case Draft => assert Lower("Draft") == "draft";
    case InProgress => assert Lower("InProgress") == "inprogress";
    case Review => assert Lower("Review") == "review";
    case Filed => assert Lower("Filed") == "filed";
    case Amended => assert Lower("Amended") == "amended";
  }

  /** No spelling is accepted for two different variants. */
  lemma TaxReturnStatusAliasesDisjoint(v: TaxReturnStatus, w: TaxReturnStatus)
    requires v != w
    ensures TaxReturnStatusAliases(v) !! TaxReturnStatusAliases(w)
  {
  }

  /** Every alias of a variant, in any letter case, parses to that variant. */
  lemma ParseTaxReturnStatusAccepts(v: TaxReturnStatus, s: string)
    requires Lower(s) in TaxReturnStatusAliases(v)
    ensures ParseTaxReturnStatus(s) == Ok(v)
  {
    var r := ParseTaxReturnStatus(s);
    if r.Ok? && r.value != v {
      TaxReturnStatusAliasesDisjoint(v, r.value);
    }
  }

  /** Parsing ignores letter case; only the error message keeps the input as given. */
  lemma ParseTaxReturnStatusIgnoresCase(s: string)
    ensures ParseTaxReturnStatus(Lower(s)).Ok? <==> ParseTaxReturnStatus(s).Ok?
    ensures ParseTaxReturnStatus(s).Ok? ==> ParseTaxReturnStatus(Lower(s)) == ParseTaxReturnStatus(s)
  {
    LowerIdempotent(s);
  }

  /** `from_str(as_str(v)) == Ok(v)` for every variant. */
  lemma TaxReturnStatusRoundTrip(v: TaxReturnStatus)
    ensures ParseTaxReturnStatus(TaxReturnStatusStr(v)) == Ok(v)
  {
    ParseTaxReturnStatusAccepts(v, TaxReturnStatusStr(v));
  }

  /** Different variants have different canonical spellings. */
  lemma TaxReturnStatusStrInjective(v: TaxReturnStatus, w: TaxReturnStatus)
    requires TaxReturnStatusStr(v) == TaxReturnStatusStr(w)
    ensures v == w
  {
    TaxReturnStatusRoundTrip(v);
    TaxReturnStatusRoundTrip(w);
  }

  /** The lower-cased variant name is also accepted, and parses back to the variant. */
  lemma TaxReturnStatusDebugNameParses(v: TaxReturnStatus)
    ensures ParseTaxReturnStatus(Lower(TaxReturnStatusDebugName(v))) == Ok(v)
  {
    TaxReturnStatusDebugNameLowered(v);
    LowerIdempotent(TaxReturnStatusDebugName(v));
    ParseTaxReturnStatusAccepts(v, Lower(TaxReturnStatusDebugName(v)));
  }

  // ---------------------------------------------------------------------
  // DeductionCategory
  // ---------------------------------------------------------------------

  /** The category of a deduction. */
  datatype DeductionCategory =
    | Medical
    | StateLocalTaxes
    | MortgageInterest
    | Charitable
    | Business
    | HomeOffice
    | Education
    | Retirement
    | HealthSavings
    | Other

  /** The lower-case spellings `from_str` accepts for each variant. */
  function DeductionCategoryAliases(v: DeductionCategory): set<string> {
    match v
    case Medical => {"medical"}
    case StateLocalTaxes => {"state_local_taxes", "statelocaltaxes", "salt"}
    case MortgageInterest => {"mortgage_interest", "mortgageinterest", "mortgage"}
    case Charitable => {"charitable", "charity", "donation"}
    case Business => {"business"}
    case HomeOffice => {"home_office", "homeoffice"}
    case Education => {"education"}
    case Retirement => {"retirement"}
    case HealthSavings => {"health_savings", "healthsavings", "hsa"}
    case Other => {"other"}
  }

  /** `DeductionCategory::from_str`: case-insensitive match against the aliases. */
  function ParseDeductionCategory(s: string): (r: Result<DeductionCategory, string>)
    ensures r.Ok? ==> Lower(s) in DeductionCategoryAliases(r.value)
    ensures r.Err? ==> r.error == "Unknown category: " + s
    ensures r.Err? ==> forall v :: Lower(s) !in DeductionCategoryAliases(v)
  {
    var l := Lower(s);
    if l == "medical" then Ok(Medical)
    else if l == "state_local_taxes" || l == "statelocaltaxes" || l == "salt" then Ok(StateLocalTaxes)
    else if l == "mortgage_interest" || l == "mortgageinterest" || l == "mortgage" then Ok(MortgageInterest)
    else if l == "charitable" || l == "charity" || l == "donation" then Ok(Charitable)
    else if l == "business" then Ok(Business)
    else if l == "home_office" || l == "homeoffice" then Ok(HomeOffice)
    else if l == "education" then Ok(Education)
    else if l == "retirement" then Ok(Retirement)
    else if l == "health_savings" || l == "healthsavings" || l == "hsa" then Ok(HealthSavings)
    else if l == "other" then Ok(DeductionCategory.Other)
    else Err("Unknown category: " + s)
  }

  /** `DeductionCategory::as_str`: the canonical spelling stored in the database. */
  function DeductionCategoryStr(v: DeductionCategory): (r: string)
    ensures Lower(r) == r
    ensures r in DeductionCategoryAliases(v)
  {
    match v
    case Medical => LowerOfLowerCase("medical"); "medical"
    case StateLocalTaxes => LowerOfLowerCase("state_local_taxes"); "state_local_taxes"
    case MortgageInterest => LowerOfLowerCase("mortgage_interest"); "mortgage_interest"
    case Charitable => LowerOfLowerCase("charitable"); "charitable"
    case Business => LowerOfLowerCase("business"); "business"
    case HomeOffice => LowerOfLowerCase("home_office"); "home_office"
    case Education => LowerOfLowerCase("education"); "education"
    case Retirement => LowerOfLowerCase("retirement"); "retirement"
    case HealthSavings => LowerOfLowerCase("health_savings"); "health_savings"
    case Other => LowerOfLowerCase("other"); "other"
  }

  /** The variant's name as `{:?}` prints it. */
  function DeductionCategoryDebugName(v: DeductionCategory): string {
    match v
    case Medical => "Medical"
    case StateLocalTaxes => "StateLocalTaxes"
    case MortgageInterest => "MortgageInterest"
    case Charitable => "Charitable"
    case Business => "Business"
    case HomeOffice => "HomeOffice"
    case Education => "Education"
    case Retirement => "Retirement"
    case HealthSavings => "HealthSavings"
    case Other => "Other"
  }

  /** `DeductionCategory::display_name`: the label shown to the user. */
  function DeductionCategoryDisplayName(v: DeductionCategory): (r: string)
    ensures |r| > 0 && !IsLower(r[0])
  {
    match v
    case Medical => "Medical & Dental"
    case StateLocalTaxes => "State & Local Taxes"
    case MortgageInterest => "Mortgage Interest"
    case Charitable => "Charitable Contributions"
    case Business => "Business Expenses"
    case HomeOffice => "Home Office"
    case Education => "Education"
    case Retirement => "Retirement Contributions"
    case HealthSavings => "Health Savings Account"
    case Other => "Other"
  }

  /** Different categories are shown under different labels. */
  lemma DeductionCategoryDisplayNameInjective(v: DeductionCategory, w: DeductionCategory)
    requires DeductionCategoryDisplayName(v) == DeductionCategoryDisplayName(w)
    ensures v == w
  {
  }

  /** The variant names, lower-cased. */
  lemma DeductionCategoryDebugNameLowered(v: DeductionCategory)
    ensures Lower(DeductionCategoryDebugName(v)) in DeductionCategoryAliases(v)
  {
    match v
    case Medical => assert Lower("Medical") == "medical";
    case StateLocalTaxes => assert Lower("StateLocalTaxes") == "statelocaltaxes";
    case MortgageInterest => assert Lower("MortgageInterest") == "mortgageinterest";
    case Charitable => assert Lower("Charitable") == "charitable";
    case Business => assert Lower("Business") == "business";
    case HomeOffice => assert Lower("HomeOffice") == "homeoffice";
    case Education => assert Lower("Education") == "education";
    case Retirement => assert Lower("Retirement") == "retirement";
    case HealthSavings => assert Lower("HealthSavings") == "healthsavings";
    case Other => assert Lower("Other") == "other";
  }

  /** No spelling is accepted for two different variants. */
  lemma DeductionCategoryAliasesDisjoint(v: DeductionCategory, w: DeductionCategory)
    requires v != w
    ensures DeductionCategoryAliases(v) !! DeductionCategoryAliases(w)
  {
  }

  /** Every alias of a variant, in any letter case, parses to that variant. */
  lemma ParseDeductionCategoryAccepts(v: DeductionCategory, s: string)
    requires Lower(s) in DeductionCategoryAliases(v)
    ensures ParseDeductionCategory(s) == Ok(v)
  {
    var r := ParseDeductionCategory(s);
    if r.Ok? && r.value != v {
      DeductionCategoryAliasesDisjoint(v, r.value);
    }
  }

  /** Parsing ignores letter case; only the error message keeps the input as given. */
  lemma ParseDeductionCategoryIgnoresCase(s: string)
    ensures ParseDeductionCategory(Lower(s)).Ok? <==> ParseDeductionCategory(s).Ok?
    ensures ParseDeductionCategory(s).Ok? ==> ParseDeductionCategory(Lower(s)) == ParseDeductionCategory(s)
  {
    LowerIdempotent(s);
  }

  /** `from_str(as_str(v)) == Ok(v)` for every variant. */
  lemma DeductionCategoryRoundTrip(v: DeductionCategory)
    ensures ParseDeductionCategory(DeductionCategoryStr(v)) == Ok(v)
  {
    ParseDeductionCategoryAccepts(v, DeductionCategoryStr(v));
  }

  /** Different variants have different canonical spellings. */
  lemma DeductionCategoryStrInjective(v: DeductionCategory, w: DeductionCategory)
    requires DeductionCategoryStr(v) == DeductionCategoryStr(w)
    ensures v == w
  {
    DeductionCategoryRoundTrip(v);
    DeductionCategoryRoundTrip(w);
  }

  /** The lower-cased variant name is also accepted, and parses back to the variant. */
  lemma DeductionCategoryDebugNameParses(v: DeductionCategory)
    ensures ParseDeductionCategory(Lower(DeductionCategoryDebugName(v))) == Ok(v)
  {
    DeductionCategoryDebugNameLowered(v);
    LowerIdempotent(DeductionCategoryDebugName(v));
    ParseDeductionCategoryAccepts(v, Lower(DeductionCategoryDebugName(v)));
  }

  // ---------------------------------------------------------------------
  // DocumentType
  // ---------------------------------------------------------------------

  /** The kind of an uploaded document. */
  datatype DocumentType =
    | W2
    | Form1099Int
    | Form1099Div
    | Form1099Misc
    | Form1099Nec
    | Form1099B
    | FormK1
    | Receipt
    | BankStatement
    | Other

  /** The lower-case spellings `from_str` accepts for each variant. */
  function DocumentTypeAliases(v: DocumentType): set<string> {
    match v
    case W2 => {"w2", "w-2"}
    case Form1099Int => {"1099-int", "1099int", "form1099int"}
    case Form1099Div => {"1099-div", "1099div", "form1099div"}
    case Form1099Misc => {"1099-misc", "1099misc", "form1099misc"}
    case Form1099Nec => {"1099-nec", "1099nec", "form1099nec"}
    case Form1099B => {"1099-b", "1099b", "form1099b"}
    case FormK1 => {"k-1", "k1", "formk1"}
    case Receipt => {"receipt"}
    case BankStatement => {"bank_statement", "bankstatement", "bank"}
    case Other => {"other"}
  }

  /** `DocumentType::from_str`: case-insensitive match against the aliases. */
  function ParseDocumentType(s: string): (r: Result<DocumentType, string>)
    ensures r.Ok? ==> Lower(s) in DocumentTypeAliases(r.value)
    ensures r.Err? ==> r.error == "Unknown document type: " + s
    ensures r.Err? ==> forall v :: Lower(s) !in DocumentTypeAliases(v)
  {
    var l := Lower(s);
    if l == "w2" || l == "w-2" then Ok(W2)
    else if l == "1099-int" || l == "1099int" || l == "form1099int" then Ok(Form1099Int)
    else if l == "1099-div" || l == "1099div" || l == "form1099div" then Ok(Form1099Div)
    else if l == "1099-misc" || l == "1099misc" || l == "form1099misc" then Ok(Form1099Misc)
    else if l == "1099-nec" || l == "1099nec" || l == "form1099nec" then Ok(Form1099Nec)
    else if l == "1099-b" || l == "1099b" || l == "form1099b" then Ok(Form1099B)
    else if l == "k-1" || l == "k1" || l == "formk1" then Ok(FormK1)
    else if l == "receipt" then Ok(Receipt)
    else if l == "bank_statement" || l == "bankstatement" || l == "bank" then Ok(BankStatement)
    else if l == "other" then Ok(DocumentType.Other)
    else Err("Unknown document type: " + s)
  }

  /** `DocumentType::as_str`: the canonical spelling stored in the database. */
  function DocumentTypeStr(v: DocumentType): (r: string)
    ensures Lower(r) == r
    ensures r in DocumentTypeAliases(v)
  {
    match v
    case W2 => LowerOfLowerCase("w2"); "w2"
    case Form1099Int => LowerOfLowerCase("1099-int"); "1099-int"
    case Form1099Div => LowerOfLowerCase("1099-div"); "1099-div"
    case Form1099Misc => LowerOfLowerCase("1099-misc"); "1099-misc"
    case Form1099Nec => LowerOfLowerCase("1099-nec"); "1099-nec"
    case Form1099B => LowerOfLowerCase("1099-b"); "1099-b"
    case FormK1 => LowerOfLowerCase("k-1"); "k-1"
    case Receipt => LowerOfLowerCase("receipt"); "receipt"
    case BankStatement => LowerOfLowerCase("bank_statement"); "bank_statement"
    case Other => LowerOfLowerCase("other"); "other"
  }

  /** The variant's name as `{:?}` prints it. */
  function DocumentTypeDebugName(v: DocumentType): string {
    match v
    case W2 => "W2"
    case Form1099Int => "Form1099Int"
    case Form1099Div => "Form1099Div"
    case Form1099Misc => "Form1099Misc"
    case Form1099Nec => "Form1099Nec"
    case Form1099B => "Form1099B"
    case FormK1 => "FormK1"
    case Receipt => "Receipt"
    case BankStatement => "BankStatement"
    case Other => "Other"
  }

  /** `DocumentType::display_name`: the label shown to the user. */
  function DocumentTypeDisplayName(v: DocumentType): (r: string)
    ensures |r| > 0 && !IsLower(r[0])
  {
    match v
    case W2 => "W-2 (Wages)"
    case Form1099Int => "1099-INT (Interest)"
    case Form1099Div => "1099-DIV (Dividends)"
    case Form1099Misc => "1099-MISC (Miscellaneous)"
    case Form1099Nec => "1099-NEC (Non-Employee Compensation)"
    case Form1099B => "1099-B (Broker Sales)"
    case FormK1 => "K-1 (Partnership/S-Corp)"
    case Receipt => "Receipt"
    case BankStatement => "Bank Statement"
    case Other => "Other Document"
  }

  /** Different document types are shown under different labels. */
  lemma DocumentTypeDisplayNameInjective(v: DocumentType, w: DocumentType)
    requires DocumentTypeDisplayName(v) == DocumentTypeDisplayName(w)
    ensures v == w
  {
  }

  /** The variant names, lower-cased. */
  lemma DocumentTypeDebugNameLowered(v: DocumentType)
    ensures Lower(DocumentTypeDebugName(v)) in DocumentTypeAliases(v)
  {
    match v
    case W2 => assert Lower("W2") == "w2";
    case Form1099Int => assert Lower("Form1099Int") == "form1099int";
    case Form1099Div => assert Lower("Form1099Div") == "form1099div";
    case Form1099Misc => assert Lower("Form1099Misc") == "form1099misc";
    case Form1099Nec => assert Lower("Form1099Nec") == "form1099nec";
    case Form1099B => assert Lower("Form1099B") == "form1099b";
    case FormK1 => assert Lower("FormK1") == "formk1";
    case Receipt => assert Lower("Receipt") == "receipt";
    case BankStatement => assert Lower("BankStatement") == "bankstatement";
    case Other => assert Lower("Other") == "other";
  }

  /** No spelling is accepted for two different variants. */
  lemma DocumentTypeAliasesDisjoint(v: DocumentType, w: DocumentType)
    requires v != w
    ensures DocumentTypeAliases(v) !! DocumentTypeAliases(w)
  {
  }

  /** Every alias of a variant, in any letter case, parses to that variant. */
  lemma ParseDocumentTypeAccepts(v: DocumentType, s: string)
    requires Lower(s) in DocumentTypeAliases(v)
    ensures ParseDocumentType(s) == Ok(v)
  {
    var r := ParseDocumentType(s);
    if r.Ok? && r.value != v {
      DocumentTypeAliasesDisjoint(v, r.value);
    }
  }

  /** Parsing ignores letter case; only the error message keeps the input as given. */
  lemma ParseDocumentTypeIgnoresCase(s: string)
    ensures ParseDocumentType(Lower(s)).Ok? <==> ParseDocumentType(s).Ok?
    ensures ParseDocumentType(s).Ok? ==> ParseDocumentType(Lower(s)) == ParseDocumentType(s)
  {
    LowerIdempotent(s);
  }

  /** `from_str(as_str(v)) == Ok(v)` for every variant. */
  lemma DocumentTypeRoundTrip(v: DocumentType)
    ensures ParseDocumentType(DocumentTypeStr(v)) == Ok(v)
  {
    ParseDocumentTypeAccepts(v, DocumentTypeStr(v));
  }

  /** Different variants have different canonical spellings. */
  lemma DocumentTypeStrInjective(v: DocumentType, w: DocumentType)
    requires DocumentTypeStr(v) == DocumentTypeStr(w)
    ensures v == w
  {
    DocumentTypeRoundTrip(v);
    DocumentTypeRoundTrip(w);
  }

  /** The lower-cased variant name is also accepted, and parses back to the variant. */
  lemma DocumentTypeDebugNameParses(v: DocumentType)
    ensures ParseDocumentType(Lower(DocumentTypeDebugName(v))) == Ok(v)
  {
    DocumentTypeDebugNameLowered(v);
    LowerIdempotent(DocumentTypeDebugName(v));
    ParseDocumentTypeAccepts(v, Lower(DocumentTypeDebugName(v)));
  }

  // ---------------------------------------------------------------------
  // Records
  // ---------------------------------------------------------------------

  /** An instant, as the clock reports it; its text form is not modelled. */
  type Timestamp = int

  /** The stored bytes of a social security number. */
  type Bytes = seq<char>

  datatype TaxReturn = TaxReturn(
    id: string,
    taxYear: int,
    filingStatus: string,
    firstName: string,
    lastName: string,
    ssnEncrypted: Option<Bytes>,
    spouseFirstName: Option<string>,
    spouseLastName: Option<string>,
    spouseSsnEncrypted: Option<Bytes>,
    wages: real,
    interestIncome: real,
    dividendIncome: real,
    capitalGains: real,
    businessIncome: real,
    otherIncome: real,
    grossIncome: real,
    adjustments: real,
    itemizedDeductions: real,
    useStandardDeduction: bool,
    federalTaxWithheld: real,
    stateTaxWithheld: real,
    estimatedPayments: real,
    calculatedTax: real,
    refundOrOwed: real,
    status: TaxReturnStatus,
    createdAt: Timestamp,
    updatedAt: Timestamp)

  datatype Deduction = Deduction(
    id: string,
    taxReturnId: string,
    category: DeductionCategory,
    description: string,
    amount: real,
    date: Option<string>,
    receiptId: Option<string>,
    createdAt: Timestamp)

  datatype Document = Document(
    id: string,
    taxReturnId: Option<string>,
    docType: DocumentType,
    originalName: string,
    filePath: string,
    fileSize: nat,
    ocrText: Option<string>,
    extractedData: Option<string>,
    createdAt: Timestamp)
}
