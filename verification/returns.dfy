/**
 * The tax-return commands, each as a pure function of the stored records,
 * the request, and the identifier and clock reading the command would draw.
 */
module Returns {
  import opened Wrappers
  import opened Text
  import opened Models

  datatype CreateTaxReturnRequest = CreateTaxReturnRequest(
    taxYear: int,
    filingStatus: string,
    firstName: string,
    lastName: string,
    ssn: Option<string>,
    spouseFirstName: Option<string>,
    spouseLastName: Option<string>,
    spouseSsn: Option<string>)

  /** Every field but `id` is optional; `grossIncome` is accepted and then ignored. */
  datatype UpdateTaxReturnRequest = UpdateTaxReturnRequest(
    id: string,
    grossIncome: Option<real>,
    wages: Option<real>,
    interestIncome: Option<real>,
    dividendIncome: Option<real>,
    capitalGains: Option<real>,
    businessIncome: Option<real>,
    otherIncome: Option<real>,
    adjustments: Option<real>,
    itemizedDeductions: Option<real>,
    useStandardDeduction: Option<bool>,
    federalTaxWithheld: Option<real>,
    stateTaxWithheld: Option<real>,
    estimatedPayments: Option<real>)

  datatype TaxReturnSummary = TaxReturnSummary(
    id: string,
    taxYear: int,
    filingStatus: string,
    name: string,
    status: string,
    grossIncome: real,
    totalTax: real,
    refundOrOwed: real,
    createdAt: Timestamp,
    updatedAt: Timestamp)

  /** The stored returns, by id. */
  type ReturnStore = map<string, TaxReturn>

  const NotFound: string := "Tax return not found"

  /** The six income fields added together. */
  function IncomeSum(r: TaxReturn): real {
    r.wages + r.interestIncome + r.dividendIncome + r.capitalGains + r.businessIncome + r.otherIncome
  }

  /** The stored gross income is the sum of the income fields. */
  predicate GrossIncomeConsistent(r: TaxReturn) {
    r.grossIncome == IncomeSum(r)
  }

  /** The summary's display name. */
  function FullName(first: string, last: string): (r: string)
    ensures |r| == |first| + |last| + 1
    ensures r[..|first|] == first && r[|first|] == ' ' && r[|first| + 1..] == last
  {
    first + " " + last
  }

  // ---------------------------------------------------------------------
  // create_tax_return
  // ---------------------------------------------------------------------

  /** The record `create_tax_return` inserts: empty figures, a draft, created and updated now. */
  function NewTaxReturn(req: CreateTaxReturnRequest, id: string, now: Timestamp): (r: TaxReturn)
    ensures r.id == id && r.taxYear == req.taxYear && r.filingStatus == req.filingStatus
    ensures r.firstName == req.firstName && r.lastName == req.lastName
    ensures r.ssnEncrypted == req.ssn && r.spouseSsnEncrypted == req.spouseSsn
    ensures r.spouseFirstName == req.spouseFirstName && r.spouseLastName == req.spouseLastName
    ensures IncomeSum(r) == 0.0 && r.grossIncome == 0.0 && GrossIncomeConsistent(r)
    ensures r.adjustments == 0.0 && r.itemizedDeductions == 0.0
    ensures r.federalTaxWithheld == 0.0 && r.stateTaxWithheld == 0.0 && r.estimatedPayments == 0.0
    ensures r.calculatedTax == 0.0 && r.refundOrOwed == 0.0
    ensures r.useStandardDeduction && r.status == Draft
    ensures r.createdAt == now && r.updatedAt == now
  {
    TaxReturn(
      id, req.taxYear, req.filingStatus, req.firstName, req.lastName,
      req.ssn, req.spouseFirstName, req.spouseLastName, req.spouseSsn,
      0.0, 0.0, 0.0, 0.0, 0.0, 0.0, 0.0, 0.0, 0.0,
      true,
      0.0, 0.0, 0.0, 0.0, 0.0,
      Draft, now, now)
  }

  datatype Created = Created(record: TaxReturn, summary: TaxReturnSummary)

  /** `create_tax_return`: the inserted record and the summary handed back. */
  function CreateTaxReturn(req: CreateTaxReturnRequest, id: string, now: Timestamp): (r: Created)
    ensures r.record == NewTaxReturn(req, id, now)
    ensures r.summary.id == id && r.summary.taxYear == req.taxYear && r.summary.filingStatus == req.filingStatus
    ensures r.summary.name == FullName(req.firstName, req.lastName)
    ensures r.summary.status == "draft"
    ensures r.summary.grossIncome == 0.0 && r.summary.totalTax == 0.0 && r.summary.refundOrOwed == 0.0
    ensures r.summary.createdAt == now && r.summary.updatedAt == now
  {
    var record := NewTaxReturn(req, id, now);
    Created(record, TaxReturnSummary(
      record.id, record.taxYear, record.filingStatus,
      FullName(record.firstName, record.lastName),
      "draft", 0.0, 0.0, 0.0, now, now))
  }

  // ---------------------------------------------------------------------
  // list_tax_returns and get_tax_return
  // ---------------------------------------------------------------------

  /** The list projection: the status is the variant name lower-cased, the total tax the calculated tax. */
  function Summarize(r: TaxReturn): (s: TaxReturnSummary)
    ensures s.id == r.id && s.taxYear == r.taxYear && s.filingStatus == r.filingStatus
    ensures s.name == FullName(r.firstName, r.lastName)
    ensures ParseTaxReturnStatus(s.status) == Ok(r.status)
    ensures s.grossIncome == r.grossIncome && s.totalTax == r.calculatedTax && s.refundOrOwed == r.refundOrOwed
    ensures s.createdAt == r.createdAt && s.updatedAt == r.updatedAt
  {
    TaxReturnStatusDebugNameParses(r.status);
    TaxReturnSummary(
      r.id, r.taxYear, r.filingStatus,
      FullName(r.firstName, r.lastName),
      Lower(TaxReturnStatusDebugName(r.status)),
      r.grossIncome, r.calculatedTax, r.refundOrOwed,
      r.createdAt, r.updatedAt)
  }

  /** `list_tax_returns`: one summary per stored return, in the order the store yields them. */
  function ListSummaries(rs: seq<TaxReturn>): (r: seq<TaxReturnSummary>)
    ensures |r| == |rs|
    ensures forall i :: 0 <= i < |rs| ==> r[i] == Summarize(rs[i])
  {
    seq(|rs|, i requires 0 <= i < |rs| => Summarize(rs[i]))
  }

  /** `get_tax_return`: the stored record, or the not-found error. */
  function GetTaxReturn(db: ReturnStore, id: string): (r: Result<TaxReturn, string>)
    ensures r.Ok? <==> id in db
    ensures r.Ok? ==> r.value == db[id]
    ensures r.Err? ==> r.error == NotFound
  {
    if id in db then Ok(db[id]) else Err(NotFound)
  }

  /** The summary a new return is created with is what listing it would show. */
  lemma CreateSummaryMatchesList(req: CreateTaxReturnRequest, id: string, now: Timestamp)
    ensures CreateTaxReturn(req, id, now).summary == Summarize(CreateTaxReturn(req, id, now).record)
  {
    assert Lower(TaxReturnStatusDebugName(Draft)) == "draft";
  }

  /**
   * The listed status is the canonical spelling for every status except
   * InProgress, which lists as "inprogress" rather than "in_progress".
   */
  lemma SummaryStatusSpelling(r: TaxReturn)
    ensures Summarize(r).status == TaxReturnStatusStr(r.status) <==> r.status != InProgress
  {
    match r.status
    case Draft => assert Lower("Draft") == "draft";
    case InProgress => assert Lower("InProgress") == "inprogress";
    case Review => assert Lower("Review") == "review";
    case Filed => assert Lower("Filed") == "filed";
    case Amended => assert Lower("Amended") == "amended";
  }

  // ---------------------------------------------------------------------
  // update_tax_return
  // ---------------------------------------------------------------------

  /** The supplied value, or the old one. */
  function Patch<T>(current: T, supplied: Option<T>): (r: T)
    ensures supplied.Some? ==> r == supplied.value
    ensures supplied.None? ==> r == current
  {
    supplied.UnwrapOr(current)
  }

  /** Overwrite the supplied fields, recompute the gross income, stamp the update. */
  function ApplyUpdate(r: TaxReturn, req: UpdateTaxReturnRequest, now: Timestamp): (u: TaxReturn)
    ensures u.wages == Patch(r.wages, req.wages)
    ensures u.interestIncome == Patch(r.interestIncome, req.interestIncome)
    ensures u.dividendIncome == Patch(r.dividendIncome, req.dividendIncome)
    ensures u.capitalGains == Patch(r.capitalGains, req.capitalGains)
    ensures u.businessIncome == Patch(r.businessIncome, req.businessIncome)
    ensures u.otherIncome == Patch(r.otherIncome, req.otherIncome)
    ensures u.adjustments == Patch(r.adjustments, req.adjustments)
    ensures u.itemizedDeductions == Patch(r.itemizedDeductions, req.itemizedDeductions)
    ensures u.useStandardDeduction == Patch(r.useStandardDeduction, req.useStandardDeduction)
    ensures u.federalTaxWithheld == Patch(r.federalTaxWithheld, req.federalTaxWithheld)
    ensures u.stateTaxWithheld == Patch(r.stateTaxWithheld, req.stateTaxWithheld)
    ensures u.estimatedPayments == Patch(r.estimatedPayments, req.estimatedPayments)
    ensures GrossIncomeConsistent(u)
    ensures u.updatedAt == now
    ensures u.id == r.id && u.taxYear == r.taxYear && u.filingStatus == r.filingStatus
    ensures u.firstName == r.firstName && u.lastName == r.lastName
    ensures u.ssnEncrypted == r.ssnEncrypted && u.spouseSsnEncrypted == r.spouseSsnEncrypted
    ensures u.spouseFirstName == r.spouseFirstName && u.spouseLastName == r.spouseLastName
    ensures u.status == r.status && u.createdAt == r.createdAt
    ensures u.calculatedTax == r.calculatedTax && u.refundOrOwed == r.refundOrOwed
  {
    var patched := r.(
      wages := Patch(r.wages, req.wages),
      interestIncome := Patch(r.interestIncome, req.interestIncome),
      dividendIncome := Patch(r.dividendIncome, req.dividendIncome),
      capitalGains := Patch(r.capitalGains, req.capitalGains),
      businessIncome := Patch(r.businessIncome, req.businessIncome),
      otherIncome := Patch(r.otherIncome, req.otherIncome),
      adjustments := Patch(r.adjustments, req.adjustments),
      itemizedDeductions := Patch(r.itemizedDeductions, req.itemizedDeductions),
      useStandardDeduction := Patch(r.useStandardDeduction, req.useStandardDeduction),
      federalTaxWithheld := Patch(r.federalTaxWithheld, req.federalTaxWithheld),
      stateTaxWithheld := Patch(r.stateTaxWithheld, req.stateTaxWithheld),
      estimatedPayments := Patch(r.estimatedPayments, req.estimatedPayments));
    patched.(grossIncome := IncomeSum(patched), updatedAt := now)
  }

  /** `update_tax_return`: the updated record, which is also what gets stored, or the not-found error. */
  function UpdateTaxReturn(db: ReturnStore, req: UpdateTaxReturnRequest, now: Timestamp): (r: Result<TaxReturn, string>)
    ensures r.Err? <==> req.id !in db
    ensures r.Err? ==> r.error == NotFound
    ensures r.Ok? ==> r.value == ApplyUpdate(db[req.id], req, now)
  {
    var stored :- GetTaxReturn(db, req.id);
    Ok(ApplyUpdate(stored, req, now))
  }

  /** The store after a successful update: the one record replaced, every other one kept. */
  function StoreAfterUpdate(db: ReturnStore, req: UpdateTaxReturnRequest, now: Timestamp): (r: ReturnStore)
    ensures req.id in db ==> r == db[req.id := ApplyUpdate(db[req.id], req, now)]
    ensures req.id !in db ==> r == db
    ensures r.Keys == db.Keys
  {
    match UpdateTaxReturn(db, req, now)
    case Ok(u) => db[req.id := u]
    case Err(_) => db
  }

  /** Reading a return back after an update gives what the update answered; other returns read as before. */
  lemma GetAfterUpdate(db: ReturnStore, req: UpdateTaxReturnRequest, now: Timestamp, other: string)
    ensures GetTaxReturn(StoreAfterUpdate(db, req, now), req.id) == UpdateTaxReturn(db, req, now)
    ensures other != req.id ==> GetTaxReturn(StoreAfterUpdate(db, req, now), other) == GetTaxReturn(db, other)
  {
  }

  /** The gross income in the request has no effect. */
  lemma UpdateIgnoresGrossIncome(db: ReturnStore, req: UpdateTaxReturnRequest, g: Option<real>, now: Timestamp)
    ensures UpdateTaxReturn(db, req.(grossIncome := g), now) == UpdateTaxReturn(db, req, now)
  {
    if req.id in db {
      var r := db[req.id];
      assert ApplyUpdate(r, req.(grossIncome := g), now) == ApplyUpdate(r, req, now);
    }
  }

  /** Applying the same update twice is the same as applying it once, at the later time. */
  lemma UpdateIdempotent(r: TaxReturn, req: UpdateTaxReturnRequest, t1: Timestamp, t2: Timestamp)
    ensures ApplyUpdate(ApplyUpdate(r, req, t1), req, t2) == ApplyUpdate(r, req, t2)
  {
  }

  /** An update with nothing supplied only recomputes the gross income and the timestamp. */
  lemma EmptyUpdate(r: TaxReturn, id: string, g: Option<real>, now: Timestamp)
    ensures var req := UpdateTaxReturnRequest(id, g, None, None, None, None, None, None, None, None, None, None, None, None);
      ApplyUpdate(r, req, now) == r.(grossIncome := IncomeSum(r), updatedAt := now)
  {
  }

  /** On a consistent record, an empty update changes nothing but the timestamp. */
  lemma EmptyUpdateOnConsistent(r: TaxReturn, id: string, g: Option<real>, now: Timestamp)
    requires GrossIncomeConsistent(r)
    ensures var req := UpdateTaxReturnRequest(id, g, None, None, None, None, None, None, None, None, None, None, None, None);
      ApplyUpdate(r, req, now) == r.(updatedAt := now)
  {
    EmptyUpdate(r, id, g, now);
  }

  /** Updates of disjoint sets of income fields commute, up to the timestamp. */
  lemma WagesAndInterestCommute(r: TaxReturn, a: UpdateTaxReturnRequest, b: UpdateTaxReturnRequest, now: Timestamp)
    requires a.interestIncome.None? && a.dividendIncome.None? && a.capitalGains.None?
    requires a.businessIncome.None? && a.otherIncome.None? && a.adjustments.None?
    requires a.itemizedDeductions.None? && a.useStandardDeduction.None? && a.federalTaxWithheld.None?
    requires a.stateTaxWithheld.None? && a.estimatedPayments.None?
    requires b.wages.None?
    ensures ApplyUpdate(ApplyUpdate(r, a, now), b, now) == ApplyUpdate(ApplyUpdate(r, b, now), a, now)
  {
  }
}
