/**
 * The deduction commands: adding and patching a deduction record, the
 * response built from it, and the static category catalogue.
 */
module Deductions {
  import opened Wrappers
  import opened Text
  import opened Models

  datatype AddDeductionRequest = AddDeductionRequest(
    taxReturnId: string,
    category: string,
    description: string,
    amount: real,
    date: Option<string>,
    receiptId: Option<string>)

  datatype UpdateDeductionRequest = UpdateDeductionRequest(
    id: string,
    category: Option<string>,
    description: Option<string>,
    amount: Option<real>,
    date: Option<string>)

  datatype DeductionResponse = DeductionResponse(
    id: string,
    taxReturnId: string,
    category: string,
    categoryDisplay: string,
    description: string,
    amount: real,
    date: Option<string>,
    receiptId: Option<string>,
    createdAt: Timestamp)

  datatype DeductionCategoryInfo = DeductionCategoryInfo(
    id: string,
    name: string,
    description: string,
    schedule: string,
    examples: seq<string>)

  /** The stored deductions, by id. */
  type DeductionStore = map<string, Deduction>

  const NotFound: string := "Deduction not found"

  /** What every deduction command answers with: the category as its lower-cased variant name. */
  function ToResponse(d: Deduction): (r: DeductionResponse)
    ensures r.id == d.id && r.taxReturnId == d.taxReturnId
    ensures ParseDeductionCategory(r.category) == Ok(d.category)
    ensures r.categoryDisplay == DeductionCategoryDisplayName(d.category)
    ensures r.description == d.description && r.amount == d.amount
    ensures r.date == d.date && r.receiptId == d.receiptId && r.createdAt == d.createdAt
  {
    DeductionCategoryDebugNameParses(d.category);
    DeductionResponse(
      d.id, d.taxReturnId,
      Lower(DeductionCategoryDebugName(d.category)),
      DeductionCategoryDisplayName(d.category),
      d.description, d.amount, d.date, d.receiptId, d.createdAt)
  }

  // ---------------------------------------------------------------------
  // add_deduction
  // ---------------------------------------------------------------------

  datatype Added = Added(record: Deduction, response: DeductionResponse)

  /** `add_deduction`: the category must parse before anything is inserted. */
  function AddDeduction(req: AddDeductionRequest, id: string, now: Timestamp): (r: Result<Added, string>)
    ensures r.Err? <==> ParseDeductionCategory(req.category).Err?
    ensures r.Err? ==> r.error == "Unknown category: " + req.category
    ensures r.Ok? ==>
      && r.value.record == Deduction(id, req.taxReturnId, ParseDeductionCategory(req.category).value,
                                     req.description, req.amount, req.date, req.receiptId, now)
      && r.value.response == ToResponse(r.value.record)
  {
    var category :- ParseDeductionCategory(req.category);
    var record := Deduction(id, req.taxReturnId, category, req.description, req.amount, req.date, req.receiptId, now);
    Ok(Added(record, ToResponse(record)))
  }

  /** The store after `add_deduction`: the new record under its id, or unchanged on error. */
  function StoreAfterAdd(db: DeductionStore, req: AddDeductionRequest, id: string, now: Timestamp): (r: DeductionStore)
    ensures AddDeduction(req, id, now).Ok? ==> r == db[id := AddDeduction(req, id, now).value.record]
    ensures AddDeduction(req, id, now).Err? ==> r == db
  {
    match AddDeduction(req, id, now)
    case Ok(a) => db[id := a.record]
    case Err(_) => db
  }

  // ---------------------------------------------------------------------
  // update_deduction
  // ---------------------------------------------------------------------

  /** Overwrite the supplied fields; a supplied category must parse, and a supplied date is set. */
  function PatchDeduction(d: Deduction, req: UpdateDeductionRequest): (r: Result<Deduction, string>)
    ensures r.Err? <==> req.category.Some? && ParseDeductionCategory(req.category.value).Err?
    ensures r.Err? ==> r.error == "Unknown category: " + req.category.value
    ensures r.Ok? ==>
      && r.value.category == (if req.category.Some? then ParseDeductionCategory(req.category.value).value else d.category)
      && r.value.description == req.description.UnwrapOr(d.description)
      && r.value.amount == req.amount.UnwrapOr(d.amount)
      && r.value.date == (if req.date.Some? then req.date else d.date)
      && r.value.id == d.id && r.value.taxReturnId == d.taxReturnId
      && r.value.receiptId == d.receiptId && r.value.createdAt == d.createdAt
  {
    var category :- match req.category
      case Some(c) => ParseDeductionCategory(c)
      case None => Ok(d.category);
    Ok(d.(
      category := category,
      description := req.description.UnwrapOr(d.description),
      amount := req.amount.UnwrapOr(d.amount),
      date := if req.date.Some? then req.date else d.date))
  }

  /** `update_deduction`: the patched record, or the not-found or category error. */
  function UpdateDeduction(db: DeductionStore, req: UpdateDeductionRequest): (r: Result<Deduction, string>)
    ensures req.id !in db ==> r == Err(NotFound)
    ensures req.id in db ==> r == PatchDeduction(db[req.id], req)
  {
    if req.id in db then PatchDeduction(db[req.id], req) else Err(NotFound)
  }

  /** The response `update_deduction` answers with. */
  function UpdateDeductionResponse(db: DeductionStore, req: UpdateDeductionRequest): (r: Result<DeductionResponse, string>)
    ensures r.Ok? <==> UpdateDeduction(db, req).Ok?
    ensures r.Ok? ==> r.value == ToResponse(UpdateDeduction(db, req).value)
    ensures r.Err? ==> r.error == UpdateDeduction(db, req).error
  {
    var d :- UpdateDeduction(db, req);
    Ok(ToResponse(d))
  }

  /** The store after `update_deduction`: one record replaced, or nothing written on any error. */
  function StoreAfterUpdate(db: DeductionStore, req: UpdateDeductionRequest): (r: DeductionStore)
    ensures UpdateDeduction(db, req).Ok? ==> r == db[req.id := UpdateDeduction(db, req).value]
    ensures UpdateDeduction(db, req).Err? ==> r == db
    ensures r.Keys == db.Keys
  {
    match UpdateDeduction(db, req)
    case Ok(d) => db[req.id := d]
    case Err(_) => db
  }

  /** An update never clears a date that was already set. */
  lemma UpdateKeepsDate(d: Deduction, req: UpdateDeductionRequest)
    requires d.date.Some?
    requires PatchDeduction(d, req).Ok?
    ensures PatchDeduction(d, req).value.date.Some?
  {
  }

  /** A rejected category writes nothing, whatever else the request supplies. */
  lemma InvalidCategoryWritesNothing(db: DeductionStore, req: UpdateDeductionRequest)
    requires req.id in db
    requires req.category.Some? && ParseDeductionCategory(req.category.value).Err?
    ensures StoreAfterUpdate(db, req) == db
    ensures UpdateDeduction(db, req) == Err("Unknown category: " + req.category.value)
  {
  }

  /** Applying the same update twice is the same as applying it once. */
  lemma PatchIdempotent(d: Deduction, req: UpdateDeductionRequest)
    requires PatchDeduction(d, req).Ok?
    ensures PatchDeduction(PatchDeduction(d, req).value, req) == PatchDeduction(d, req)
  {
  }

  /** Supplying a category's canonical spelling sets exactly that category. */
  lemma UpdateToCanonicalCategory(d: Deduction, req: UpdateDeductionRequest, c: DeductionCategory)
    requires req.category == Some(DeductionCategoryStr(c))
    ensures PatchDeduction(d, req).Ok? && PatchDeduction(d, req).value.category == c
  {
    DeductionCategoryRoundTrip(c);
  }

  // ---------------------------------------------------------------------
  // list_deductions
  // ---------------------------------------------------------------------

  /** `list_deductions`: one response per stored deduction of the return, in the order the store yields them. */
  function ListDeductions(ds: seq<Deduction>): (r: seq<DeductionResponse>)
    ensures |r| == |ds|
    ensures forall i :: 0 <= i < |ds| ==> r[i] == ToResponse(ds[i])
    ensures forall i :: 0 <= i < |ds| ==> ParseDeductionCategory(r[i].category) == Ok(ds[i].category)
  {
    seq(|ds|, i requires 0 <= i < |ds| => ToResponse(ds[i]))
  }

  /** A deduction just added lists exactly as `add_deduction` answered. */
  lemma AddedDeductionListsAsAnswered(req: AddDeductionRequest, id: string, now: Timestamp)
    requires AddDeduction(req, id, now).Ok?
    ensures ListDeductions([AddDeduction(req, id, now).value.record]) == [AddDeduction(req, id, now).value.response]
  {
  }

  // ---------------------------------------------------------------------
  // get_deduction_categories
  // ---------------------------------------------------------------------

  /** The ten categories, in the catalogue's order. */
  const AllDeductionCategories: seq<DeductionCategory> := [
    Medical, StateLocalTaxes, MortgageInterest, Charitable, Business,
    HomeOffice, Education, Retirement, HealthSavings, DeductionCategory.Other]

  /** The static catalogue the category picker shows. */
  const DeductionCategories: seq<DeductionCategoryInfo> := [
    DeductionCategoryInfo("medical", "Medical & Dental",
      "Medical and dental expenses exceeding 7.5% of AGI", "Schedule A",
      ["Doctor visits", "Prescription medications", "Health insurance premiums", "Medical equipment"]),
    DeductionCategoryInfo("state_local_taxes", "State & Local Taxes (SALT)",
      "State income/sales tax and property taxes (max $10,000)", "Schedule A",
      ["State income tax", "Property tax", "Vehicle registration fees"]),
    DeductionCategoryInfo("mortgage_interest", "Mortgage Interest",
      "Interest on mortgage for primary residence", "Schedule A",
      ["Home mortgage interest", "Points paid on home purchase"]),
    DeductionCategoryInfo("charitable", "Charitable Contributions",
      "Donations to qualified charitable organizations", "Schedule A",
      ["Cash donations", "Non-cash donations", "Volunteer mileage"]),
    DeductionCategoryInfo("business", "Business Expenses",
      "Ordinary and necessary business expenses", "Schedule C",
      ["Office supplies", "Business travel", "Professional services", "Equipment"]),
    DeductionCategoryInfo("home_office", "Home Office",
      "Expenses for regular and exclusive business use of home", "Schedule C / Form 8829",
      ["Utilities", "Rent/mortgage", "Internet", "Office furniture"]),
    DeductionCategoryInfo("education", "Education",
      "Work-related education expenses", "Various",
      ["Tuition", "Books and supplies", "Professional certifications"]),
    DeductionCategoryInfo("retirement", "Retirement Contributions",
      "Contributions to qualified retirement accounts", "Form 1040",
      ["Traditional IRA", "SEP IRA", "Solo 401(k)"]),
    DeductionCategoryInfo("health_savings", "Health Savings Account (HSA)",
      "Contributions to HSA accounts", "Form 8889",
      ["HSA contributions"]),
    DeductionCategoryInfo("other", "Other Deductions",
      "Other allowable deductions", "Various",
      ["Student loan interest", "Self-employment tax", "Alimony (pre-2019)"])
  ]

  /** `get_deduction_categories`. */
  function GetDeductionCategories(): (r: Result<seq<DeductionCategoryInfo>, string>)
    ensures r.Ok? && |r.value| == |AllDeductionCategories| == 10
    ensures forall i :: 0 <= i < |r.value| ==> r.value[i].id == DeductionCategoryStr(AllDeductionCategories[i])
  {
    Ok(DeductionCategories)
  }

  /** Every category is listed once. */
  lemma AllCategoriesListed(c: DeductionCategory)
    ensures c in AllDeductionCategories
    ensures forall i, j :: 0 <= i < j < |AllDeductionCategories| ==> AllDeductionCategories[i] != AllDeductionCategories[j]
  {
  }

  /** Entry `i` of the catalogue is category `i`, under its canonical spelling. */
  lemma CatalogueIdsAreCanonical(i: nat)
    requires i < |DeductionCategories|
    ensures |AllDeductionCategories| == |DeductionCategories|
    ensures DeductionCategories[i].id == DeductionCategoryStr(AllDeductionCategories[i])
  {
  }

  /** Every catalogue id parses to its category; no id appears twice; every category has an entry. */
  lemma CatalogueCoversCategories(c: DeductionCategory)
    ensures exists i :: 0 <= i < |DeductionCategories| && DeductionCategories[i].id == DeductionCategoryStr(c)
    ensures forall i :: 0 <= i < |DeductionCategories| ==>
      ParseDeductionCategory(DeductionCategories[i].id) == Ok(AllDeductionCategories[i])
    ensures forall i, j :: 0 <= i < j < |DeductionCategories| ==> DeductionCategories[i].id != DeductionCategories[j].id
  {
    AllCategoriesListed(c);
    var k :| 0 <= k < |AllDeductionCategories| && AllDeductionCategories[k] == c;
    CatalogueIdsAreCanonical(k);
    forall i | 0 <= i < |DeductionCategories|
      ensures ParseDeductionCategory(DeductionCategories[i].id) == Ok(AllDeductionCategories[i])
    {
      CatalogueIdsAreCanonical(i);
      DeductionCategoryRoundTrip(AllDeductionCategories[i]);
    }
    forall i, j | 0 <= i < j < |DeductionCategories|
      ensures DeductionCategories[i].id != DeductionCategories[j].id
    {
      CatalogueIdsAreCanonical(i);
      CatalogueIdsAreCanonical(j);
      if DeductionCategories[i].id == DeductionCategories[j].id {
        DeductionCategoryStrInjective(AllDeductionCategories[i], AllDeductionCategories[j]);
      }
    }
  }

  /**
   * The catalogue's names agree with `display_name` except for three
   * entries, which spell out an abbreviation or add a word.
   */
  lemma CatalogueNamesVersusDisplayNames(i: nat)
    requires i < |DeductionCategories|
    ensures DeductionCategories[i].name == DeductionCategoryDisplayName(AllDeductionCategories[i])
        <==> AllDeductionCategories[i] !in {StateLocalTaxes, HealthSavings, DeductionCategory.Other}
  {
  }
}
