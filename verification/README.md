# Tax engine and record commands of a desktop tax-preparation app

This project models, in Dafny, the deterministic core of a Tauri desktop
tax-preparation application, and proves properties of that model:

- **The federal income-tax engine** (`TaxEngine`). It covers:
  - the five filing statuses and their case-insensitive parser;
  - the 2024 bracket tables (IRS Revenue Procedure 2023-34) and standard deductions;
  - the progressive bracket walk `calculate_tax`, which yields the total tax, the marginal and effective rates, and a per-bracket breakdown.

  The walk follows the source loop step by step. A separate closed-form definition (`Breakdown`) gives, for each bracket, `min(x, max) - min`. A proof shows the walk matches that definition on every well-formed table. The sum, bound and monotonicity properties are proved against it.
- **The flat-rate state income tax** (`StateTaxes`): one rate for each of 50 states plus DC, looked up after the code is upper-cased.
- **Employee FICA** (`Fica`) and **self-employment tax** (`SelfEmployment`).
- **The tax commands** (`TaxCommands`). The federal request pipeline runs in this order:
  1. parse the filing status;
  2. take the larger of itemized and standard deductions;
  3. clamp taxable income at zero;
  4. run the engine;
  5. clamp credits;
  6. add the state tax, with an unsupported state counting as zero.

  The module also models the standalone state-tax command, the bracket lookup and the quarterly estimator.
- **The stored enumerations** (`Models`): tax-return status, deduction category and document type. Each has its case-insensitive alias parser, its canonical spelling, its variant name and its display name. The module also holds the record shapes of returns, deductions and documents.
- **The tax-return commands** (`Returns`): the initial record, get-by-id, the field-by-field patch with the gross income recomputed, and the summary projection.
- **The deduction commands** (`Deductions`): category validation on add, the field-by-field patch, the response projection and the static category catalogue.
- **The settings commands** (`Settings`): default settings, the stored settings document, the API-key format check, and the key mask.

Conventions:
- Money and rates are exact `real`s. An unbounded top bracket is the `Unbounded` constructor.
- Database tables are `map`s keyed by id.
- Each command is a pure function of what it reads: the store, the request, and the id and clock reading it would draw.
- `Wrappers` supplies `Option`/`Result`. `Text` supplies the ASCII case mapping and `starts_with`.

## Model

| member | source | states |
|---|---|---|
| TaxEngine.ParseFilingStatus | src-tauri/src/tax_engine/mod.rs:32-41 | a parsed status has the lower-cased input among its aliases; an unknown input is `InvalidFilingStatus(input)`, and no status has it as an alias |
| TaxEngine.FilingStatusAliasesDisjoint | src-tauri/src/tax_engine/mod.rs:33-39 | no spelling is accepted for two different statuses |
| TaxEngine.ParseFilingStatusAccepts | src-tauri/src/tax_engine/mod.rs:32-41 | every alias, in any letter case, parses to its status |
| TaxEngine.FilingStatusLabel | src-tauri/src/tax_engine/mod.rs:43-51 | the display label parses back to its status for four statuses; "Qualifying Widow(er)" is none of the accepted spellings and does not parse |
| TaxEngine.TaxError.Message | src-tauri/src/tax_engine/mod.rs:10-18 | the rendered text ends with the offending input, and its first letter tells the two error kinds apart |
| TaxEngine.MessageInjective | src-tauri/src/tax_engine/mod.rs:10-18 | two errors with the same text are the same error |
| TaxEngine.ChainShape | src-tauri/src/tax_engine/mod.rs:86-124 | a well-formed run starts at its lower bound, is contiguous, ends unbounded, and has strictly increasing mins and rates within [0, 1] |
| TaxEngine.TableShape | src-tauri/src/tax_engine/mod.rs:86-124 | every table starts at 0, is contiguous, has exactly one unbounded bracket (the last) and strictly increasing rates |
| TaxEngine.SingleTableValid | src-tauri/src/tax_engine/mod.rs:86-94 | the single table is well formed |
| TaxEngine.JointTableValid | src-tauri/src/tax_engine/mod.rs:96-104 | the joint table is well formed |
| TaxEngine.SeparateTableValid | src-tauri/src/tax_engine/mod.rs:106-114 | the separate table is well formed |
| TaxEngine.HouseholdTableValid | src-tauri/src/tax_engine/mod.rs:116-124 | the head-of-household table is well formed |
| TaxEngine.Brackets | src-tauri/src/tax_engine/mod.rs:138-147 | `get_brackets` returns a well-formed table of seven brackets |
| TaxEngine.BracketsLookup | src-tauri/src/tax_engine/mod.rs:127-147 | the table ignores the year, and qualifying widow(er)s get the joint table |
| TaxEngine.StandardDeduction | src-tauri/src/tax_engine/mod.rs:150-159 | the standard deduction is positive |
| TaxEngine.StandardDeductionValues | src-tauri/src/tax_engine/mod.rs:130-134 | 14,600 / 29,200 / 14,600 / 21,900 / 29,200 for S / MFJ / MFS / HOH / QW, in every year |
| TaxEngine.SumAppend | src-tauri/src/tax_engine/mod.rs:188 | a sum grows by the appended element |
| TaxEngine.SumConcat | src-tauri/src/tax_engine/mod.rs:188 | the sum of a concatenation is the sum of the sums |
| TaxEngine.SumTaxAppend | src-tauri/src/tax_engine/mod.rs:188 | appending an entry adds its tax to the total |
| TaxEngine.SumTaxableAppend | src-tauri/src/tax_engine/mod.rs:179-186 | appending an entry adds its amount to the taxable sum |
| TaxEngine.SumsConcat | src-tauri/src/tax_engine/mod.rs:179-188 | both breakdown sums distribute over concatenation |
| TaxEngine.Step | src-tauri/src/tax_engine/mod.rs:174-189 | one loop iteration keeps the running total equal to the sum of recorded taxes and the marginal rate equal to the last recorded rate, and only appends |
| TaxEngine.StepRecords | src-tauri/src/tax_engine/mod.rs:178-189 | a positive amount records one entry with the bracket's bounds and rate, amount times rate as its tax, and adds that tax to the total |
| TaxEngine.Walk | src-tauri/src/tax_engine/mod.rs:169-192 | the loop keeps total, marginal rate and details consistent and only appends |
| TaxEngine.BreakdownBelow | src-tauri/src/tax_engine/mod.rs:170-172 | income at or below a run's start contributes nothing |
| TaxEngine.BreakdownStarts | src-tauri/src/tax_engine/mod.rs:174-186 | above a run's start the first bracket contributes a positive amount taxed at its rate |
| TaxEngine.StepIsContribution | src-tauri/src/tax_engine/mod.rs:174-186 | a step within a reached bracket records exactly `min(x, max) - min` taxed at the rate |
| TaxEngine.WalkIsBreakdown | src-tauri/src/tax_engine/mod.rs:169-192 | the subtract-the-bracket-size walk emits exactly the closed-form breakdown |
| TaxEngine.BreakdownCoversIncome | src-tauri/src/tax_engine/mod.rs:174-192 | above a run's start the breakdown's amounts add up to the income above that start |
| TaxEngine.BreakdownIsPrefix | src-tauri/src/tax_engine/mod.rs:175-186 | entry i lies in bracket i (same bounds and rate, `0 < amount <= max - min`, `tax = amount * rate`), and there are at most as many entries as brackets |
| TaxEngine.WeightedStep | src-tauri/src/tax_engine/mod.rs:179-188 | appending an entry taxed within [lo, hi] keeps the total between lo and hi times the taxable sum |
| TaxEngine.WeightedRateBounds | src-tauri/src/tax_engine/mod.rs:179-188 | a breakdown taxed at rates in [lo, hi] costs between lo and hi times its taxable sum |
| TaxEngine.CalculateOnSpec | src-tauri/src/tax_engine/mod.rs:162-207 | over any well-formed table: the tax sum equals the total; the marginal rate is the last entry's rate; the details equal the closed form; the effective rate is total / income, or 0 with no details when income <= 0; for positive income the amounts sum to the income; entries fit their brackets |
| TaxEngine.CalculateTax | src-tauri/src/tax_engine/mod.rs:162-207 | `calculate_tax`: the tax sum equals the total; income <= 0 gives total, marginal and effective rate 0 and no details; otherwise the marginal rate is the last entry's rate, effective = total / income, the amounts sum to the income, and entry i fits bracket i |
| TaxEngine.RatesWithinWeaken | src-tauri/src/tax_engine/mod.rs:176 | lowering the floor keeps entries' rates within range |
| TaxEngine.RatesWithinSingle | src-tauri/src/tax_engine/mod.rs:176 | one entry taxed at its rate is within [floor, its rate] |
| TaxEngine.RatesWithinCons | src-tauri/src/tax_engine/mod.rs:176 | an entry in front of a breakdown keeps it within [floor, last rate] |
| TaxEngine.BreakdownRates | src-tauri/src/tax_engine/mod.rs:175-189 | every entry is taxed at its own rate on a non-negative amount, at a rate between the first rate and the marginal rate |
| TaxEngine.BreakdownTaxBounds | src-tauri/src/tax_engine/mod.rs:179-189 | for positive income the tax lies between first-rate times income and marginal-rate times income |
| TaxEngine.CalculateOnIsBreakdown | src-tauri/src/tax_engine/mod.rs:162-207 | the walk's result is the closed form: details, total, marginal rate, effective rate |
| TaxEngine.CalculateOnRateBounds | src-tauri/src/tax_engine/mod.rs:195-199 | over any table the effective rate lies between the first and the marginal rate |
| TaxEngine.EffectiveRateBounds | src-tauri/src/tax_engine/mod.rs:195-199 | the effective rate of `calculate_tax` lies between the table's first rate and the marginal rate |
| TaxEngine.StepMonotone | src-tauri/src/tax_engine/mod.rs:174-189 | a step with more income and more tax so far ends with more tax |
| TaxEngine.WalkMonotone | src-tauri/src/tax_engine/mod.rs:169-192 | with non-negative rates, more remaining income never yields less tax |
| TaxEngine.WalkGrows | src-tauri/src/tax_engine/mod.rs:169-192 | with non-negative rates the walk only adds tax |
| TaxEngine.CalculateTaxMonotone | src-tauri/src/tax_engine/mod.rs:162-207 | more taxable income never means less tax |
| TaxEngine.SingleBreakdownAt35400 | src-tauri/src/tax_engine/mod.rs:379-388 | a single filer at 35,400 reaches exactly the first two brackets |
| TaxEngine.SingleFilerExample | src-tauri/src/tax_engine/mod.rs:379-388 | a single filer at 35,400 owes 4,016 with marginal rate 0.12 |
| TaxEngine.JointBreakdownAt120800 | src-tauri/src/tax_engine/mod.rs:391-401 | a joint filer at 120,800 reaches exactly the first three brackets |
| TaxEngine.JointFilerExample | src-tauri/src/tax_engine/mod.rs:391-401 | a joint filer at 120,800 owes 16,682 with marginal rate 0.22 |
| StateTaxes.KeyOf | src-tauri/src/tax_engine/mod.rs:283-286 | a string has a table key exactly when it is two characters long, and the key spells it |
| StateTaxes.CalculateStateTax | src-tauri/src/tax_engine/mod.rs:281-289 | success exactly for a supported upper-cased code, with income times its rate; otherwise `UnsupportedState` with the code as given |
| StateTaxes.StateRate | src-tauri/src/tax_engine/mod.rs:216-277 | every code with a rate is two upper-case letters, and every rate lies in [0, 10%) |
| StateTaxes.StateCodesAreUpper | src-tauri/src/tax_engine/mod.rs:216-277 | upper-casing a supported code leaves it unchanged |
| StateTaxes.FlatTaxStatesSupported | src-tauri/src/tax_engine/mod.rs:230-240 | the nine flat-tax states are in the table with positive rates |
| StateTaxes.ZeroRateStates | src-tauri/src/tax_engine/mod.rs:219-228 | a rate is zero exactly for the nine no-income-tax states |
| StateTaxes.StateTaxIgnoresCase | src-tauri/src/tax_engine/mod.rs:282 | the lookup ignores letter case, except for the code echoed in the error |
| StateTaxes.KnownStateAccepted | src-tauri/src/tax_engine/mod.rs:281-289 | a supported code, upper- or lower-case, is taxed at its rate |
| StateTaxes.NoIncomeTaxStateOwesNothing | src-tauri/src/tax_engine/mod.rs:219-228 | the nine no-tax states owe 0 on any income |
| StateTaxes.MalformedCodesRejected | src-tauri/src/tax_engine/mod.rs:287 | in the model, any code not two characters long, the empty one included, is `UnsupportedState` (see "Left out" for non-ASCII input) |
| StateTaxes.StateTaxBounds | src-tauri/src/tax_engine/mod.rs:286 | on non-negative income a state's tax is between 0 and 10% of it |
| StateTaxes.StateTaxExamples | src-tauri/src/tax_engine/mod.rs:411-418 | Texas at 100,000 owes 0 and California 7,250; the empty code is an error |
| Fica.AdditionalMedicare | src-tauri/src/tax_engine/mod.rs:307-311 | 0.9% of the wages above 200,000, and nothing at or below it |
| Fica.CalculateFica | src-tauri/src/tax_engine/mod.rs:301-320 | Social Security on `min(wages, 168,600)` at 6.2%, Medicare at 1.45% plus the additional tax, total = the two parts |
| Fica.FicaFlatBelowWageBase | src-tauri/src/tax_engine/mod.rs:301-320 | up to the wage base FICA is 7.65% of wages |
| Fica.SocialSecurityCapped | src-tauri/src/tax_engine/mod.rs:303-304 | from the wage base on, Social Security stays at 10,453.20 |
| Fica.MedicareOnlyAboveBase | src-tauri/src/tax_engine/mod.rs:303-312 | between the wage base and 200,000 only Medicare grows, at 1.45% |
| Fica.MedicareRateAboveThreshold | src-tauri/src/tax_engine/mod.rs:307-312 | above 200,000 Medicare grows at 2.35% |
| Fica.FicaMonotone | src-tauri/src/tax_engine/mod.rs:301-320 | more wages never mean less FICA |
| Fica.FicaBounds | src-tauri/src/tax_engine/mod.rs:301-320 | FICA on non-negative wages lies between 0 and 8.55% of them |
| Fica.FicaExample | src-tauri/src/tax_engine/mod.rs:421-426 | 100,000 of wages owes 7,650 |
| SelfEmployment.CalculateSeTax | src-tauri/src/tax_engine/mod.rs:335-363 | both halves of Social Security on min(92.35% of earnings, wage base), Medicare at 2.9% plus the additional tax, the total is their sum, the deductible amount is half the total |
| SelfEmployment.SeFlatBelowWageBase | src-tauri/src/tax_engine/mod.rs:335-363 | below the wage base the tax is 15.3% of 92.35% of earnings |
| SelfEmployment.SeIsTwiceFica | src-tauri/src/tax_engine/mod.rs:335-363 | below the wage base the self-employed pay twice the employee FICA on the same taxable amount |
| SelfEmployment.SeMonotone | src-tauri/src/tax_engine/mod.rs:335-363 | the tax never falls as net earnings rise |
| TaxCommands.TotalDeductions | src-tauri/src/commands/tax.rs:58-60 | never below the standard deduction; the standard one without itemizing, else the larger of the two |
| TaxCommands.TaxableIncome | src-tauri/src/commands/tax.rs:63 | `max(0, gross - deductions)` |
| TaxCommands.TaxAfterCredits | src-tauri/src/commands/tax.rs:70 | `max(0, federal - credits)` |
| TaxCommands.StateAddOn | src-tauri/src/commands/tax.rs:73-77 | 0 without a state and for an unsupported one; else the state tax |
| TaxCommands.CopyBreakdown | src-tauri/src/commands/tax.rs:80-89 | an element-wise copy of the details: same length, order and values |
| TaxCommands.CopyBreakdownSums | src-tauri/src/commands/tax.rs:80-89 | the copied breakdown has the same tax and taxable sums |
| TaxCommands.Respond | src-tauri/src/commands/tax.rs:51-108 | every response field from the parsed status and year: total = after credits + state; effective = after credits / taxable income, or 0; breakdown sums equal the federal tax and the taxable income |
| TaxCommands.CalculateFederalTax | src-tauri/src/commands/tax.rs:45-109 | an unknown filing status is "Invalid filing status: " + input, before anything is computed; otherwise the response, with the year defaulted to 2024 |
| TaxCommands.CalculateStateTaxCommand | src-tauri/src/commands/tax.rs:113-121 | the state tax, or "Unsupported state: " + code as an error |
| TaxCommands.GetTaxBrackets | src-tauri/src/commands/tax.rs:125-134 | an unknown status is an error; otherwise the status's well-formed seven-bracket table |
| TaxCommands.EstimateQuarterlyTax | src-tauri/src/commands/tax.rs:138-167 | the 2024 tax on income less the standard deduction; remaining = `max(0, tax - withholding)`; `4 * payment == remaining`; the four fixed due dates; unknown status is an error |
| TaxCommands.SmallItemizedDeductionsIgnored | src-tauri/src/commands/tax.rs:58-60 | itemized deductions at or below the standard one change nothing |
| TaxCommands.RespondDeductionsOnlyThroughTotal | src-tauri/src/commands/tax.rs:58-108 | deductions affect the response only through their total |
| TaxCommands.CreditsOnlyReduceFederalTax | src-tauri/src/commands/tax.rs:69-77 | credits change neither the federal tax before credits, the state tax, the taxable income nor the breakdown |
| TaxCommands.CreditsClamp | src-tauri/src/commands/tax.rs:69-70 | non-negative credits keep the tax after credits in [0, federal tax] |
| TaxCommands.RespondStateOnlyThroughAddOn | src-tauri/src/commands/tax.rs:73-98 | the state affects the response only through its add-on |
| TaxCommands.UnsupportedStateIsZero | src-tauri/src/commands/tax.rs:73-77 | an unsupported state adds 0 and leaves the federal response as without a state, while the standalone command reports it |
| TaxCommands.TaxYearDefaults | src-tauri/src/commands/tax.rs:51 | no year means 2024 |
| TaxCommands.DeductionsAtLeastStandard | src-tauri/src/commands/tax.rs:55-63 | total deductions at least the positive standard one; taxable income non-negative |
| TaxCommands.NoCreditsKeepsEngineRates | src-tauri/src/commands/tax.rs:69-104 | without credits the rates are the engine's |
| TaxCommands.FirstRateIsTenPercent | src-tauri/src/tax_engine/mod.rs:86-124 | every table starts at 10% |
| TaxCommands.FederalEffectiveRateBounds | src-tauri/src/commands/tax.rs:99-104 | with no credits and positive taxable income, `0.1 <= effective <= marginal` |
| TaxCommands.FederalTaxMonotoneInIncome | src-tauri/src/commands/tax.rs:58-70 | more gross income never lowers the federal tax or the tax after credits |
| TaxCommands.StateAddOnBounded | src-tauri/src/commands/tax.rs:73-77 | the state add-on lies between 0 and 10% of taxable income |
| TaxCommands.QuarterlyMatchesFederal | src-tauri/src/commands/tax.rs:146-150 | the estimate's annual tax is the federal command's 2024 tax with no extras |
| TaxCommands.WithholdingCoversTax | src-tauri/src/commands/tax.rs:152-153 | withholding at or above the annual tax gives payment 0 |
| TaxCommands.QuarterlyPaymentsSettle | src-tauri/src/commands/tax.rs:152-165 | four payments settle the remaining tax exactly, and with the withholding cover the annual tax |
| TaxCommands.PlainRequest | src-tauri/src/commands/tax.rs:58-98 | with no extras the total is the federal tax on `max(0, gross - standard)` |
| TaxCommands.SingleFilerRequestIncome | src-tauri/src/commands/tax.rs:55-63 | a single filer with 50,000 is taxed on 35,400 |
| TaxCommands.SingleFilerRequestExample | src-tauri/src/commands/tax.rs:45-109 | a single filer with 50,000 and no extras owes 4,016 |
| Models.ParseTaxReturnStatus | src-tauri/src/db/models.rs:17-26 | accepted inputs lower-case to an alias of the result; others give "Unknown status: " + input, and are no variant's alias |
| Models.TaxReturnStatusAliasesDisjoint | src-tauri/src/db/models.rs:18-25 | the alias sets of different variants are disjoint |
| Models.ParseTaxReturnStatusAccepts | src-tauri/src/db/models.rs:17-26 | every alias parses to its variant, in any case |
| Models.ParseTaxReturnStatusIgnoresCase | src-tauri/src/db/models.rs:18 | `from_str(x)` and `from_str(lower(x))` agree, apart from the echoed input in the error |
| Models.TaxReturnStatusStr | src-tauri/src/db/models.rs:28-36 | the stored spelling has no capitals and is one of the variant's accepted aliases |
| Models.TaxReturnStatusRoundTrip | src-tauri/src/db/models.rs:17-36 | `from_str(as_str(v)) == Ok(v)` |
| Models.TaxReturnStatusStrInjective | src-tauri/src/db/models.rs:28-36 | `as_str` is injective |
| Models.TaxReturnStatusDebugNameParses | src-tauri/src/db/models.rs:20 | the lower-cased variant name ("inprogress") parses back to the variant |
| Models.ParseDeductionCategory | src-tauri/src/db/models.rs:89-103 | accepted inputs lower-case to an alias of the result; others give "Unknown category: " + input |
| Models.DeductionCategoryAliasesDisjoint | src-tauri/src/db/models.rs:90-102 | the alias sets of different variants are disjoint |
| Models.ParseDeductionCategoryAccepts | src-tauri/src/db/models.rs:89-103 | every alias parses to its variant, in any case |
| Models.ParseDeductionCategoryIgnoresCase | src-tauri/src/db/models.rs:90 | parsing ignores letter case |
| Models.DeductionCategoryStr | src-tauri/src/db/models.rs:105-118 | the stored spelling has no capitals and is one of the variant's accepted aliases |
| Models.DeductionCategoryRoundTrip | src-tauri/src/db/models.rs:89-118 | `from_str(as_str(c)) == Ok(c)` |
| Models.DeductionCategoryStrInjective | src-tauri/src/db/models.rs:105-118 | `as_str` is injective |
| Models.DeductionCategoryDisplayName | src-tauri/src/db/models.rs:120-133 | the label is non-empty and does not start with a lower-case letter, so it never equals the stored spelling |
| Models.DeductionCategoryDisplayNameInjective | src-tauri/src/db/models.rs:120-133 | different categories have different labels |
| Models.DeductionCategoryDebugNameParses | src-tauri/src/db/models.rs:92-99 | the lower-cased variant name ("statelocaltaxes") parses back to the variant |
| Models.ParseDocumentType | src-tauri/src/db/models.rs:165-179 | accepted inputs lower-case to an alias of the result; others give "Unknown document type: " + input |
| Models.DocumentTypeAliasesDisjoint | src-tauri/src/db/models.rs:166-178 | the alias sets of different variants are disjoint |
| Models.ParseDocumentTypeAccepts | src-tauri/src/db/models.rs:165-179 | every alias parses to its variant, in any case |
| Models.ParseDocumentTypeIgnoresCase | src-tauri/src/db/models.rs:166 | parsing ignores letter case |
| Models.DocumentTypeStr | src-tauri/src/db/models.rs:181-194 | the stored spelling has no capitals and is one of the variant's accepted aliases |
| Models.DocumentTypeRoundTrip | src-tauri/src/db/models.rs:165-194 | `from_str(as_str(d)) == Ok(d)` |
| Models.DocumentTypeStrInjective | src-tauri/src/db/models.rs:181-194 | `as_str` is injective |
| Models.DocumentTypeDisplayName | src-tauri/src/db/models.rs:196-209 | the label is non-empty and does not start with a lower-case letter, so it never equals the stored spelling |
| Models.DocumentTypeDisplayNameInjective | src-tauri/src/db/models.rs:196-209 | different document types have different labels |
| Models.DocumentTypeDebugNameParses | src-tauri/src/db/models.rs:168-175 | the lower-cased variant name ("form1099int", "bankstatement") parses back to the variant |
| Returns.FullName | src-tauri/src/commands/returns.rs:103 | first name, one space, last name |
| Returns.NewTaxReturn | src-tauri/src/commands/returns.rs:66-94 | a new return has every figure 0, uses the standard deduction, is a draft, and was created and updated now |
| Returns.CreateTaxReturn | src-tauri/src/commands/returns.rs:56-111 | the inserted record and its summary: status "draft", zero figures, full name |
| Returns.Summarize | src-tauri/src/commands/returns.rs:200-211 | the summary's status parses back to the return's status; total tax is the calculated tax; the other fields are copied |
| Returns.ListSummaries | src-tauri/src/commands/returns.rs:190-212 | one summary per return, in order |
| Returns.GetTaxReturn | src-tauri/src/commands/returns.rs:115-125 | the stored record, or "Tax return not found" exactly when the id is absent |
| Returns.CreateSummaryMatchesList | src-tauri/src/commands/returns.rs:99-110 | the summary handed back on creation is the one listing shows |
| Returns.SummaryStatusSpelling | src-tauri/src/commands/returns.rs:205 | the listed status is the canonical spelling except for InProgress |
| Returns.Patch | src-tauri/src/commands/returns.rs:142-153 | a supplied value overwrites, an absent one keeps the old value |
| Returns.ApplyUpdate | src-tauri/src/commands/returns.rs:142-164 | each supplied field overwrites, each absent one is kept; gross income is the sum of the six income fields; updated now; identity, names, SSNs, status, creation time and computed figures unchanged |
| Returns.UpdateTaxReturn | src-tauri/src/commands/returns.rs:129-171 | "Tax return not found" exactly for a missing id; otherwise the patched record |
| Returns.StoreAfterUpdate | src-tauri/src/commands/returns.rs:166-168 | one record replaced, others kept, nothing written for a missing id |
| Returns.GetAfterUpdate | src-tauri/src/commands/returns.rs:115-171 | reading a return after its update gives exactly what the update answered, and every other id reads as before |
| Returns.UpdateIgnoresGrossIncome | src-tauri/src/commands/returns.rs:155-161 | the request's gross income has no effect |
| Returns.UpdateIdempotent | src-tauri/src/commands/returns.rs:142-164 | applying an update twice equals applying it once at the later time |
| Returns.EmptyUpdate | src-tauri/src/commands/returns.rs:142-164 | an empty update only recomputes gross income and the timestamp |
| Returns.EmptyUpdateOnConsistent | src-tauri/src/commands/returns.rs:142-164 | on a consistent record an empty update changes only the timestamp |
| Returns.WagesAndInterestCommute | src-tauri/src/commands/returns.rs:142-161 | updates of disjoint fields commute |
| Deductions.ToResponse | src-tauri/src/commands/deductions.rs:80-90 | the response's category parses back to the record's; display name and other fields copied |
| Deductions.AddDeduction | src-tauri/src/commands/deductions.rs:53-91 | an unparseable category is "Unknown category: " + input; otherwise the record as requested, created now, and its response |
| Deductions.StoreAfterAdd | src-tauri/src/commands/deductions.rs:63-78 | a rejected category inserts nothing; otherwise the new record under its id |
| Deductions.PatchDeduction | src-tauri/src/commands/deductions.rs:106-118 | a supplied category must parse; supplied description, amount and date overwrite (date becomes `Some`); id, return id, receipt and creation time unchanged |
| Deductions.UpdateDeduction | src-tauri/src/commands/deductions.rs:95-120 | "Deduction not found" for a missing id; otherwise the patch |
| Deductions.UpdateDeductionResponse | src-tauri/src/commands/deductions.rs:123-133 | the response of the patched record, or the error |
| Deductions.StoreAfterUpdate | src-tauri/src/commands/deductions.rs:104-120 | any error writes nothing; otherwise one record replaced |
| Deductions.UpdateKeepsDate | src-tauri/src/commands/deductions.rs:116-118 | an update can never clear an existing date |
| Deductions.InvalidCategoryWritesNothing | src-tauri/src/commands/deductions.rs:106-120 | an invalid category is an error and the store is unchanged |
| Deductions.PatchIdempotent | src-tauri/src/commands/deductions.rs:106-118 | patching twice equals patching once |
| Deductions.UpdateToCanonicalCategory | src-tauri/src/commands/deductions.rs:106-108 | supplying a canonical spelling sets that category |
| Deductions.ListDeductions | src-tauri/src/commands/deductions.rs:153-174 | one response per deduction, in order, each category parsing back |
| Deductions.AddedDeductionListsAsAnswered | src-tauri/src/commands/deductions.rs:163-173 | a just-added deduction lists as `add_deduction` answered |
| Deductions.GetDeductionCategories | src-tauri/src/commands/deductions.rs:178-291 | the catalogue has ten entries, and entry i's id is the stored spelling of category i |
| Deductions.AllCategoriesListed | src-tauri/src/db/models.rs:75-86 | the ten categories, each once |
| Deductions.CatalogueIdsAreCanonical | src-tauri/src/commands/deductions.rs:179-290 | entry i's id is category i's `as_str` |
| Deductions.CatalogueCoversCategories | src-tauri/src/commands/deductions.rs:179-290 | every category's `as_str` is an id; every id parses to its category; no id repeats |
| Deductions.CatalogueNamesVersusDisplayNames | src-tauri/src/commands/deductions.rs:179-290 | catalogue names equal `display_name` except for SALT, HSA and Other |
| Settings.DefaultSettings | src-tauri/src/commands/settings.rs:19-31 | theme "dark", year 2024, status "single", no state, auto-save and tooltips on, "USD", "MM/DD/YYYY" |
| Settings.GetSettings | src-tauri/src/commands/settings.rs:42-57 | the defaults when nothing is stored; else the decoded document, or "Failed to parse settings: " + the decoder's error |
| Settings.UpdateSettings | src-tauri/src/commands/settings.rs:61-75 | the encoded document is stored, other settings kept |
| Settings.SettingsRoundTrip | src-tauri/src/commands/settings.rs:42-75 | saved settings read back as saved whenever decoding inverts encoding |
| Settings.SetApiKey | src-tauri/src/commands/settings.rs:106-127 | a non-empty key without "sk-ant-" is rejected before the store is touched; the empty key deletes; any other key is stored verbatim |
| Settings.MaskKey | src-tauri/src/commands/settings.rs:89-96 | a key longer than 8 shows its first 4, "...", its last 4 (11 characters); a shorter key shows "****" |
| Settings.GetApiKeyStatus | src-tauri/src/commands/settings.rs:79-102 | configured exactly when a key is stored, masked then and only then |
| Settings.SetThenStatus | src-tauri/src/commands/settings.rs:89-96 | a key just set is reported with its own mask |
| Settings.ClearThenStatus | src-tauri/src/commands/settings.rs:97-100 | clearing the key leaves nothing configured |
| Settings.AcceptedKeyMaskShowsPrefix | src-tauri/src/commands/settings.rs:89-92 | an accepted long key's mask starts with "sk-a..." |
| Settings.SetApiKeyKeepsOtherSettings | src-tauri/src/commands/settings.rs:118-124 | the key command touches no other setting |
| Settings.BarePrefixIsStarred | src-tauri/src/commands/settings.rs:93-96 | the bare prefix "sk-ant-" is accepted and shown as "****" |
| Text.Lower | src-tauri/src/db/models.rs:18 | lower-casing keeps the length and maps each character |
| Text.Upper | src-tauri/src/tax_engine/mod.rs:282 | upper-casing keeps the length and maps each character |
| Text.LowerIdempotent | src-tauri/src/db/models.rs:18 | lower-casing twice is lower-casing once |
| Text.UpperAfterLower | src-tauri/src/tax_engine/mod.rs:282 | upper-casing forgets an earlier lower-casing |

## Left out

- Database access, SQL and row decoding are not part of this model. Each table is a map. I/O failures ("Failed to get …", "Failed to save …", "Database not initialized") are not modelled.
- The async runtime, Tauri `State` and lock guards are stripped. Each command is a pure function of the record it reads.
- `Uuid::new_v4` and `Utc::now` are parameters (`id`, `now`). Timestamps are integers. RFC 3339 rendering of timestamps is not modelled, so `createdAt` is the timestamp itself.
- JSON (serde) is not modelled. `get_settings` and `update_settings` take the decoder and encoder as parameters, so the "Failed to serialize settings" path is left out.
- Floating point is not modelled: `f64` rounding, NaN and the tolerances in the tests. Money and rates are exact reals, which is why the California example is exactly 7,250.
- Case mapping covers ASCII letters only; every other character is left as it is. Rust's `to_lowercase`/`to_uppercase` follow Unicode, so the source accepts some non-ASCII inputs that the model rejects:
  - the ligature "ﬂ" (U+FB02) upper-cases to "FL", so `calculate_state_tax` taxes it at Florida's rate;
  - "ıl" (dotless i, U+0131) and "ſc" (long s, U+017F) upper-case to "IL" and "SC" and are accepted;
  - the Kelvin sign (U+212A) lower-cases to 'k', so `DocumentType::from_str` accepts "\u{212A}1" as `FormK1`.
- StateTaxes.MalformedCodesRejected: holds of the model only. In the source a one-character code such as "ﬂ" can upper-case to a two-letter table key and be accepted.
- StateTaxes.StateTaxIgnoresCase: holds for the model's ASCII case mapping only. The source has no such symmetry: "\u{212A}S" (Kelvin sign, then S) is unsupported there, while its lower-cased form "ks" is Kansas.
- Settings.MaskKey: does not model Rust's byte-length test and byte slicing, because strings are sequences of characters. For a key containing multi-byte characters, the source measures bytes and can panic when slicing inside one.
- SSNs are stored as the request's characters. The source's `into_bytes` is not modelled.
- `TaxError::InvalidTaxYear` is never produced by the source and is not modelled.
- `delete_tax_return`, `export_tax_return` and `delete_deduction` are plain database calls and are not modelled.
- `commands/documents.rs`, the AI, authentication and crypto modules, and the Python backend are not part of this model.
- StateTaxes: the table is keyed by character pairs, because every code in it is two characters. In the model a string of any other length is unsupported.
- Where the code may surprise a reader, the model follows the code:
  - the effective rate divides by taxable income, not gross income;
  - credits reduce only federal tax;
  - negative gross income is accepted and clamps to zero taxable income;
  - the tax year is ignored by every table;
  - the marginal rate is 0 at zero income;
  - the listed status of an in-progress return is "inprogress" (the variant name lower-cased), while its stored spelling is "in_progress".
