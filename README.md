# LogiCalc loan calculator — a verified Dafny model of its core

LogiCalc is a Django application that quotes loans. A visitor picks a lending company and a loan type and enters their figures. The application then does four things:

- It derives a value index for each addition type, using loan-to-value, debt-to-income or the collateral's year.
- It looks each index up, with the visitor's credit score, in the company's rate table (the `LoanAddition` rows).
- It adds the looked-up additions into a rate and resolves the maximum term.
- It clamps the requested term to that maximum and computes the monthly payment.

The rate table is filled from CSV files by `LoanDataImporter`, and the visitor's input is checked by `LoanCalculationForm`.

This project models that core and proves what it promises:

| file | module | models |
|---|---|---|
| `wrappers.dfy` | `Wrappers` | `Option` and `Result` |
| `rate_table.dfy` | `RateTable` | `LoanAddition` rows, their canonical ordering, and `get_addition` as a clamp-then-filter lookup |
| `loan_calculation.dfy` | `LoanCalculations` | the value-index strategies; `calculate_rate`, `calculate_maximum_term` and the computing part of `save`, as a `LoanCalculation` class with methods proved against specification functions; the derived savings and interest properties; `CurrencyField.to_python` |
| `model_diff.dfy` | `ModelDiff` | `ModelDiffMixin` as a class over a snapshot map and a live map |
| `forms.dfy` | `Forms` | the form's construction for one company with its loan-type choices; `LoanCalculationForm.clean` as a class method over `cleaned_data` and `_errors`; `PercentageField.clean` and `prepare_value` |
| `loan_data_import.dfy` | `LoanDataImport` | `LoanDataImporter.import_file` as a class over an in-memory `Database` class, with `get_or_create`, `value_keys`, and the `int`/`float` reading of cells |

Some conventions hold throughout the model:

- Money, ratios, rates and addition values are `real`.
- Entities (companies, loan types, addition types) are identified by their title or name.
- The ORM tables are sequences.
- A CSV row is a `map<string, string>`.
- The Python exceptions the model covers become error values: a `KeyError`, a `ValueError`, a `TypeError` on `None` in the value-index strategies and derived figures, a `MultipleObjectsReturned`, the `DoesNotExist` of `calculate_maximum_term` without a `Maximum term` type, the `IndexError` of `get_addition` when no row covers the query, the `Decimal` division by zero in the loan-to-value and debt-to-income strategies, the `TypeError` of a blank credit score compared in `get_addition`, a math-domain error in `nper`, a `ZeroDivisionError` in `pmt`, and the `Exception` of a form built without a company. The exceptions the model does not cover are listed under "Left out".
- Each `IPython.embed()` debugging hook is an error value too.

## Model

| member | source | states |
|---|---|---|
| RateTable.ScopeMembers | lc_calc/models.py:307-309 | the scoped rows are exactly the table's rows of the (company, loan type, addition type) triple |
| RateTable.MaxThresholdIsMaximum | lc_calc/models.py:307-310 | the `Max` aggregate of a non-empty scope bounds every row's credit score (value index) and is attained by some row |
| RateTable.Clamp | lc_calc/models.py:313-314 | a query coordinate above the scope's maximum becomes that maximum; one at or below it is unchanged |
| RateTable.Truncate | lc_calc/models.py:316-321 | the integer `int()` makes of the clamped `Decimal` index before the integer column compares with it: the integer part, truncated toward zero |
| RateTable.CoveringMembers | lc_calc/models.py:316-321 | the `__gte` filters keep exactly the rows whose credit score and value index are at least the integer bounds of the clamped query |
| RateTable.FirstInOrderIsFirst | lc_calc/models.py:166-171 | the row taken as `[0]` has no row before it in (credit score, value index) order, and every earlier row in the table sorts strictly after it |
| RateTable.LookupClampsCreditScore | lc_calc/models.py:303-314 | a credit score at or above the scope's largest returns the same value as the largest itself |
| RateTable.LookupClampsValueIndex | lc_calc/models.py:303-314 | a value index at or above the scope's largest returns the same value as the largest itself |
| RateTable.LookupFindsTightestRow | lc_calc/models.py:316-324 | a returned value comes from a row of the queried scope whose thresholds are at least the integer bounds of the clamped query, and no other such row of the scope sorts before it |
| RateTable.LookupFailures | lc_calc/models.py:310-324 | lookup fails with `EmptyScope` exactly when the scope has no rows, and with `NoCoveringRow` exactly when no scoped row reaches the integer bounds of the clamped query |
| RateTable.CornerGuaranteesLookup | lc_calc/models.py:323-324 | a scope holding a row with both the largest credit score and the largest value index answers every query |
| RateTable.LookupAtMaximaNeedsCorner | lc_calc/models.py:303-324 | a non-empty scope without a row holding both maxima fails with `NoCoveringRow` when queried at its maxima |
| RateTable.CornerIffLookupAtMaxima | lc_calc/models.py:303-324 | a non-empty scope answers the query at its maxima exactly when it holds a row with both maxima |
| RateTable.LookupTruncatesValueIndex | lc_calc/models.py:303-324 | a lookup with a fractional value index returns the same as with its integer part |
| RateTable.FractionalIndexMatchesItsIntegerPart | lc_calc/models.py:316-324 | in a scope with rows at value indices 80 (1.0) and 90 (2.0), a query at 80.5 returns the 80 row's 1.0 |
| LoanCalculations.LoanCalculation.GetAddition | lc_calc/models.py:301-324 | the method, which clamps one axis per loop iteration and then scans the scope against the clamped values' integer parts, returns the lookup specification's result, failing with `MissingInput` when a blank credit score meets the comparison |
| LoanCalculations.AdditionLookupMeaning | lc_calc/models.py:303-324 | a lookup fails with `MissingInput` exactly when the scope is non-empty and the credit score is blank; with a credit score given it returns the rate table's value or its lookup error |
| LoanCalculations.RoundHalfEven | lc_calc/models.py:269 | `round` gives an integer within one half of its argument, taking the even one on a tie |
| LoanCalculations.RoundCents | lc_calc/models.py:328 | `quantize(Decimal('0.01'))` moves an amount by at most half a cent |
| LoanCalculations.RoundCentsIsWholeCents | lc_calc/models.py:328 | a quantized amount is a whole number of cents |
| LoanCalculations.RoundCentsIsIdempotent | lc_calc/models.py:328 | quantizing an amount a second time changes nothing |
| LoanCalculations.CurrencyToPython | lc_calc/models.py:30-34 | `None` stays `None`; an amount is rounded to within half a cent |
| LoanCalculations.CurrencyToPythonIsIdempotent | lc_calc/models.py:30-34 | reading a stored currency amount back gives the same amount |
| LoanCalculations.PercentageRecoversPart | lc_calc/models.py:292-296 | a ratio in percent times its denominator is one hundred times the numerator |
| LoanCalculations.PercentageAtMostHundred | lc_calc/models.py:292-293 | with a positive collateral value, loan-to-value is at most 100 exactly when the loan does not exceed the collateral |
| LoanCalculations.GetValueIndexMeaning | lc_calc/models.py:289-299 | loan-to-value = loan / collateral × 100 and debt-to-income = expenses / income × 100; each fails exactly on a missing figure or a zero denominator; the year strategy passes the year through and fails only when it is missing |
| LoanCalculations.LoanToValueAtMostHundred | lc_calc/models.py:292-293 | a positive collateral value gives a loan-to-value index, and it is at most 100 exactly when the loan does not exceed the collateral |
| LoanCalculations.RateIsTotal | lc_calc/models.py:271-279 | the rate exists exactly when every counting addition type resolves, and it is then the sum of their additions |
| LoanCalculations.RateWithoutCountingTypes | lc_calc/models.py:271-279 | with no addition type of this company and loan type flagged `sum_in_rate_calculation`, the rate is 0.0 |
| LoanCalculations.TotalWithout | lc_calc/models.py:274-278 | taking one addition type out of the visited sequence takes exactly its contribution out of the sum |
| LoanCalculations.TotalIsOrderFree | lc_calc/models.py:274-278 | the sum of the additions does not depend on the order the types are visited in |
| LoanCalculations.RateIsOrderFree | lc_calc/models.py:271-279 | `calculate_rate` succeeds for one visiting order exactly when it does for any other, with the same rate |
| LoanCalculations.RateFailurePersists | lc_calc/models.py:276-278 | a type that fails to resolve stops `calculate_rate` with that failure, whatever types follow it |
| LoanCalculations.MaximumTermTypesMembers | lc_calc/models.py:282-284 | the candidates are exactly the types named `Maximum term` of this company and loan type |
| LoanCalculations.MaximumTermOfTheSingleType | lc_calc/models.py:281-287 | the maximum term fails when there is no `Maximum term` type or several; otherwise it is the addition of the single one |
| LoanCalculations.RemainingTermRecomputedWhenAllGiven | lc_calc/models.py:264-269 | the remaining term is left as it was unless balance, payment and rate are all non-zero; then it is `round(nper(rate / 12, -payment, balance))`, and it fails exactly outside `nper`'s domain |
| LoanCalculations.ClampTerm | lc_calc/models.py:250-251 | the settled term is the smaller of the requested and the maximum term |
| LoanCalculations.CalculateOf | lc_calc/models.py:246-252 | when the remaining term, the rate and the maximum term succeed, `save` yields them, the clamped term and the payment rounded to cents, or fails with `PmtOutOfDomain` when the clamped term lies outside the domain of `pmt` |
| LoanCalculations.CalculateFailure | lc_calc/models.py:246-252 | the first failing step of `save` (remaining term, rate, maximum term, then `pmt` at the clamped term) is its failure |
| LoanCalculations.SaveStepsAgreesWithCalculate | lc_calc/models.py:246-252 | the steps of `save` end without error exactly when the calculation succeeds, then with its figures whatever the fields held before; otherwise with the calculation's error |
| LoanCalculations.SaveStepsKeepsEarlierFields | lc_calc/models.py:246-252 | after `save`, each computed field holds its step's result when that step and all steps before it succeeded and its earlier value otherwise; the payment changes only when `save` succeeds |
| LoanCalculations.CalculateClampsTerm | lc_calc/models.py:250-251 | after a successful `save`, the term is the requested term when that is at most the maximum term and the maximum term otherwise, and the rate and maximum term are those of their specifications |
| LoanCalculations.CalculateIsIdempotent | lc_calc/models.py:246-252 | saving again with the figures of a successful save gives the same figures |
| LoanCalculations.RateIgnoresTerm | lc_calc/models.py:271-279 | the rate does not depend on the requested term, so clamping the term cannot change it |
| LoanCalculations.MaximumTermTypesIgnoreTerm | lc_calc/models.py:281-284 | which types are `Maximum term` types does not depend on the requested term |
| LoanCalculations.LoanCalculation.constructor | lc_calc/models.py:186-201 | a calculation holds the given user inputs, with no remaining term and zero computed fields |
| LoanCalculations.LoanCalculation.WithDefaults | lc_calc/models.py:192-201 | a new calculation has no current-loan figures, credit score 850, collateral value 1000.00, the settings' income and expenses, the current year as the collateral's year and a 60-month term |
| LoanCalculations.LoanCalculation.CalculateCurrentLoanEstimatedRemainingTerm | lc_calc/models.py:264-269 | the new remaining term is the specification's result; a failure leaves the field as it was |
| LoanCalculations.LoanCalculation.CalculateRate | lc_calc/models.py:271-279 | the accumulating loop stores the specification's rate; a failure leaves `rate` as it was |
| LoanCalculations.LoanCalculation.CalculateMaximumTerm | lc_calc/models.py:281-287 | the stored maximum term is the specification's; a failure leaves it as it was |
| LoanCalculations.LoanCalculation.CalculateMonthlyPayment | lc_calc/models.py:326-328 | inside the domain of `pmt` (lc_calc/utils/excel_functions.py:59-62) the payment becomes `pmt(rate / 12, term, -loan)` rounded to cents; outside it the call fails with `PmtOutOfDomain` and the payment is unchanged |
| LoanCalculations.LoanCalculation.ClampMonthlyTerm | lc_calc/models.py:250-251 | a term above the maximum term is lowered to it; any other term is kept |
| LoanCalculations.LoanCalculation.Save | lc_calc/models.py:246-252 | the five computed fields after `save` are those of its step specification, which keeps the fields earlier steps assigned when a later one fails; on success they are the figures of the whole calculation, and on failure its error is returned |
| LoanCalculations.LoanCalculation.EstimatedMonthlySavings | lc_calc/models.py:210-215 | present exactly when the current payment is non-zero; the new payment plus the savings is the current payment |
| LoanCalculations.LoanCalculation.EstimatedYearlySavings | lc_calc/models.py:217-222 | present exactly when the monthly savings are; twelve times them |
| LoanCalculations.LoanCalculation.CurrentLoanRemainingInterest | lc_calc/models.py:224-232 | `None` unless balance and payment are non-zero; then payment × remaining term − balance, failing when the remaining term is missing |
| LoanCalculations.LoanCalculation.LoanInterest | lc_calc/models.py:234-239 | the interest plus the loan amount is the payment times the term |
| LoanCalculations.LoanCalculation.InterestSavings | lc_calc/models.py:241-244 | fails exactly when the remaining interest does; `None` when the remaining interest is `None` or zero; otherwise the remaining interest minus the new loan's interest |
| ModelDiff.DiffEmptyIffUnchanged | lc_calc/models.py:55-63 | over the same fields, the diff is empty exactly when the live values equal the snapshot |
| ModelDiff.DiffAfterUpdate | lc_calc/models.py:55-59 | setting one field changes the diff at that field only; the field is reported, as (snapshot, new), exactly when the new value differs from the snapshot |
| ModelDiff.RevertingRemovesFromDiff | lc_calc/models.py:55-59 | setting a field back to its snapshot value takes exactly that field out of the diff |
| ModelDiff.ModelDiffMixin.constructor | lc_calc/models.py:43-45 | a freshly loaded model's snapshot is its current state, and nothing has been written |
| ModelDiff.ModelDiffMixin.GetDiff | lc_calc/models.py:54-59 | the diff holds exactly the fields whose live value differs from the snapshot, each mapped to (old, new) |
| ModelDiff.ModelDiffMixin.HasChanged | lc_calc/models.py:61-63 | `has_changed` holds exactly when the live values differ from the snapshot |
| ModelDiff.ModelDiffMixin.ChangedFields | lc_calc/models.py:65-67 | the changed fields are exactly those whose value differs, and they are empty exactly when nothing changed |
| ModelDiff.ModelDiffMixin.GetFieldDiff | lc_calc/models.py:69-73 | `None` for a missing or unchanged field; otherwise the distinct (old, new) pair |
| ModelDiff.ModelDiffMixin.SetField | lc_calc/models.py:47-52 | assigning a field changes only that entry, and that field then shows in the diff exactly when it differs from the snapshot |
| ModelDiff.ModelDiffMixin.Save | lc_calc/models.py:75-81 | the model is written, and re-snapshotted, only when something changed; afterwards the diff is empty |
| Forms.LoanCalculationForm.constructor | lc_calc/forms.py:60-62 | a form of a company holds the field-cleaned data and errors, and offers the company's loan types as the `loan_type` choices |
| Forms.NewForm | lc_calc/forms.py:56-63 | building a form without a loan company fails; with one, it gives a new form with the company's loan-type choices |
| Forms.LoanTypeChoicesMembers | lc_calc/forms.py:65-67 | the choices are exactly the loan types that have a rate-table row of the company, each listed once |
| Forms.LoanCalculationForm.Clean | lc_calc/forms.py:69-99 | the field loop and the pay-off check leave `cleaned_data` and `_errors` as the specification functions say, and the cleaned data is returned |
| Forms.NotYetChecked | lc_calc/forms.py:81-88 | a field the loop has not reached yet still holds its original value |
| Forms.WithoutNegativesDrops | lc_calc/forms.py:81-88 | the loop drops exactly the negative current-loan figures and keeps every other entry unchanged |
| Forms.SignErrorsMarks | lc_calc/forms.py:81-88 | the loop puts `must be greater than zero` on exactly the negative current-loan figures and keeps every other error |
| Forms.NegativeFigureRejected | lc_calc/forms.py:79-88 | a negative figure is removed and carries `must be greater than zero`; a zero or positive figure is not rejected for its sign |
| Forms.PayOffCheck | lc_calc/forms.py:90-98 | the pay-off check runs only when all three figures are given and none is negative; when it runs, a payment at most `(rate / 12) × balance` gets `is too small to ever pay the loan off` and is removed, and otherwise nothing changes |
| Forms.NoNegativeWhenAllGood | lc_calc/forms.py:80-91 | when the check runs, no current-loan figure was dropped by the loop |
| Forms.OtherFieldsUntouched | lc_calc/forms.py:74-99 | every field and error other than the three current-loan figures passes through `clean` unchanged |
| Forms.CleanKeepsNperInDomain | lc_calc/forms.py:90-98 | when all three figures survive `clean` as numbers and the rate is not zero, the payment is positive and `nper(rate / 12, -payment, balance)` is evaluated inside its domain |
| Forms.CleanPercentageOutcome | lc_calc/forms.py:28-35 | `None` passes through; a negative value fails with `Must be a positive number.`; any other value is divided by 100 |
| Forms.PrepareThenClean | lc_calc/forms.py:21-35 | preparing a stored non-negative fraction multiplies it by 100, and cleaning that gives the fraction back |
| Forms.CleanThenPrepare | lc_calc/forms.py:21-35 | cleaning an accepted percentage and preparing the stored fraction shows the entered percentage again |
| Forms.PrepareKeepsOtherValues | lc_calc/forms.py:21-26 | a value that is not a `Decimal` is prepared unchanged |
| LoanDataImport.DotIndex | lc_calc/import_csv/import_loan_data.py:45 | the position found is the first decimal point in the cell, or the cell's end |
| LoanDataImport.ParseIntOfIntToString | lc_calc/import_csv/import_loan_data.py:28 | `int` reads back every integer written in decimal |
| LoanDataImport.ParseFloatOfIntToString | lc_calc/import_csv/import_loan_data.py:45 | `float` reads a whole number as `int` does |
| LoanDataImport.ValueKeysAreNumbered | lc_calc/import_csv/import_loan_data.py:9 | `value_keys` is the ten keys `vi1` … `vi10`, in that order |
| LoanDataImport.ParseIndicesPairs | lc_calc/import_csv/import_loan_data.py:28 | the recorded value indices pair each key, in order, with its cell read as an integer |
| LoanDataImport.CountPositive | lc_calc/import_csv/import_loan_data.py:15 | a name matches at least one entry exactly when it is in the table |
| LoanDataImport.IndexOf | lc_calc/import_csv/import_loan_data.py:15 | the entry `get` finds holds the name, and no earlier entry does |
| LoanDataImport.GetOrCreateFindsOrCreates | lc_calc/import_csv/import_loan_data.py:12-19 | `get_or_create` fails exactly when several entries match; it returns the single match unchanged, or appends exactly one new entry when none matches |
| LoanDataImport.GetOrCreateIsIdempotent | lc_calc/import_csv/import_loan_data.py:12-19 | a second `get_or_create` with the same name returns the same entry and creates nothing |
| LoanDataImport.Database.constructor | lc_calc/import_csv/import_loan_data.py:5 | a database holds the given tables |
| LoanDataImport.Database.GetOrCreate | lc_calc/import_csv/import_loan_data.py:12-19 | the method changes only the table it is asked about, as the `get_or_create` specification says |
| LoanDataImport.Database.DeleteScope | lc_calc/import_csv/import_loan_data.py:30-34 | the deletion loop leaves exactly the rows of other scopes, in order |
| LoanDataImport.Database.Add | lc_calc/import_csv/import_loan_data.py:46 | saving a new row appends it to the table |
| LoanDataImport.LoanDataImporter.constructor | lc_calc/import_csv/import_loan_data.py:8-10 | a new importer has read no header: `value_indices` is `None` |
| LoanDataImport.LoanDataImporter.ReadHeader | lc_calc/import_csv/import_loan_data.py:23-34 | the `value_index` branch leaves the importer and the database as the header specification says, including the partial state of a failure |
| LoanDataImport.LoanDataImporter.AddValues | lc_calc/import_csv/import_loan_data.py:35-46 | the `values` loop appends the specification's rows, up to the first unreadable cell |
| LoanDataImport.LoanDataImporter.ImportFile | lc_calc/import_csv/import_loan_data.py:21-48 | the row loop leaves the importer and the database as the run specification says, stopping at the first error |
| LoanDataImport.ValueRowsStopAtError | lc_calc/import_csv/import_loan_data.py:38-46 | once a cell of a `values` row fails to read, no further threshold is read |
| LoanDataImport.RunStopsAtError | lc_calc/import_csv/import_loan_data.py:22-48 | once a row fails, the rows after it are not read |
| LoanDataImport.OutsideScopeMembers | lc_calc/import_csv/import_loan_data.py:30-34 | the deletion keeps exactly the rows that are not of the deleted scope |
| LoanDataImport.HeaderSetsScope | lc_calc/import_csv/import_loan_data.py:23-34 | a successful header sets the scope to the row's title and names, and records the ten (key, `int(row[key])`) pairs; it deletes every row of that scope and keeps every row of the others |
| LoanDataImport.ValuesBeforeHeaderFails | lc_calc/import_csv/import_loan_data.py:10-38 | a `values` row before any header fails and changes nothing |
| LoanDataImport.UnknownRowTypeFails | lc_calc/import_csv/import_loan_data.py:47-48 | a row of any other `Type` fails and changes nothing |
| LoanDataImport.ValueRowsAllRead | lc_calc/import_csv/import_loan_data.py:38-46 | a readable `values` row adds one row per threshold: the current scope, its credit score, the threshold and that threshold's cell |
| LoanDataImport.ValuesAppendsTen | lc_calc/import_csv/import_loan_data.py:35-46 | after a header, a readable `values` row appends exactly ten rows; the k-th has the header's k-th value index and the value of the k-th cell |
| LoanDataImport.ScopeOfConcat | lc_calc/models.py:307-309 | the scope of two appended tables is the two scopes appended |
| LoanDataImport.ScopeOfScopedRows | lc_calc/models.py:307-309 | a table whose rows all belong to one scope is its own scope |
| LoanDataImport.ScopeOfOutsideScope | lc_calc/import_csv/import_loan_data.py:30-34 | after the deletion the scope is empty |
| LoanDataImport.GridRowInBlock | lc_calc/import_csv/import_loan_data.py:35-46 | every row the `values` rows add comes from one of them |
| LoanDataImport.BlockInGrid | lc_calc/import_csv/import_loan_data.py:35-46 | every row a `values` row adds is among the added rows |
| LoanDataImport.GridMembers | lc_calc/import_csv/import_loan_data.py:35-46 | the added rows are exactly the union of the blocks the `values` rows add |
| LoanDataImport.HeaderClearsScope | lc_calc/import_csv/import_loan_data.py:23-34 | a header alone is a run that ends with its scope empty |
| LoanDataImport.ValuesRowExtendsScope | lc_calc/import_csv/import_loan_data.py:35-46 | a readable `values` row appends its block to the current scope |
| LoanDataImport.HeaderThenValuesGrid | lc_calc/import_csv/import_loan_data.py:23-46 | after a header and N readable `values` rows, the scope holds exactly the grid of those N credit scores by the ten thresholds |
| LoanDataImport.BlockRow | lc_calc/import_csv/import_loan_data.py:38-46 | the k-th row a `values` row adds has its credit score and the k-th threshold |
| LoanDataImport.GridCrossing | lc_calc/import_csv/import_loan_data.py:35-46 | for any two rows of the grid, the grid also holds the row with the first one's credit score and the second one's threshold |
| LoanDataImport.GridHasCorner | lc_calc/import_csv/import_loan_data.py:23-46 | the grid of at least one `values` row holds the row with both the largest credit score and the largest threshold |
| LoanDataImport.ImportedScopeAnswersEveryLookup | lc_calc/models.py:316-324 | after a header and at least one readable `values` row, `get_addition` on that scope succeeds for every credit score and value index |

## Left out

- `nper` and `pmt` (lc_calc/utils/excel_functions.py) are floating-point library code. They are parameters of the model. Only the arguments for which each can be evaluated without a math error or a division by zero are modelled.
- Floating point and `Decimal` are modelled as exact `real` arithmetic.
- `round` and `quantize` are modelled as half-even rounding.
- Mixed `Decimal`/`float` arithmetic is not modelled. In Python 3 that mix raises `TypeError`, for example `pv * rate` inside `nper` and `pmt`.
- `value_index` is an `IntegerField`, but the loan-to-value and debt-to-income indices are `Decimal` percentages. The query value index is `real` and is clamped as a `real`. The filter then compares with its integer part, as `int()` gives it. A `float` query value, which Django's integer lookups round up instead, does not arise: the strategies return a `Decimal` or an `int`.
- LoanCalculations.LoanCalculation.CalculateMonthlyPayment: a monthly rate of -100 % or less is counted outside the domain of `pmt`. The source evaluates some of those cases, such as a rate of exactly -100 % with a positive term, or an odd whole term. Such rates need negative rate-table additions.
- LoanCalculations.LoanCalculation.constructor: the computed fields `maximum_term`, `rate` and `monthly_payment` start at 0.0. The source holds `None` in them until the first `save`, so the derived figures of an unsaved calculation raise `TypeError` in the source but are values in the model.
- LoanCalculations.LoanCalculation.WithDefaults: the settings' `DEFAULT_MONTHLY_INCOME` and `DEFAULT_MONTHLY_EXPENSES` and the clock's current year are parameters.
- GetValueIndex: on a missing year of collateral the source fails later, at the comparison in `get_addition`, and the model fails in the strategy. The calculation fails in both.
- Save: models only the computing part of `save` (lc_calc/models.py:246-252). The ORM `save`, `force_insert` and the new row written on every change are persistence plumbing.
- ORM queries are modelled as scans of in-memory sequences, and rows that tie in (credit score, value index) within one scope are taken in table order. The source's database order for ties is unspecified.
- `IPython.embed()` (lc_calc/models.py:312 and lc_calc/import_csv/import_loan_data.py:48) is a failure.
- `ParseInt` and `ParseFloat` read an optional sign and decimal digits, with one optional decimal point for `float`. Python's `int` and `float` also accept surrounding whitespace, underscores, exponents, `inf` and `nan`. Those forms are not modelled.
- The importer identifies companies, loan types and addition types by name alone. `lc_calc/import_csv/import_loan_data.py:5` imports `LoanAdditionLookupValueType` and `LoanAdditionLookup`, which `lc_calc/models.py` does not define. The importer is modelled against the `LoanAddition` row shape.
- `process_command_line` (argparse and directory walking), views, URLs, admin, templates and the `percentage` filter are UI and I/O code.
- Forms.LoanTypeChoicesMembers: the choices are loan type names, not the source's `(id, name)` pairs. The source orders them by name, through the `ordering = ['name']` that `LoanType` inherits (lc_calc/models.py:88-90); the model lists them in the order of their first rate-table row.
- The debug `print` calls in `PercentageField.prepare_value` and `PercentageField.clean` (lc_calc/forms.py:24, 33) are console output and are dropped.
- `LoanCompanyMessage.save` and e-mail sending are I/O.
- Clean: starts from the data the per-field cleaning produced, in which each current-loan field is missing, `None` or a number; Django's `super().clean()` is not modelled.
- `ModelDiffMixin` works over a map of field values. Django's `_meta.fields` reflection is not modelled.
