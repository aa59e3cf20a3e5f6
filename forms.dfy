/**
 * The calculation form: its construction for one lending company, which
 * offers that company's loan types as choices; `LoanCalculationForm.clean`,
 * which vets the three current-loan figures before a calculation is built
 * from them; and the
 * `PercentageField` conversion pair between a stored fraction and a displayed
 * percentage.
 *
 * A form's cleaned data is a map from field name to value; its errors map a
 * field name to that field's list of messages.
 */
module Forms {
  import opened Wrappers
  import LoanCalculations
  import RateTable

  /** A cleaned form value: `None`, a `Decimal`, or a value of any other field
      type (a choice, a text), kept as text. */
  datatype Value = Null | Decimal(d: real) | Other(text: string)

  const CurrentLoanBalance: string := "current_loan_balance"
  const CurrentLoanMonthlyPayment: string := "current_loan_monthly_payment"
  const CurrentLoanRate: string := "current_loan_rate"

  /** The fields `clean` checks, in the order it checks them. */
  const CurrentLoanFields: seq<string> := [CurrentLoanBalance, CurrentLoanMonthlyPayment, CurrentLoanRate]

  const MustBeGreaterThanZero: string := "must be greater than zero"
  const TooSmallToPayOff: string := "is too small to ever pay the loan off"
  const MustBePositive: string := "Must be a positive number."

  // ---------------------------------------------------------------------------
  // LoanCalculationForm.clean, as a function of the data it starts from

  /** `cleaned_data.get(name)`: a missing field reads as `None`. */
  function Get(data: map<string, Value>, name: string): Value {
    if name in data then data[name] else Null
  }

  predicate IsNegative(v: Value) {
    v.Decimal? && v.d < 0.0
  }

  /** The three current-loan fields are decimal fields: each is `None` or a number. */
  predicate WellTyped(data: map<string, Value>) {
    forall i :: 0 <= i < |CurrentLoanFields| ==> !Get(data, CurrentLoanFields[i]).Other?
  }

  /** The first loop of `clean` over `names`: every negative field is dropped. */
  function WithoutNegatives(data: map<string, Value>, names: seq<string>): map<string, Value>
    decreases |names|
  {
    if names == [] then data
    else
      var rest := WithoutNegatives(data, names[..|names| - 1]);
      var name := names[|names| - 1];
      if IsNegative(Get(data, name)) then rest - {name} else rest
  }

  /** The first loop of `clean` over `names`: every negative field gets the
      `must be greater than zero` message in place of its errors. */
  function SignErrors(data: map<string, Value>, errors: map<string, seq<string>>, names: seq<string>)
    : map<string, seq<string>>
    decreases |names|
  {
    if names == [] then errors
    else
      var rest := SignErrors(data, errors, names[..|names| - 1]);
      var name := names[|names| - 1];
      if IsNegative(Get(data, name)) then rest[name := [MustBeGreaterThanZero]] else rest
  }

  /** A figure that passes the first loop and keeps `all_good` set: given and not negative. */
  predicate Good(v: Value) {
    v.Decimal? && v.d >= 0.0
  }

  /** `all_good` after the first loop: every figure is given and not negative. */
  predicate AllGood(data: map<string, Value>) {
    Good(Get(data, CurrentLoanBalance)) && Good(Get(data, CurrentLoanMonthlyPayment))
    && Good(Get(data, CurrentLoanRate))
  }

  /** A monthly payment no larger than a month's interest never pays the balance off. */
  predicate NeverPaysOff(balance: real, payment: real, rate: real) {
    payment <= (rate / 12.0) * balance
  }

  /** The pay-off check applies: all figures are good and the payment is too small. */
  predicate PaymentTooSmall(data: map<string, Value>) {
    AllGood(data) &&
    NeverPaysOff(Get(data, CurrentLoanBalance).d, Get(data, CurrentLoanMonthlyPayment).d,
                 Get(data, CurrentLoanRate).d)
  }

  /** The cleaned data `clean` returns. */
  function CleanedData(data: map<string, Value>): map<string, Value> {
    var checked := WithoutNegatives(data, CurrentLoanFields);
    if PaymentTooSmall(data) then checked - {CurrentLoanMonthlyPayment} else checked
  }

  /** The form errors after `clean`. */
  function CleanErrors(data: map<string, Value>, errors: map<string, seq<string>>): map<string, seq<string>> {
    var checked := SignErrors(data, errors, CurrentLoanFields);
    if PaymentTooSmall(data) then checked[CurrentLoanMonthlyPayment := [TooSmallToPayOff]] else checked
  }

  // ---------------------------------------------------------------------------
  // The form object

  /** `get_loan_type_choices`: the loan types (by name) that have a rate-table
      row of the company, each once, in the order of their first row. */
  function LoanTypeChoices(table: seq<RateTable.Row>, company: string): seq<string>
    decreases |table|
  {
    if table == [] then []
    else
      var earlier := LoanTypeChoices(table[..|table| - 1], company);
      var r := table[|table| - 1];
      if r.company == company && r.loanType !in earlier then earlier + [r.loanType] else earlier
  }

  /** The choices are exactly the loan types of the company's rows, without
      repetition. */
  lemma {:induction false} LoanTypeChoicesMembers(table: seq<RateTable.Row>, company: string)
    ensures forall name :: name in LoanTypeChoices(table, company) <==>
                           exists i :: 0 <= i < |table| && table[i].company == company && table[i].loanType == name
    ensures forall i, j :: 0 <= i < j < |LoanTypeChoices(table, company)| ==>
                           LoanTypeChoices(table, company)[i] != LoanTypeChoices(table, company)[j]
    decreases |table|
  {
    if table != [] {
      var front := table[..|table| - 1];
      LoanTypeChoicesMembers(front, company);
      forall name | exists i :: 0 <= i < |table| && table[i].company == company && table[i].loanType == name
        ensures name in LoanTypeChoices(table, company)
      {
        var i :| 0 <= i < |table| && table[i].company == company && table[i].loanType == name;
        if i < |table| - 1 {
          assert front[i] == table[i];
        }
      }
      forall name | name in LoanTypeChoices(front, company)
        ensures exists i :: 0 <= i < |table| && table[i].company == company && table[i].loanType == name
      {
        var i :| 0 <= i < |front| && front[i].company == company && front[i].loanType == name;
        assert table[i] == front[i];
      }
    }
  }

  /** Why a form cannot be built. */
  datatype FormError = NoLoanCompany

  class LoanCalculationForm {
    /** `cleaned_data`, as the field-level cleaning left it. */
    var cleanedData: map<string, Value>
    /** `_errors`. */
    var errors: map<string, seq<string>>
    /** The `loan_type` widget's choices. */
    var loanTypeChoices: seq<string>

    /** The form of a given company: Django's own construction, then the
        company's loan types as the `loan_type` choices. */
    constructor (data: map<string, Value>, fieldErrors: map<string, seq<string>>,
                 loanCompany: string, table: seq<RateTable.Row>)
      ensures cleanedData == data && errors == fieldErrors
      ensures loanTypeChoices == LoanTypeChoices(table, loanCompany)
    {
      cleanedData, errors := data, fieldErrors;
      loanTypeChoices := LoanTypeChoices(table, loanCompany);
    }

    /** `clean`: drop negative current-loan figures with an error each, then,
        when all three figures are good, drop a payment that never pays the
        loan off. */
    method Clean() returns (result: map<string, Value>)
      requires WellTyped(cleanedData)
      modifies this`cleanedData, this`errors
      ensures result == cleanedData
      ensures cleanedData == CleanedData(old(cleanedData))
      ensures errors == CleanErrors(old(cleanedData), old(errors))
    {
      ghost var data := cleanedData;
      var attnames := CurrentLoanFields;
      var allGood := true;
      for i := 0 to |attnames|
        invariant cleanedData == WithoutNegatives(data, attnames[..i])
        invariant errors == SignErrors(data, old(errors), attnames[..i])
        invariant allGood <==> forall j :: 0 <= j < i ==> Good(Get(data, attnames[j]))
      {
        assert attnames[..i + 1][..i] == attnames[..i];
        var attname := attnames[i];
        NotYetChecked(data, attnames[..i], attname);
        var value := Get(cleanedData, attname);
        if value.Null? {
          allGood := false;
        } else if value.d < 0.0 {
          allGood := false;
          errors := errors[attname := [MustBeGreaterThanZero]];
          cleanedData := cleanedData - {attname};
        }
      }
      assert attnames[..|attnames|] == attnames;
      PayOffCheck(data, old(errors));
      if allGood {
        assert Good(Get(data, attnames[0])) && Good(Get(data, attnames[1])) && Good(Get(data, attnames[2]));
        var pmt := cleanedData[CurrentLoanMonthlyPayment].d;
        var pv := cleanedData[CurrentLoanBalance].d;
        var rate := cleanedData[CurrentLoanRate].d;
        if pmt <= (rate / 12.0) * pv {
          errors := errors[CurrentLoanMonthlyPayment := [TooSmallToPayOff]];
          cleanedData := cleanedData - {CurrentLoanMonthlyPayment};
        }
      } else {
        assert !AllGood(data);
      }
      result := cleanedData;
    }
  }

  /** A field the loop has not reached yet still holds its original value. */
  lemma {:induction false} NotYetChecked(data: map<string, Value>, names: seq<string>, name: string)
    requires name !in names
    ensures Get(WithoutNegatives(data, names), name) == Get(data, name)
    decreases |names|
  {
    if names != [] {
      NotYetChecked(data, names[..|names| - 1], name);
    }
  }

  // ---------------------------------------------------------------------------
  // What clean guarantees

  /** `WithoutNegatives` drops exactly the negative fields among `names`. */
  lemma {:induction false} WithoutNegativesDrops(data: map<string, Value>, names: seq<string>, k: string)
    ensures k in WithoutNegatives(data, names) <==> k in data && !(k in names && IsNegative(Get(data, k)))
    ensures k in WithoutNegatives(data, names) ==> WithoutNegatives(data, names)[k] == data[k]
    decreases |names|
  {
    if names != [] {
      WithoutNegativesDrops(data, names[..|names| - 1], k);
      assert k in names <==> k in names[..|names| - 1] || k == names[|names| - 1];
    }
  }

  /** `SignErrors` marks exactly the negative fields among `names`. */
  lemma {:induction false} SignErrorsMarks(data: map<string, Value>, errors: map<string, seq<string>>,
                                           names: seq<string>, k: string)
    ensures k in names && IsNegative(Get(data, k)) ==>
              k in SignErrors(data, errors, names) && SignErrors(data, errors, names)[k] == [MustBeGreaterThanZero]
    ensures !(k in names && IsNegative(Get(data, k))) ==>
              (k in SignErrors(data, errors, names) <==> k in errors) &&
              (k in errors ==> SignErrors(data, errors, names)[k] == errors[k])
    decreases |names|
  {
    if names != [] {
      SignErrorsMarks(data, errors, names[..|names| - 1], k);
      assert k in names <==> k in names[..|names| - 1] || k == names[|names| - 1];
    }
  }

  /** A negative figure is removed from the cleaned data and carries the
      `must be greater than zero` error; a zero or positive figure is kept
      unless the pay-off check removes the payment. */
  lemma NegativeFigureRejected(data: map<string, Value>, errors: map<string, seq<string>>, name: string)
    requires name in CurrentLoanFields
    ensures IsNegative(Get(data, name)) ==>
              name !in CleanedData(data) && name in CleanErrors(data, errors)
              && CleanErrors(data, errors)[name] == [MustBeGreaterThanZero]
    ensures name in data && data[name].Decimal? && data[name].d >= 0.0 &&
            !(name == CurrentLoanMonthlyPayment && PaymentTooSmall(data)) ==>
              name in CleanedData(data) && CleanedData(data)[name] == data[name]
  {
    WithoutNegativesDrops(data, CurrentLoanFields, name);
    SignErrorsMarks(data, errors, CurrentLoanFields, name);
    if IsNegative(Get(data, name)) {
      assert !AllGood(data);
    }
  }

  /** The pay-off check runs only when all three figures are given and none is
      negative; it then removes the payment, with its error, exactly when the
      payment is at most a month's interest on the balance. */
  lemma PayOffCheck(data: map<string, Value>, errors: map<string, seq<string>>)
    ensures !AllGood(data) ==> CleanedData(data) == WithoutNegatives(data, CurrentLoanFields)
                               && CleanErrors(data, errors) == SignErrors(data, errors, CurrentLoanFields)
    ensures AllGood(data) ==> WithoutNegatives(data, CurrentLoanFields) == data
                              && SignErrors(data, errors, CurrentLoanFields) == errors
    ensures PaymentTooSmall(data) ==>
              CleanedData(data) == data - {CurrentLoanMonthlyPayment}
              && CleanErrors(data, errors) == errors[CurrentLoanMonthlyPayment := [TooSmallToPayOff]]
    ensures AllGood(data) && !PaymentTooSmall(data) ==>
              CleanedData(data) == data && CleanErrors(data, errors) == errors
  {
    if AllGood(data) {
      forall k ensures k in WithoutNegatives(data, CurrentLoanFields) <==> k in data {
        WithoutNegativesDrops(data, CurrentLoanFields, k);
        NoNegativeWhenAllGood(data, k);
      }
      forall k | k in WithoutNegatives(data, CurrentLoanFields)
        ensures WithoutNegatives(data, CurrentLoanFields)[k] == data[k]
      {
        WithoutNegativesDrops(data, CurrentLoanFields, k);
      }
      forall k ensures k in SignErrors(data, errors, CurrentLoanFields) <==> k in errors {
        SignErrorsMarks(data, errors, CurrentLoanFields, k);
        NoNegativeWhenAllGood(data, k);
      }
      forall k | k in SignErrors(data, errors, CurrentLoanFields)
        ensures SignErrors(data, errors, CurrentLoanFields)[k] == errors[k]
      {
        SignErrorsMarks(data, errors, CurrentLoanFields, k);
        NoNegativeWhenAllGood(data, k);
      }
    }
  }

  lemma NoNegativeWhenAllGood(data: map<string, Value>, k: string)
    requires AllGood(data)
    ensures !(k in CurrentLoanFields && IsNegative(Get(data, k)))
  {

  }

  /** `clean` leaves every field other than the three current-loan figures, and
      its errors, exactly as they were. */
  lemma OtherFieldsUntouched(data: map<string, Value>, errors: map<string, seq<string>>, k: string)
    requires k !in CurrentLoanFields
    ensures k in CleanedData(data) <==> k in data
    ensures k in data ==> CleanedData(data)[k] == data[k]
    ensures k in CleanErrors(data, errors) <==> k in errors
    ensures k in errors ==> CleanErrors(data, errors)[k] == errors[k]
  {
    WithoutNegativesDrops(data, CurrentLoanFields, k);
    SignErrorsMarks(data, errors, CurrentLoanFields, k);
  }

  /** `LoanCalculationForm(..., loan_company=...)`: refused without a company,
      otherwise a new form offering the company's loan types. */
  method NewForm(data: map<string, Value>, fieldErrors: map<string, seq<string>>,
                 loanCompany: Option<string>, table: seq<RateTable.Row>)
    returns (r: Result<LoanCalculationForm, FormError>)
    ensures r.Failure? <==> loanCompany.None?
    ensures r.Failure? ==> r.error == NoLoanCompany
    ensures r.Success? ==> fresh(r.value) && r.value.cleanedData == data && r.value.errors == fieldErrors
                           && r.value.loanTypeChoices == LoanTypeChoices(table, loanCompany.value)
  {
    if loanCompany.None? {
      return Failure(NoLoanCompany);
    }
    var form := new LoanCalculationForm(data, fieldErrors, loanCompany.value, table);
    r := Success(form);
  }

  /** When all three figures survive `clean` as numbers and the rate is not
      zero, the remaining-term computation `nper(rate / 12, -payment, balance)`
      is inside its domain, and the payment is positive. */
  lemma CleanKeepsNperInDomain(data: map<string, Value>, errors: map<string, seq<string>>)
    requires WellTyped(data)
    requires Get(CleanedData(data), CurrentLoanBalance).Decimal?
    requires Get(CleanedData(data), CurrentLoanMonthlyPayment).Decimal?
    requires Get(CleanedData(data), CurrentLoanRate).Decimal?
    requires Get(CleanedData(data), CurrentLoanRate).d != 0.0
    ensures var balance := Get(CleanedData(data), CurrentLoanBalance).d;
            var payment := Get(CleanedData(data), CurrentLoanMonthlyPayment).d;
            var rate := Get(CleanedData(data), CurrentLoanRate).d;
            payment > 0.0 && LoanCalculations.NperDomain(rate / 12.0, -payment, balance)
  {
    var cleaned := CleanedData(data);
    WithoutNegativesDrops(data, CurrentLoanFields, CurrentLoanBalance);
    WithoutNegativesDrops(data, CurrentLoanFields, CurrentLoanMonthlyPayment);
    WithoutNegativesDrops(data, CurrentLoanFields, CurrentLoanRate);
    assert AllGood(data);
    PayOffCheck(data, errors);
    assert !PaymentTooSmall(data);
    var balance, payment, rate := data[CurrentLoanBalance].d, data[CurrentLoanMonthlyPayment].d, data[CurrentLoanRate].d;
    assert cleaned == data;
    assert (rate / 12.0) * balance >= 0.0;
    assert payment > (rate / 12.0) * balance;
    assert -payment + balance * (rate / 12.0) < 0.0;
  }

  // ---------------------------------------------------------------------------
  // PercentageField

  /** `prepare_value`: a stored `Decimal` fraction is shown as a percentage;
      any other value (an already prepared string) is shown as it is. */
  function PrepareValue(v: Value): Value {
    match v
    case Decimal(d) => Decimal(d * 100.0)
    case _ => v
  }

  /** `clean` after the decimal field's own cleaning: `None` passes through, a
      negative percentage is refused, anything else becomes a fraction. */
  function CleanPercentage(v: Option<real>): Result<Option<real>, string> {
    match v
    case None => Success(None)
    case Some(p) =>
      if p < 0.0 then Failure(MustBePositive)
      else Success(Some(p / 100.0))
  }

  /** `clean` fails exactly on a negative percentage, and otherwise divides by 100. */
  lemma CleanPercentageOutcome(v: Option<real>)
    ensures CleanPercentage(v).Failure? <==> v.Some? && v.value < 0.0
    ensures CleanPercentage(v).Failure? ==> CleanPercentage(v).error == MustBePositive
    ensures v.None? ==> CleanPercentage(v) == Success(None)
    ensures v.Some? && v.value >= 0.0 ==> CleanPercentage(v) == Success(Some(v.value / 100.0))
  {
  }

  /** Preparing a stored non-negative fraction and cleaning the result gives the
      fraction back. */
  lemma PrepareThenClean(d: real)
    requires d >= 0.0
    ensures PrepareValue(Decimal(d)) == Decimal(d * 100.0)
    ensures CleanPercentage(Some(PrepareValue(Decimal(d)).d)) == Success(Some(d))
  {
  }

  /** Cleaning an entered percentage and preparing the stored fraction shows
      the entered percentage again. */
  lemma CleanThenPrepare(p: real)
    requires CleanPercentage(Some(p)).Success?
    ensures CleanPercentage(Some(p)).value.Some?
    ensures PrepareValue(Decimal(CleanPercentage(Some(p)).value.value)) == Decimal(p)
  {
  }

  /** Values that are not `Decimal`s are shown unchanged. */
  lemma PrepareKeepsOtherValues(v: Value)
    requires !v.Decimal?
    ensures PrepareValue(v) == v
  {
  }
}
