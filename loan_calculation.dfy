/**
 * `LoanCalculation`: the value-index strategies, the rate and maximum-term
 * resolution over the rate table, the term clamp of `save` and the derived
 * savings and interest figures.
 *
 * The amortisation functions `nper` and `pmt` are floating-point library code
 * and enter the model as function parameters; only the domains in which they
 * can be evaluated are modelled.
 */
module LoanCalculations {
  import opened Wrappers
  import opened RateTable

  /** The closed list of value-index methods an addition type may name. */
  datatype Strategy = LoanToValue | DebtToIncome | YearOfCollateral

  /** A `LoanAdditionType`: one named rate-table dimension of a company's loan type. */
  datatype AdditionType = AdditionType(
    company: string,
    loanType: string,
    name: string,
    strategy: Strategy,
    sumInRateCalculation: bool)

  /** What makes a calculation fail: a rate-table lookup failure, a missing input
      (`None` used in arithmetic), a zero denominator, the `Maximum term` type
      missing or duplicated, or `nper` or `pmt` evaluated outside its domain. */
  datatype CalcError =
    | LookupFailed(reason: LookupError)
    | MissingInput
    | DivisionByZero
    | NoSuchAdditionType
    | SeveralAdditionTypes
    | NperOutOfDomain
    | PmtOutOfDomain

  const MaximumTermName: string := "Maximum term"

  /** The model's field defaults. */
  const DefaultCreditScore: int := 850
  const DefaultCollateralValue: real := 1000.0
  const DefaultMonthlyTerm: real := 60.0

  /** The user-entered fields of a `LoanCalculation`. */
  datatype Request = Request(
    company: string,
    loanType: string,
    currentLoanBalance: Option<real>,
    currentLoanMonthlyPayment: Option<real>,
    currentLoanRate: Option<real>,
    estimatedCreditScore: Option<int>,
    estimatedCollateralValue: Option<real>,
    estimatedMonthlyIncome: Option<real>,
    estimatedMonthlyExpenses: Option<real>,
    estimatedYearOfCollateral: Option<int>,
    loanAmount: real,
    monthlyTerm: real)

  /** The fields `save` computes. */
  datatype Figures = Figures(
    remainingTerm: Option<int>,
    rate: real,
    maximumTerm: real,
    monthlyTerm: real,
    monthlyPayment: real)

  /** Python truthiness of a nullable number: present and non-zero. */
  predicate Truthy(x: Option<real>) {
    x.Some? && x.value != 0.0
  }

  // ---------------------------------------------------------------------------
  // Rounding

  /** Python's `round` on a number: the nearest integer, ties to the even one. */
  function RoundHalfEven(x: real): (n: int)
    ensures x - 0.5 <= n as real <= x + 0.5
    ensures (n as real == x - 0.5 || n as real == x + 0.5) ==> n % 2 == 0
  {
    var f := x.Floor;
    var d := x - f as real;
    if d < 0.5 then f
    else if d > 0.5 then f + 1
    else if f % 2 == 0 then f
    else f + 1
  }

  /** `quantize(Decimal('0.01'))` under the default half-even context. */
  function RoundCents(x: real): (c: real)
    ensures x - 0.005 <= c <= x + 0.005
  {
    RoundHalfEven(x * 100.0) as real / 100.0
  }

  /** A rounded amount is a whole number of cents. */
  lemma RoundCentsIsWholeCents(x: real)
    ensures (RoundCents(x) * 100.0).Floor as real == RoundCents(x) * 100.0
  {
    assert RoundCents(x) * 100.0 == RoundHalfEven(x * 100.0) as real;
  }

  /** Rounding an amount that is already whole cents changes nothing. */
  lemma RoundCentsIsIdempotent(x: real)
    ensures RoundCents(RoundCents(x)) == RoundCents(x)
  {
    var n := RoundHalfEven(x * 100.0);
    assert RoundCents(x) * 100.0 == n as real;
    assert (n as real).Floor == n;
  }

  /** `CurrencyField.to_python`: an amount rounded to cents; `None` stays `None`. */
  function CurrencyToPython(v: Option<real>): (r: Option<real>)
    ensures r.None? <==> v.None?
    ensures r.Some? ==> v.value - 0.005 <= r.value <= v.value + 0.005
  {
    match v
    case None => None
    case Some(x) => Some(RoundCents(x))
  }

  /** Reading a stored amount back gives the same amount. */
  lemma CurrencyToPythonIsIdempotent(v: Option<real>)
    ensures CurrencyToPython(CurrencyToPython(v)) == CurrencyToPython(v)
  {
    if v.Some? {
      RoundCentsIsIdempotent(v.value);
    }
  }

  // ---------------------------------------------------------------------------
  // Value-index strategies

  /** A ratio expressed in percent. */
  function Percentage(part: real, whole: real): real
    requires whole != 0.0
  {
    part / whole * 100.0
  }

  /** The percentage times the whole gives the part back. */
  lemma PercentageRecoversPart(part: real, whole: real)
    requires whole != 0.0
    ensures Percentage(part, whole) * whole == part * 100.0
  {
    calc {
      Percentage(part, whole) * whole;
      (part / whole) * whole * 100.0;
      part * 100.0;
    }
  }

  /** For a positive whole, the percentage is at most 100 exactly when the part
      does not exceed the whole. */
  lemma PercentageAtMostHundred(part: real, whole: real)
    requires whole > 0.0
    ensures Percentage(part, whole) <= 100.0 <==> part <= whole
  {
    PercentageRecoversPart(part, whole);
    var p := Percentage(part, whole);
    if p <= 100.0 {
      assert p * whole <= 100.0 * whole;
    } else {
      assert p * whole > 100.0 * whole;
    }
  }

  /** `get_value_index`: dispatch on the addition type's strategy. Loan-to-value
      and debt-to-income are percentages and fail on a missing figure or a zero
      denominator; the year of the collateral is passed through. */
  function GetValueIndex(req: Request, strategy: Strategy): Result<real, CalcError>
  {
    match strategy
    case LoanToValue =>
      if req.estimatedCollateralValue.None? then Failure(MissingInput)
      else if req.estimatedCollateralValue.value == 0.0 then Failure(DivisionByZero)
      else
        Success(Percentage(req.loanAmount, req.estimatedCollateralValue.value))
    case DebtToIncome =>
      if req.estimatedMonthlyExpenses.None? || req.estimatedMonthlyIncome.None? then Failure(MissingInput)
      else if req.estimatedMonthlyIncome.value == 0.0 then Failure(DivisionByZero)
      else
        Success(Percentage(req.estimatedMonthlyExpenses.value, req.estimatedMonthlyIncome.value))
    case YearOfCollateral =>
      if req.estimatedYearOfCollateral.None? then Failure(MissingInput)
      else Success(req.estimatedYearOfCollateral.value as real)
  }

  /** Each strategy fails exactly on a missing figure or a zero denominator,
      and a percentage times its denominator gives the numerator back. */
  lemma GetValueIndexMeaning(req: Request, strategy: Strategy)
    ensures var r := GetValueIndex(req, strategy);
            strategy == LoanToValue ==>
              (r.Failure? <==> !Truthy(req.estimatedCollateralValue)) &&
              (r.Success? ==> r.value * req.estimatedCollateralValue.value == req.loanAmount * 100.0)
    ensures var r := GetValueIndex(req, strategy);
            strategy == DebtToIncome ==>
              (r.Failure? <==> req.estimatedMonthlyExpenses.None? || !Truthy(req.estimatedMonthlyIncome)) &&
              (r.Success? ==> r.value * req.estimatedMonthlyIncome.value
                              == req.estimatedMonthlyExpenses.value * 100.0)
    ensures var r := GetValueIndex(req, strategy);
            strategy == YearOfCollateral ==>
              (r.Failure? <==> req.estimatedYearOfCollateral.None?) &&
              (r.Success? ==> r.value == req.estimatedYearOfCollateral.value as real)
  {
    match strategy
    case LoanToValue =>
      if Truthy(req.estimatedCollateralValue) {
        PercentageRecoversPart(req.loanAmount, req.estimatedCollateralValue.value);
      }
    case DebtToIncome =>
      if req.estimatedMonthlyExpenses.Some? && Truthy(req.estimatedMonthlyIncome) {
        PercentageRecoversPart(req.estimatedMonthlyExpenses.value, req.estimatedMonthlyIncome.value);
      }
    case YearOfCollateral =>
  }

  /** A positive collateral value gives a loan-to-value index of at most 100
      exactly when the loan does not exceed the collateral. */
  lemma LoanToValueAtMostHundred(req: Request)
    requires req.estimatedCollateralValue.Some? && req.estimatedCollateralValue.value > 0.0
    ensures GetValueIndex(req, LoanToValue).Success?
    ensures GetValueIndex(req, LoanToValue).value <= 100.0
            <==> req.loanAmount <= req.estimatedCollateralValue.value
  {
    PercentageAtMostHundred(req.loanAmount, req.estimatedCollateralValue.value);
  }

  // ---------------------------------------------------------------------------
  // Rate and maximum term

  /** `get_addition` with a credit score that may be blank: the scope's maximum
      is fetched first, and comparing a blank score with it raises. */
  function AdditionLookup(table: seq<Row>, company: string, loanType: string, valueType: string,
                          creditScore: Option<int>, valueIndex: real): Result<real, CalcError>
  {
    if Scope(table, company, loanType, valueType) == [] then Failure(LookupFailed(EmptyScope))
    else
      match creditScore
      case None => Failure(MissingInput)
      case Some(cs) =>
        match Lookup(table, company, loanType, valueType, cs, valueIndex)
        case Success(x) => Success(x)
        case Failure(e) => Failure(LookupFailed(e))
  }

  /** A blank credit score fails every lookup in a non-empty scope; a given one
      gets the rate table's answer. */
  lemma AdditionLookupMeaning(table: seq<Row>, company: string, loanType: string, valueType: string,
                              creditScore: Option<int>, valueIndex: real)
    ensures AdditionLookup(table, company, loanType, valueType, creditScore, valueIndex) == Failure(MissingInput)
        <==> Scope(table, company, loanType, valueType) != [] && creditScore.None?
    ensures creditScore.Some? ==>
              match Lookup(table, company, loanType, valueType, creditScore.value, valueIndex)
              case Success(x) => AdditionLookup(table, company, loanType, valueType, creditScore, valueIndex) == Success(x)
              case Failure(e) =>
                AdditionLookup(table, company, loanType, valueType, creditScore, valueIndex) == Failure(LookupFailed(e))
  {
    if creditScore.Some? && Scope(table, company, loanType, valueType) == [] {
      LookupFailures(table, company, loanType, valueType, creditScore.value, valueIndex);
    }
  }

  /** The addition one type contributes: its value index looked up in the rate table. */
  function Addition(req: Request, t: AdditionType, table: seq<Row>): Result<real, CalcError> {
    var vi :- GetValueIndex(req, t.strategy);
    AdditionLookup(table, req.company, req.loanType, t.name, req.estimatedCreditScore, vi)
  }

  /** The addition types `calculate_rate` visits. */
  predicate CountsInRate(req: Request, t: AdditionType) {
    t.sumInRateCalculation && t.company == req.company && t.loanType == req.loanType
  }

  /** `calculate_rate`: the additions of the counting types, added up in the
      order the types are visited; the first failing type aborts. */
  function Rate(req: Request, types: seq<AdditionType>, table: seq<Row>): Result<real, CalcError>
    decreases |types|
  {
    if types == [] then Success(0.0)
    else
      var sofar :- Rate(req, types[..|types| - 1], table);
      var t := types[|types| - 1];
      if CountsInRate(req, t) then
        var a :- Addition(req, t, table);
        Success(sofar + a)
      else Success(sofar)
  }

  /** The contribution of one type to the rate: its addition when it counts and resolves. */
  function Contribution(req: Request, t: AdditionType, table: seq<Row>): real {
    if CountsInRate(req, t) && Addition(req, t, table).Success? then Addition(req, t, table).value else 0.0
  }

  /** The sum of the contributions, as an order-free reference for `Rate`. */
  function Total(req: Request, types: seq<AdditionType>, table: seq<Row>): real
    decreases |types|
  {
    if types == [] then 0.0
    else Total(req, types[..|types| - 1], table) + Contribution(req, types[|types| - 1], table)
  }

  /** Every counting type resolves. */
  ghost predicate AllResolve(req: Request, types: seq<AdditionType>, table: seq<Row>) {
    forall t :: t in types && CountsInRate(req, t) ==> Addition(req, t, table).Success?
  }

  /** The rate exists exactly when every counting type resolves, and is then the
      sum of their additions. */
  lemma {:induction false} RateIsTotal(req: Request, types: seq<AdditionType>, table: seq<Row>)
    ensures Rate(req, types, table).Success? <==> AllResolve(req, types, table)
    ensures Rate(req, types, table).Success? ==> Rate(req, types, table).value == Total(req, types, table)
    decreases |types|
  {
    if types != [] {
      var init := types[..|types| - 1];
      var last := types[|types| - 1];
      RateIsTotal(req, init, table);
      assert types == init + [last];
      assert forall t :: t in types <==> t in init || t == last;
    }
  }

  /** With no counting type the rate is zero. */
  lemma {:induction false} RateWithoutCountingTypes(req: Request, types: seq<AdditionType>, table: seq<Row>)
    requires forall t :: t in types ==> !CountsInRate(req, t)
    ensures Rate(req, types, table) == Success(0.0)
    decreases |types|
  {
    if types != [] {
      RateWithoutCountingTypes(req, types[..|types| - 1], table);
    }
  }

  /** Taking one type out of the sequence takes its contribution out of the total. */
  lemma {:induction false} TotalWithout(req: Request, types: seq<AdditionType>, k: nat, table: seq<Row>)
    requires k < |types|
    ensures Total(req, types, table)
         == Total(req, types[..k] + types[k + 1..], table) + Contribution(req, types[k], table)
    decreases |types|
  {
    var n := |types|;
    if k < n - 1 {
      var init := types[..n - 1];
      TotalWithout(req, init, k, table);
      assert types[..k] + types[k + 1..] == (init[..k] + init[k + 1..]) + [types[n - 1]];
      assert (types[..k] + types[k + 1..])[..n - 2] == init[..k] + init[k + 1..];
    } else {
      assert types[..k] + types[k + 1..] == types[..n - 1];
    }
  }

  /** Two sequences with the same elements: the last element of the first sits
      at some position `k` of the second, and what remains on both sides again
      has the same elements. */
  lemma MatchLast<T>(a: seq<T>, b: seq<T>) returns (k: nat)
    requires a != [] && multiset(a) == multiset(b)
    ensures k < |b| && b[k] == a[|a| - 1]
    ensures multiset(a[..|a| - 1]) == multiset(b[..k] + b[k + 1..])
  {
    var n := |a|;
    assert a[n - 1] in multiset(a);
    k :| 0 <= k < |b| && b[k] == a[n - 1];
    MultisetWithout(a, n - 1);
    assert a[..n - 1] + a[n..] == a[..n - 1];
    MultisetWithout(b, k);
  }

  /** Removing the element at `k` removes one occurrence of it from the multiset. */
  lemma MultisetWithout<T>(s: seq<T>, k: nat)
    requires k < |s|
    ensures multiset(s[..k] + s[k + 1..]) == multiset(s) - multiset{s[k]}
  {
    assert s == s[..k] + [s[k]] + s[k + 1..];
  }

  /** The total does not depend on the order of the types. */
  lemma {:induction false} TotalIsOrderFree(req: Request, a: seq<AdditionType>, b: seq<AdditionType>, table: seq<Row>)
    requires multiset(a) == multiset(b)
    ensures Total(req, a, table) == Total(req, b, table)
    decreases |a|
  {
    if a == [] {
      assert |b| == |multiset(b)| == 0;
    } else {
      var k := MatchLast(a, b);
      TotalIsOrderFree(req, a[..|a| - 1], b[..k] + b[k + 1..], table);
      TotalWithout(req, b, k, table);
    }
  }

  /** `calculate_rate` gives the same outcome whatever order the addition types
      are visited in: both succeed with the same rate, or both fail. */
  lemma RateIsOrderFree(req: Request, a: seq<AdditionType>, b: seq<AdditionType>, table: seq<Row>)
    requires multiset(a) == multiset(b)
    ensures Rate(req, a, table).Success? <==> Rate(req, b, table).Success?
    ensures Rate(req, a, table).Success? ==> Rate(req, a, table).value == Rate(req, b, table).value
  {
    RateIsTotal(req, a, table);
    RateIsTotal(req, b, table);
    assert forall t :: t in a <==> t in b by {
      forall t ensures t in a <==> t in b {
        assert t in a <==> t in multiset(a);
        assert t in b <==> t in multiset(b);
      }
    }
    TotalIsOrderFree(req, a, b, table);
  }

  predicate IsMaximumTermType(req: Request, t: AdditionType) {
    t.name == MaximumTermName && t.company == req.company && t.loanType == req.loanType
  }

  /** The addition types named `Maximum term` for the request's company and loan type. */
  function MaximumTermTypes(req: Request, types: seq<AdditionType>): (s: seq<AdditionType>)
    ensures |s| <= |types|
  {
    if types == [] then []
    else if IsMaximumTermType(req, types[0]) then [types[0]] + MaximumTermTypes(req, types[1..])
    else MaximumTermTypes(req, types[1..])
  }

  /** The selected types are exactly the `Maximum term` types of the request. */
  lemma {:induction false} MaximumTermTypesMembers(req: Request, types: seq<AdditionType>)
    ensures forall t :: t in MaximumTermTypes(req, types) <==> t in types && IsMaximumTermType(req, t)
    decreases |types|
  {
    if types != [] {
      MaximumTermTypesMembers(req, types[1..]);
      assert forall t :: t in types <==> t == types[0] || t in types[1..];
    }
  }

  /** `calculate_maximum_term`: the addition of the single `Maximum term` type;
      none or several such types is a failure. */
  function MaximumTerm(req: Request, types: seq<AdditionType>, table: seq<Row>): Result<real, CalcError> {
    var matches := MaximumTermTypes(req, types);
    if |matches| == 0 then Failure(NoSuchAdditionType)
    else if |matches| > 1 then Failure(SeveralAdditionTypes)
    else Addition(req, matches[0], table)
  }

  /** The maximum term is the addition of a `Maximum term` type of the request's
      company and loan type, the only one there is; the lookup fails when there is
      none, or when there are several. */
  lemma MaximumTermOfTheSingleType(req: Request, types: seq<AdditionType>, table: seq<Row>)
    ensures MaximumTerm(req, types, table) == Failure(NoSuchAdditionType)
        <==> forall t :: t in types ==> !IsMaximumTermType(req, t)
    ensures MaximumTerm(req, types, table) == Failure(SeveralAdditionTypes)
        <==> |MaximumTermTypes(req, types)| > 1
    ensures MaximumTerm(req, types, table).Success? ==>
              exists t :: t in types && IsMaximumTermType(req, t) &&
                          Addition(req, t, table) == MaximumTerm(req, types, table) &&
                          forall u :: u in types && IsMaximumTermType(req, u) ==> u == t
  {
    var matches := MaximumTermTypes(req, types);
    MaximumTermTypesMembers(req, types);
    if |matches| > 0 {
      assert matches[0] in matches;
    }
    if |matches| == 1 {
      forall u | u in types && IsMaximumTermType(req, u) ensures u == matches[0] {
        assert u in matches;
      }
    }
  }

  // ---------------------------------------------------------------------------
  // Remaining term of the current loan

  /** The arguments for which `nper(rate, pmt, pv)` evaluates without a math
      domain error or a division by zero. */
  predicate NperDomain(rate: real, pmt: real, pv: real) {
    pmt + pv * rate != 0.0 && pmt / (pmt + pv * rate) > 0.0 && 1.0 + rate > 0.0 && rate != 0.0
  }

  /** `calculate_current_loan_estimated_remaining_term`: recomputed only when
      balance, payment and rate are all truthy, otherwise the previous value stays. */
  function RemainingTerm(req: Request, previous: Option<int>, nper: (real, real, real) -> real)
    : Result<Option<int>, CalcError>
  {
    if Truthy(req.currentLoanBalance) && Truthy(req.currentLoanMonthlyPayment) && Truthy(req.currentLoanRate) then
      var rate := req.currentLoanRate.value / 12.0;
      var pmt := -req.currentLoanMonthlyPayment.value;
      var pv := req.currentLoanBalance.value;
      if NperDomain(rate, pmt, pv) then Success(Some(RoundHalfEven(nper(rate, pmt, pv))))
      else Failure(NperOutOfDomain)
    else Success(previous)
  }

  /** The remaining term is left as it was unless balance, payment and rate are
      all given and non-zero; it is then recomputed, and fails only outside the
      domain of `nper`. */
  lemma RemainingTermRecomputedWhenAllGiven(req: Request, previous: Option<int>, nper: (real, real, real) -> real)
    ensures !(Truthy(req.currentLoanBalance) && Truthy(req.currentLoanMonthlyPayment) && Truthy(req.currentLoanRate))
            ==> RemainingTerm(req, previous, nper) == Success(previous)
    ensures RemainingTerm(req, previous, nper).Failure? <==>
              Truthy(req.currentLoanBalance) && Truthy(req.currentLoanMonthlyPayment) && Truthy(req.currentLoanRate) &&
              !NperDomain(req.currentLoanRate.value / 12.0, -req.currentLoanMonthlyPayment.value,
                          req.currentLoanBalance.value)
    ensures RemainingTerm(req, previous, nper).Success? &&
            Truthy(req.currentLoanBalance) && Truthy(req.currentLoanMonthlyPayment) && Truthy(req.currentLoanRate)
            ==> RemainingTerm(req, previous, nper)
                == Success(Some(RoundHalfEven(nper(req.currentLoanRate.value / 12.0,
                                                   -req.currentLoanMonthlyPayment.value,
                                                   req.currentLoanBalance.value))))
  {
  }

  /** The term `save` settles on: the requested term, lowered to the maximum. */
  function ClampTerm(requested: real, maximum: real): (t: real)
    ensures t <= maximum && t <= requested
    ensures t == requested || t == maximum
  {
    if maximum < requested then maximum else requested
  }

  /** The arguments for which `pmt(rate, nperiods, pv)` evaluates without a
      division by zero. At a zero rate it divides by the term; otherwise by
      `(1 + rate) ** nperiods - 1`, which for `1 + rate > 0` vanishes exactly at
      a zero term. A monthly rate of -100 % or less is counted outside. */
  predicate PmtDomain(rate: real, nperiods: real) {
    nperiods != 0.0 && 1.0 + rate > 0.0
  }

  /** Everything `save` computes, in its order: remaining term, rate, maximum
      term, term clamp, monthly payment. */
  function Calculate(req: Request, previous: Option<int>, types: seq<AdditionType>, table: seq<Row>,
                     nper: (real, real, real) -> real, pmt: (real, real, real) -> real)
    : Result<Figures, CalcError>
  {
    match RemainingTerm(req, previous, nper)
    case Failure(e) => Failure(e)
    case Success(remaining) =>
      match Rate(req, types, table)
      case Failure(e) => Failure(e)
      case Success(rate) =>
        match MaximumTerm(req, types, table)
        case Failure(e) => Failure(e)
        case Success(maximum) =>
          var term := ClampTerm(req.monthlyTerm, maximum);
          if !PmtDomain(rate / 12.0, term) then Failure(PmtOutOfDomain)
          else Success(Figures(remaining, rate, maximum, term, RoundCents(pmt(rate / 12.0, term, -req.loanAmount))))
  }

  /** The figures of a calculation whose three lookups succeed: the payment is
      computed unless the term lies outside the domain of `pmt`. */
  lemma CalculateOf(req: Request, previous: Option<int>, types: seq<AdditionType>, table: seq<Row>,
                    nper: (real, real, real) -> real, pmt: (real, real, real) -> real,
                    remaining: Option<int>, rate: real, maximum: real)
    requires RemainingTerm(req, previous, nper) == Success(remaining)
    requires Rate(req, types, table) == Success(rate)
    requires MaximumTerm(req, types, table) == Success(maximum)
    ensures Calculate(req, previous, types, table, nper, pmt)
         == if !PmtDomain(rate / 12.0, ClampTerm(req.monthlyTerm, maximum)) then Failure(PmtOutOfDomain)
            else Success(Figures(remaining, rate, maximum, ClampTerm(req.monthlyTerm, maximum),
                                 RoundCents(pmt(rate / 12.0, ClampTerm(req.monthlyTerm, maximum), -req.loanAmount))))
  {
  }

  /** The first failing step of a calculation is its failure. */
  lemma CalculateFailure(req: Request, previous: Option<int>, types: seq<AdditionType>, table: seq<Row>,
                         nper: (real, real, real) -> real, pmt: (real, real, real) -> real)
    ensures RemainingTerm(req, previous, nper).Failure? ==>
              Calculate(req, previous, types, table, nper, pmt) == Failure(RemainingTerm(req, previous, nper).error)
    ensures RemainingTerm(req, previous, nper).Success? && Rate(req, types, table).Failure? ==>
              Calculate(req, previous, types, table, nper, pmt) == Failure(Rate(req, types, table).error)
    ensures RemainingTerm(req, previous, nper).Success? && Rate(req, types, table).Success? &&
            MaximumTerm(req, types, table).Failure? ==>
              Calculate(req, previous, types, table, nper, pmt) == Failure(MaximumTerm(req, types, table).error)
    ensures RemainingTerm(req, previous, nper).Success? && Rate(req, types, table).Success? &&
            MaximumTerm(req, types, table).Success? &&
            !PmtDomain(Rate(req, types, table).value / 12.0,
                       ClampTerm(req.monthlyTerm, MaximumTerm(req, types, table).value)) ==>
              Calculate(req, previous, types, table, nper, pmt) == Failure(PmtOutOfDomain)
  {
  }

  /** A successful calculation never leaves the term above the maximum term, and
      keeps the requested term when it is within the maximum. */
  lemma CalculateClampsTerm(req: Request, previous: Option<int>, types: seq<AdditionType>, table: seq<Row>,
                            nper: (real, real, real) -> real, pmt: (real, real, real) -> real)
    requires Calculate(req, previous, types, table, nper, pmt).Success?
    ensures var f := Calculate(req, previous, types, table, nper, pmt).value;
            f.monthlyTerm <= f.maximumTerm &&
            (req.monthlyTerm <= f.maximumTerm ==> f.monthlyTerm == req.monthlyTerm) &&
            (req.monthlyTerm > f.maximumTerm ==> f.monthlyTerm == f.maximumTerm) &&
            MaximumTerm(req, types, table) == Success(f.maximumTerm) &&
            Rate(req, types, table) == Success(f.rate)
  {
  }

  /** Saving again with the figures of a successful save (and unchanged tables)
      computes the same figures. */
  lemma CalculateIsIdempotent(req: Request, previous: Option<int>, types: seq<AdditionType>, table: seq<Row>,
                              nper: (real, real, real) -> real, pmt: (real, real, real) -> real)
    requires Calculate(req, previous, types, table, nper, pmt).Success?
    ensures var f := Calculate(req, previous, types, table, nper, pmt).value;
            Calculate(req.(monthlyTerm := f.monthlyTerm), f.remainingTerm, types, table, nper, pmt) == Success(f)
  {
    var f := Calculate(req, previous, types, table, nper, pmt).value;
    var req' := req.(monthlyTerm := f.monthlyTerm);
    assert RemainingTerm(req, previous, nper) == Success(f.remainingTerm);
    assert RemainingTerm(req', f.remainingTerm, nper) == Success(f.remainingTerm);
    RateIgnoresTerm(req, f.monthlyTerm, types, table);
    MaximumTermTypesIgnoreTerm(req, f.monthlyTerm, types);
    assert MaximumTerm(req', types, table) == MaximumTerm(req, types, table);
    CalculateOf(req, previous, types, table, nper, pmt, f.remainingTerm, f.rate, f.maximumTerm);
    CalculateOf(req', f.remainingTerm, types, table, nper, pmt, f.remainingTerm, f.rate, f.maximumTerm);
  }

  /** The five fields `save` writes, after it has run from the fields `before`,
      and the error that stopped it. Each step assigns its field when it
      succeeds; a failing step raises, leaving its field and those of the later
      steps as they were. */
  function SaveSteps(req: Request, before: Figures, types: seq<AdditionType>, table: seq<Row>,
                     nper: (real, real, real) -> real, pmt: (real, real, real) -> real)
    : (Figures, Option<CalcError>)
    requires before.monthlyTerm == req.monthlyTerm
  {
    match RemainingTerm(req, before.remainingTerm, nper)
    case Failure(e) => (before, Some(e))
    case Success(remaining) =>
      var termSet := before.(remainingTerm := remaining);
      match Rate(req, types, table)
      case Failure(e) => (termSet, Some(e))
      case Success(rate) =>
        var rateSet := termSet.(rate := rate);
        match MaximumTerm(req, types, table)
        case Failure(e) => (rateSet, Some(e))
        case Success(maximum) =>
          var clamped := rateSet.(maximumTerm := maximum, monthlyTerm := ClampTerm(req.monthlyTerm, maximum));
          if !PmtDomain(rate / 12.0, clamped.monthlyTerm) then (clamped, Some(PmtOutOfDomain))
          else (clamped.(monthlyPayment := RoundCents(pmt(rate / 12.0, clamped.monthlyTerm, -req.loanAmount))), None)
  }

  /** The steps of `save` end without error exactly when the calculation
      succeeds, then with its figures whatever the fields held before; a failure
      is the calculation's failure. */
  lemma SaveStepsAgreesWithCalculate(req: Request, before: Figures, types: seq<AdditionType>, table: seq<Row>,
                                     nper: (real, real, real) -> real, pmt: (real, real, real) -> real)
    requires before.monthlyTerm == req.monthlyTerm
    ensures var (after, err) := SaveSteps(req, before, types, table, nper, pmt);
            Calculate(req, before.remainingTerm, types, table, nper, pmt)
            == if err.None? then Success(after) else Failure(err.value)
  {
  }

  /** A `save` that fails keeps what the steps before the failing one assigned:
      each field holds its step's result when that step and all before it
      succeeded, and its earlier value otherwise; the payment changes only on
      success. */
  lemma SaveStepsKeepsEarlierFields(req: Request, before: Figures, types: seq<AdditionType>, table: seq<Row>,
                                    nper: (real, real, real) -> real, pmt: (real, real, real) -> real)
    requires before.monthlyTerm == req.monthlyTerm
    ensures var (after, err) := SaveSteps(req, before, types, table, nper, pmt);
            var termOk := RemainingTerm(req, before.remainingTerm, nper).Success?;
            var rateOk := termOk && Rate(req, types, table).Success?;
            var maximumOk := rateOk && MaximumTerm(req, types, table).Success?;
            after.remainingTerm
              == (if termOk then RemainingTerm(req, before.remainingTerm, nper).value else before.remainingTerm) &&
            after.rate == (if rateOk then Rate(req, types, table).value else before.rate) &&
            after.maximumTerm == (if maximumOk then MaximumTerm(req, types, table).value else before.maximumTerm) &&
            after.monthlyTerm
              == (if maximumOk then ClampTerm(req.monthlyTerm, MaximumTerm(req, types, table).value)
                  else req.monthlyTerm) &&
            (err.Some? ==> after.monthlyPayment == before.monthlyPayment)
  {
  }

  lemma {:induction false} RateIgnoresTerm(req: Request, term: real, types: seq<AdditionType>, table: seq<Row>)
    ensures Rate(req.(monthlyTerm := term), types, table) == Rate(req, types, table)
    decreases |types|
  {
    if types != [] {
      RateIgnoresTerm(req, term, types[..|types| - 1], table);
    }
  }

  lemma {:induction false} MaximumTermTypesIgnoreTerm(req: Request, term: real, types: seq<AdditionType>)
    ensures MaximumTermTypes(req.(monthlyTerm := term), types) == MaximumTermTypes(req, types)
    decreases |types|
  {
    if types != [] {
      MaximumTermTypesIgnoreTerm(req, term, types[1..]);
    }
  }

  // ---------------------------------------------------------------------------
  // The calculation record

  /** A `LoanCalculation`: the user's inputs and the fields `save` fills in. */
  class LoanCalculation {
    var loanCompany: string
    var loanType: string
    var currentLoanBalance: Option<real>
    var currentLoanMonthlyPayment: Option<real>
    var currentLoanRate: Option<real>
    var currentLoanEstimatedRemainingTerm: Option<int>
    var estimatedCreditScore: Option<int>
    var estimatedCollateralValue: Option<real>
    var estimatedMonthlyIncome: Option<real>
    var estimatedMonthlyExpenses: Option<real>
    var estimatedYearOfCollateral: Option<int>
    var loanAmount: real
    var monthlyTerm: real
    var maximumTerm: real
    var rate: real
    var monthlyPayment: real

    /** The user-entered fields as a value. */
    function AsRequest(): Request
      reads this`loanCompany, this`loanType, this`currentLoanBalance, this`currentLoanMonthlyPayment,
            this`currentLoanRate, this`estimatedCreditScore, this`estimatedCollateralValue,
            this`estimatedMonthlyIncome, this`estimatedMonthlyExpenses, this`estimatedYearOfCollateral,
            this`loanAmount, this`monthlyTerm
    {
      Request(loanCompany, loanType, currentLoanBalance, currentLoanMonthlyPayment, currentLoanRate,
              estimatedCreditScore, estimatedCollateralValue, estimatedMonthlyIncome,
              estimatedMonthlyExpenses, estimatedYearOfCollateral, loanAmount, monthlyTerm)
    }

    /** A calculation holding the user's inputs; the computed fields start at zero. */
    constructor (req: Request)
      ensures AsRequest() == req
      ensures currentLoanEstimatedRemainingTerm == None
      ensures maximumTerm == 0.0 && rate == 0.0 && monthlyPayment == 0.0
    {
      loanCompany, loanType := req.company, req.loanType;
      currentLoanBalance, currentLoanMonthlyPayment := req.currentLoanBalance, req.currentLoanMonthlyPayment;
      currentLoanRate, currentLoanEstimatedRemainingTerm := req.currentLoanRate, None;
      estimatedCreditScore := req.estimatedCreditScore;
      estimatedCollateralValue := req.estimatedCollateralValue;
      estimatedMonthlyIncome, estimatedMonthlyExpenses := req.estimatedMonthlyIncome, req.estimatedMonthlyExpenses;
      estimatedYearOfCollateral := req.estimatedYearOfCollateral;
      loanAmount, monthlyTerm := req.loanAmount, req.monthlyTerm;
      maximumTerm, rate, monthlyPayment := 0.0, 0.0, 0.0;
    }

    /** A new calculation with the model's field defaults: credit score 850,
        collateral value 1000.00, income and expenses from the settings, the
        current year as the collateral's year, and a 60-month term. */
    constructor WithDefaults(company: string, loanType: string, loanAmount: real,
                             defaultIncome: real, defaultExpenses: real, currentYear: int)
      ensures AsRequest() == Request(company, loanType, None, None, None, Some(DefaultCreditScore),
                                     Some(DefaultCollateralValue), Some(defaultIncome), Some(defaultExpenses),
                                     Some(currentYear), loanAmount, DefaultMonthlyTerm)
      ensures currentLoanEstimatedRemainingTerm == None
      ensures maximumTerm == 0.0 && rate == 0.0 && monthlyPayment == 0.0
    {
      this.loanCompany, this.loanType := company, loanType;
      currentLoanBalance, currentLoanMonthlyPayment, currentLoanRate := None, None, None;
      currentLoanEstimatedRemainingTerm := None;
      estimatedCreditScore := Some(DefaultCreditScore);
      estimatedCollateralValue := Some(DefaultCollateralValue);
      estimatedMonthlyIncome, estimatedMonthlyExpenses := Some(defaultIncome), Some(defaultExpenses);
      estimatedYearOfCollateral := Some(currentYear);
      this.loanAmount, monthlyTerm := loanAmount, DefaultMonthlyTerm;
      maximumTerm, rate, monthlyPayment := 0.0, 0.0, 0.0;
    }

    /** `get_addition`: clamp the two query coordinates, one axis at a time, to
        the scope's maxima, then take the first covering row. A blank
        coordinate raises at its comparison. */
    method GetAddition(valueType: string, creditScore: Option<int>, valueIndex: real, table: seq<Row>)
      returns (r: Result<real, CalcError>)
      ensures r == AdditionLookup(table, loanCompany, loanType, valueType, creditScore, valueIndex)
    {
      var cs := match creditScore case Some(c) => Some(c as real) case None => None;
      var indices := map[CreditScore := cs, ValueIndex := Some(valueIndex)];
      var axes := [CreditScore, ValueIndex];
      var scoped := Scope(table, loanCompany, loanType, valueType);
      for i := 0 to |axes|
        invariant indices.Keys == {CreditScore, ValueIndex}
        invariant i > 0 ==> scoped != [] && creditScore.Some? &&
                            indices[CreditScore] == Some(ClampedCreditScore(scoped, creditScore.value))
        invariant i == 0 ==> indices[CreditScore] == cs
        invariant i <= 1 ==> indices[ValueIndex] == Some(valueIndex)
        invariant i == 2 ==> indices[ValueIndex] == Some(ClampedValueIndex(scoped, valueIndex))
      {
        if scoped == [] {
          return Failure(LookupFailed(EmptyScope));
        }
        var axis := axes[i];
        var maxValue := MaxThreshold(scoped, axis);
        match indices[axis] {
          case None =>
            return Failure(MissingInput);
          case Some(x) =>
            if x > maxValue as real {
              indices := indices[axis := Some(maxValue as real)];
            }
        }
      }
      if scoped == [] {
        return Failure(LookupFailed(EmptyScope));
      }
      // The integer columns' filters compare with `int()` of the clamped values.
      var covering := Covering(scoped, Truncate(indices[CreditScore].value), Truncate(indices[ValueIndex].value));
      if covering == [] {
        return Failure(LookupFailed(NoCoveringRow));
      }
      r := Success(covering[FirstInOrder(covering)].value);
    }

    /** `calculate_current_loan_estimated_remaining_term`. */
    method CalculateCurrentLoanEstimatedRemainingTerm(nper: (real, real, real) -> real)
      returns (err: Option<CalcError>)
      modifies this`currentLoanEstimatedRemainingTerm
      ensures RemainingTerm(old(AsRequest()), old(currentLoanEstimatedRemainingTerm), nper)
              == if err.None? then Success(currentLoanEstimatedRemainingTerm) else Failure(err.value)
      ensures err.Some? ==> currentLoanEstimatedRemainingTerm == old(currentLoanEstimatedRemainingTerm)
    {
      err := None;
      if Truthy(currentLoanBalance) && Truthy(currentLoanMonthlyPayment) && Truthy(currentLoanRate) {
        var r := currentLoanRate.value / 12.0;
        var pmt := -currentLoanMonthlyPayment.value;
        var pv := currentLoanBalance.value;
        if !NperDomain(r, pmt, pv) {
          return Some(NperOutOfDomain);
        }
        currentLoanEstimatedRemainingTerm := Some(RoundHalfEven(nper(r, pmt, pv)));
      }
    }

    /** `calculate_rate`: accumulate the additions of the counting types. */
    method CalculateRate(types: seq<AdditionType>, table: seq<Row>) returns (err: Option<CalcError>)
      modifies this`rate
      ensures Rate(old(AsRequest()), types, table) == if err.None? then Success(rate) else Failure(err.value)
      ensures err.Some? ==> rate == old(rate)
    {
      var req := AsRequest();
      var total := 0.0;
      for i := 0 to |types|
        invariant Rate(req, types[..i], table) == Success(total)
        invariant rate == old(rate)
      {
        var t := types[i];
        assert types[..i + 1][..i] == types[..i];
        if CountsInRate(req, t) {
          var vi := GetValueIndex(req, t.strategy);
          if vi.Failure? {
            assert Rate(req, types[..i + 1], table) == Failure(vi.error);
            RateFailurePersists(req, types, i + 1, table);
            return Some(vi.error);
          }
          var a := GetAddition(t.name, estimatedCreditScore, vi.value, table);
          if a.Failure? {
            assert Rate(req, types[..i + 1], table) == Failure(a.error);
            RateFailurePersists(req, types, i + 1, table);
            return Some(a.error);
          }
          total := total + a.value;
        }
      }
      assert types[..|types|] == types;
      rate := total;
      err := None;
    }

    /** `calculate_maximum_term`. */
    method CalculateMaximumTerm(types: seq<AdditionType>, table: seq<Row>) returns (err: Option<CalcError>)
      modifies this`maximumTerm
      ensures MaximumTerm(old(AsRequest()), types, table) == if err.None? then Success(maximumTerm) else Failure(err.value)
      ensures err.Some? ==> maximumTerm == old(maximumTerm)
    {
      var req := AsRequest();
      var matches := MaximumTermTypes(req, types);
      if |matches| == 0 {
        return Some(NoSuchAdditionType);
      }
      if |matches| > 1 {
        return Some(SeveralAdditionTypes);
      }
      var valueType := matches[0];
      var vi := GetValueIndex(req, valueType.strategy);
      if vi.Failure? {
        return Some(vi.error);
      }
      var a := GetAddition(valueType.name, estimatedCreditScore, vi.value, table);
      if a.Failure? {
        return Some(a.error);
      }
      maximumTerm := a.value;
      err := None;
    }

    /** `calculate_monthly_payment`: `pmt` over the monthly rate, rounded to
        cents; outside the domain of `pmt` it fails and the payment stays. */
    method CalculateMonthlyPayment(pmt: (real, real, real) -> real) returns (err: Option<CalcError>)
      modifies this`monthlyPayment
      ensures err.None? <==> PmtDomain(rate / 12.0, monthlyTerm)
      ensures err.Some? ==> err == Some(PmtOutOfDomain) && monthlyPayment == old(monthlyPayment)
      ensures err.None? ==> monthlyPayment == old(RoundCents(pmt(rate / 12.0, monthlyTerm, -loanAmount)))
    {
      if !PmtDomain(rate / 12.0, monthlyTerm) {
        return Some(PmtOutOfDomain);
      }
      monthlyPayment := RoundCents(pmt(rate / 12.0, monthlyTerm, -loanAmount));
      err := None;
    }

    /** The term clamp in `save`: a term above the maximum term is lowered to it. */
    method ClampMonthlyTerm()
      modifies this`monthlyTerm
      ensures monthlyTerm == ClampTerm(old(monthlyTerm), maximumTerm)
    {
      if maximumTerm < monthlyTerm {
        monthlyTerm := maximumTerm;
      }
    }

    /** The five fields `save` writes, as a value. */
    function Computed(): Figures
      reads this`currentLoanEstimatedRemainingTerm, this`rate, this`maximumTerm, this`monthlyTerm,
            this`monthlyPayment
    {
      Figures(currentLoanEstimatedRemainingTerm, rate, maximumTerm, monthlyTerm, monthlyPayment)
    }

    /** The computed part of `save`; a failing step stops it, keeping what the
        steps before it assigned. */
    method Save(types: seq<AdditionType>, table: seq<Row>,
                nper: (real, real, real) -> real, pmt: (real, real, real) -> real)
      returns (err: Option<CalcError>)
      modifies this`currentLoanEstimatedRemainingTerm, this`rate, this`maximumTerm, this`monthlyTerm,
               this`monthlyPayment
      ensures (Computed(), err) == SaveSteps(old(AsRequest()), old(Computed()), types, table, nper, pmt)
      ensures Calculate(old(AsRequest()), old(currentLoanEstimatedRemainingTerm), types, table, nper, pmt)
              == if err.None? then Success(Computed()) else Failure(err.value)
    {
      SaveStepsAgreesWithCalculate(AsRequest(), Computed(), types, table, nper, pmt);
      err := CalculateCurrentLoanEstimatedRemainingTerm(nper);
      if err.Some? {
        return;
      }
      err := CalculateRate(types, table);
      if err.Some? {
        return;
      }
      err := CalculateMaximumTerm(types, table);
      if err.Some? {
        return;
      }
      ClampMonthlyTerm();
      err := CalculateMonthlyPayment(pmt);
    }

    // -------------------------------------------------------------------------
    // Derived figures

    /** `estimated_monthly_savings`: what the new payment saves on the current
        one, when a current payment is given. */
    function EstimatedMonthlySavings(): (s: Option<real>)
      reads this
      ensures s.Some? <==> Truthy(currentLoanMonthlyPayment)
      ensures s.Some? ==> monthlyPayment + s.value == currentLoanMonthlyPayment.value
    {
      if Truthy(currentLoanMonthlyPayment) then Some(currentLoanMonthlyPayment.value - monthlyPayment) else None
    }

    /** `estimated_yearly_savings`: twelve months of savings. */
    function EstimatedYearlySavings(): (s: Option<real>)
      reads this
      ensures s.Some? <==> Truthy(currentLoanMonthlyPayment)
      ensures s.Some? ==> s.value == 12.0 * (currentLoanMonthlyPayment.value - monthlyPayment)
    {
      match EstimatedMonthlySavings()
      case Some(m) => Some(m * 12.0)
      case None => None
    }

    /** `current_loan_remaining_interest`: the remaining payments of the current
        loan minus its balance; a missing remaining term fails. */
    function CurrentLoanRemainingInterest(): (r: Result<Option<real>, CalcError>)
      reads this
      ensures r == Success(None) <==> !(Truthy(currentLoanBalance) && Truthy(currentLoanMonthlyPayment))
      ensures r.Failure? <==> Truthy(currentLoanBalance) && Truthy(currentLoanMonthlyPayment)
                              && currentLoanEstimatedRemainingTerm.None?
      ensures r.Success? && r.value.Some? ==>
                r.value.value + currentLoanBalance.value
                == currentLoanMonthlyPayment.value * currentLoanEstimatedRemainingTerm.value as real
    {
      if Truthy(currentLoanBalance) && Truthy(currentLoanMonthlyPayment) then
        match currentLoanEstimatedRemainingTerm
        case None => Failure(MissingInput)
        case Some(term) =>
          Success(Some(-(currentLoanBalance.value - currentLoanMonthlyPayment.value * term as real)))
      else Success(None)
    }

    /** `loan_interest`: the payments of the new loan minus the amount borrowed. */
    function LoanInterest(): (i: real)
      reads this
      ensures i + loanAmount == monthlyPayment * monthlyTerm
    {
      -(loanAmount - monthlyPayment * monthlyTerm)
    }

    /** `interest_savings`: the current loan's remaining interest minus the new
        loan's interest, when the former is known and non-zero. */
    function InterestSavings(): (r: Result<Option<real>, CalcError>)
      reads this
      ensures r.Failure? <==> CurrentLoanRemainingInterest().Failure?
      ensures r.Success? ==>
                (r.value.Some? <==> Truthy(CurrentLoanRemainingInterest().value))
      ensures r.Success? && r.value.Some? ==>
                r.value.value
                == (currentLoanMonthlyPayment.value * currentLoanEstimatedRemainingTerm.value as real
                    - currentLoanBalance.value)
                   - (monthlyPayment * monthlyTerm - loanAmount)
    {
      var remaining :- CurrentLoanRemainingInterest();
      if Truthy(remaining) then Success(Some(remaining.value - LoanInterest())) else Success(None)
    }
  }

  /** A failure in the first `k` types is the failure of the whole sequence. */
  lemma {:induction false} RateFailurePersists(req: Request, types: seq<AdditionType>, k: nat, table: seq<Row>)
    requires k <= |types|
    requires Rate(req, types[..k], table).Failure?
    ensures Rate(req, types, table) == Rate(req, types[..k], table)
    decreases |types| - k
  {
    if k < |types| {
      assert types[..k + 1][..k] == types[..k];
      RateFailurePersists(req, types, k + 1, table);
    } else {
      assert types[..k] == types;
    }
  }
}
