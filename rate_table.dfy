/**
 * The rate table: `LoanAddition` rows and the clamp-then-filter lookup that
 * `LoanCalculation.get_addition` performs over them.
 *
 * The table is an in-memory sequence of rows. A row belongs to one scope, the
 * triple (loan company, loan type, addition type), and is addressed inside it
 * by two integer thresholds: the minimum credit score and the value index.
 */
module RateTable {
  import opened Wrappers

  /** One `LoanAddition`: company title, loan type name, addition type name,
      the two thresholds and the addition value. */
  datatype Row = Row(
    company: string,
    loanType: string,
    valueType: string,
    creditScore: int,
    valueIndex: int,
    value: real)

  /** The two lookup axes, in the order `get_addition` clamps them. */
  datatype Axis = CreditScore | ValueIndex

  /** Why a lookup fails: the scope holds no row (no maximum exists), or no
      row dominates the clamped query (the scope is not a full grid). */
  datatype LookupError = EmptyScope | NoCoveringRow

  function Threshold(r: Row, axis: Axis): int {
    match axis
    case CreditScore => r.creditScore
    case ValueIndex => r.valueIndex
  }

  predicate InScope(r: Row, company: string, loanType: string, valueType: string) {
    r.company == company && r.loanType == loanType && r.valueType == valueType
  }

  /** The rows of one (company, loan type, addition type) scope, in table order. */
  function Scope(table: seq<Row>, company: string, loanType: string, valueType: string): (s: seq<Row>)
    ensures |s| <= |table|
  {
    if table == [] then []
    else if InScope(table[0], company, loanType, valueType) then
      [table[0]] + Scope(table[1..], company, loanType, valueType)
    else
      Scope(table[1..], company, loanType, valueType)
  }

  /** The scope holds exactly the table's rows of that scope. */
  lemma {:induction false} ScopeMembers(table: seq<Row>, company: string, loanType: string, valueType: string)
    ensures forall r :: r in Scope(table, company, loanType, valueType)
                        <==> r in table && InScope(r, company, loanType, valueType)
    decreases |table|
  {
    if table != [] {
      ScopeMembers(table[1..], company, loanType, valueType);
      assert forall r :: r in table <==> r == table[0] || r in table[1..];
    }
  }

  /** The `Max` aggregate of one threshold over a non-empty set of rows. */
  function MaxThreshold(rows: seq<Row>, axis: Axis): int
    requires rows != []
  {
    if |rows| == 1 then Threshold(rows[0], axis)
    else
      var rest := MaxThreshold(rows[1..], axis);
      if Threshold(rows[0], axis) > rest then Threshold(rows[0], axis) else rest
  }

  /** `MaxThreshold` bounds every row and is attained by one. */
  lemma {:induction false} MaxThresholdIsMaximum(rows: seq<Row>, axis: Axis)
    requires rows != []
    ensures forall r :: r in rows ==> Threshold(r, axis) <= MaxThreshold(rows, axis)
    ensures exists r :: r in rows && Threshold(r, axis) == MaxThreshold(rows, axis)
    decreases |rows|
  {
    if |rows| == 1 {
      assert rows[0] in rows;
    } else {
      MaxThresholdIsMaximum(rows[1..], axis);
      assert forall r :: r in rows ==> r == rows[0] || r in rows[1..];
      if Threshold(rows[0], axis) > MaxThreshold(rows[1..], axis) {
        assert rows[0] in rows;
      } else {
        var w :| w in rows[1..] && Threshold(w, axis) == MaxThreshold(rows[1..], axis);
        assert w in rows;
      }
    }
  }

  /** Lowers a query coordinate to the largest threshold present. */
  function Clamp(x: real, bound: int): (c: real)
    ensures c <= bound as real
    ensures x <= bound as real ==> c == x
    ensures x > bound as real ==> c == bound as real
  {
    if x > bound as real then bound as real else x
  }

  /** Python's `int()` on a number: the integer part, truncated toward zero.
      The `__gte` filters on the integer columns convert their `Decimal` query
      value this way before comparing. */
  function Truncate(x: real): (n: int)
    ensures 0.0 <= x ==> n as real <= x < n as real + 1.0
    ensures x < 0.0 ==> n as real - 1.0 < x <= n as real
  {
    if x >= 0.0 then x.Floor else -((-x).Floor)
  }

  /** A row covers a query when it dominates it on both (integer) axes. */
  predicate Covers(r: Row, creditScore: int, valueIndex: int) {
    r.creditScore >= creditScore && r.valueIndex >= valueIndex
  }

  /** The rows that cover a query, in table order. */
  function Covering(rows: seq<Row>, creditScore: int, valueIndex: int): seq<Row>
  {
    if rows == [] then []
    else if Covers(rows[0], creditScore, valueIndex) then
      [rows[0]] + Covering(rows[1..], creditScore, valueIndex)
    else
      Covering(rows[1..], creditScore, valueIndex)
  }

  /** The covering rows are exactly the rows that cover the query. */
  lemma {:induction false} CoveringMembers(rows: seq<Row>, creditScore: int, valueIndex: int)
    ensures forall r :: r in Covering(rows, creditScore, valueIndex)
                        <==> r in rows && Covers(r, creditScore, valueIndex)
    decreases |rows|
  {
    if rows != [] {
      CoveringMembers(rows[1..], creditScore, valueIndex);
      assert forall r :: r in rows <==> r == rows[0] || r in rows[1..];
    }
  }

  /** The canonical ordering restricted to one scope: by credit score, then by
      value index (company, loan type and addition type are equal there). */
  predicate KeyLess(a: Row, b: Row) {
    a.creditScore < b.creditScore || (a.creditScore == b.creditScore && a.valueIndex < b.valueIndex)
  }

  /** The position of the first row in canonical order. */
  function FirstInOrder(rows: seq<Row>): (i: nat)
    requires rows != []
    ensures i < |rows|
  {
    if |rows| == 1 then 0
    else
      var k := FirstInOrder(rows[1..]) + 1;
      if KeyLess(rows[k], rows[0]) then k else 0
  }

  /** No row sorts before the chosen one, and it sorts strictly before every row
      that precedes it in the table (equal keys keep table order). */
  lemma {:induction false} FirstInOrderIsFirst(rows: seq<Row>)
    requires rows != []
    ensures forall j :: 0 <= j < |rows| ==> !KeyLess(rows[j], rows[FirstInOrder(rows)])
    ensures forall j :: 0 <= j < FirstInOrder(rows) ==> KeyLess(rows[FirstInOrder(rows)], rows[j])
    decreases |rows|
  {
    if |rows| > 1 {
      FirstInOrderIsFirst(rows[1..]);
    }
  }

  /** The query point after both coordinates are clamped to the scope's maxima. */
  function ClampedCreditScore(scoped: seq<Row>, creditScore: int): real
    requires scoped != []
  {
    Clamp(creditScore as real, MaxThreshold(scoped, CreditScore))
  }

  function ClampedValueIndex(scoped: seq<Row>, valueIndex: real): real
    requires scoped != []
  {
    Clamp(valueIndex, MaxThreshold(scoped, ValueIndex))
  }

  /** The bounds the `credit_score__gte` and `value_index__gte` filters compare
      with: the clamped coordinates, converted to the columns' integer type. */
  function CreditScoreBound(scoped: seq<Row>, creditScore: int): int
    requires scoped != []
  {
    Truncate(ClampedCreditScore(scoped, creditScore))
  }

  function ValueIndexBound(scoped: seq<Row>, valueIndex: real): int
    requires scoped != []
  {
    Truncate(ClampedValueIndex(scoped, valueIndex))
  }

  /** What `get_addition` returns: the value of the first row, in canonical
      order, of the scope rows that cover the clamped query's integer bounds. */
  function Lookup(table: seq<Row>, company: string, loanType: string, valueType: string,
                  creditScore: int, valueIndex: real): Result<real, LookupError>
  {
    var scoped := Scope(table, company, loanType, valueType);
    if scoped == [] then Failure(EmptyScope)
    else
      var covering := Covering(scoped, CreditScoreBound(scoped, creditScore),
                               ValueIndexBound(scoped, valueIndex));
      if covering == [] then Failure(NoCoveringRow)
      else Success(covering[FirstInOrder(covering)].value)
  }

  /** The scope holds a row with both the largest credit score and the largest
      value index: a full grid has one. */
  ghost predicate HasCorner(scoped: seq<Row>)
    requires scoped != []
  {
    exists r :: r in scoped && r.creditScore == MaxThreshold(scoped, CreditScore)
                            && r.valueIndex == MaxThreshold(scoped, ValueIndex)
  }

  /** A credit score above every threshold of the scope gives the same value as
      the largest threshold itself. */
  lemma LookupClampsCreditScore(table: seq<Row>, company: string, loanType: string, valueType: string,
                                creditScore: int, valueIndex: real)
    requires Scope(table, company, loanType, valueType) != []
    requires creditScore >= MaxThreshold(Scope(table, company, loanType, valueType), CreditScore)
    ensures Lookup(table, company, loanType, valueType, creditScore, valueIndex)
         == Lookup(table, company, loanType, valueType,
                   MaxThreshold(Scope(table, company, loanType, valueType), CreditScore), valueIndex)
  {
  }

  /** A value index above every threshold of the scope gives the same value as
      the largest threshold itself. */
  lemma LookupClampsValueIndex(table: seq<Row>, company: string, loanType: string, valueType: string,
                               creditScore: int, valueIndex: real)
    requires Scope(table, company, loanType, valueType) != []
    requires valueIndex >= MaxThreshold(Scope(table, company, loanType, valueType), ValueIndex) as real
    ensures Lookup(table, company, loanType, valueType, creditScore, valueIndex)
         == Lookup(table, company, loanType, valueType, creditScore,
                   MaxThreshold(Scope(table, company, loanType, valueType), ValueIndex) as real)
  {
  }

  /** A successful lookup returns the value of a row of the queried scope that
      covers the clamped query, and no covering row of the scope sorts before it. */
  lemma LookupFindsTightestRow(table: seq<Row>, company: string, loanType: string, valueType: string,
                               creditScore: int, valueIndex: real, value: real)
    requires Lookup(table, company, loanType, valueType, creditScore, valueIndex) == Success(value)
    ensures var scoped := Scope(table, company, loanType, valueType);
            scoped != [] &&
            var cs := CreditScoreBound(scoped, creditScore);
            var vi := ValueIndexBound(scoped, valueIndex);
            exists row :: row in table && InScope(row, company, loanType, valueType) &&
                          Covers(row, cs, vi) && row.value == value &&
                          forall other :: (other in table && InScope(other, company, loanType, valueType) &&
                                           Covers(other, cs, vi)) ==> !KeyLess(other, row)
  {
    var scoped := Scope(table, company, loanType, valueType);
    var cs := CreditScoreBound(scoped, creditScore);
    var vi := ValueIndexBound(scoped, valueIndex);
    var covering := Covering(scoped, cs, vi);
    ScopeMembers(table, company, loanType, valueType);
    CoveringMembers(scoped, cs, vi);
    FirstInOrderIsFirst(covering);
    var i := FirstInOrder(covering);
    var row := covering[i];
    assert row in covering;
    forall other | other in table && InScope(other, company, loanType, valueType) && Covers(other, cs, vi)
      ensures !KeyLess(other, row)
    {
      assert other in covering;
      var j :| 0 <= j < |covering| && covering[j] == other;
    }
  }

  /** The two ways a lookup fails: an empty scope, and a scope in which no row
      covers the clamped query. */
  lemma LookupFailures(table: seq<Row>, company: string, loanType: string, valueType: string,
                       creditScore: int, valueIndex: real)
    ensures Lookup(table, company, loanType, valueType, creditScore, valueIndex) == Failure(EmptyScope)
        <==> Scope(table, company, loanType, valueType) == []
    ensures Lookup(table, company, loanType, valueType, creditScore, valueIndex) == Failure(NoCoveringRow)
        <==> var scoped := Scope(table, company, loanType, valueType);
             scoped != [] &&
             forall r :: r in scoped ==> !Covers(r, CreditScoreBound(scoped, creditScore),
                                                   ValueIndexBound(scoped, valueIndex))
  {
    var scoped := Scope(table, company, loanType, valueType);
    if scoped != [] {
      var covering := Covering(scoped, CreditScoreBound(scoped, creditScore),
                               ValueIndexBound(scoped, valueIndex));
      CoveringMembers(scoped, CreditScoreBound(scoped, creditScore), ValueIndexBound(scoped, valueIndex));
      if covering != [] {
        assert covering[0] in covering;
      }
    }
  }

  /** A scope that holds its own corner row answers every query. */
  lemma CornerGuaranteesLookup(table: seq<Row>, company: string, loanType: string, valueType: string,
                               creditScore: int, valueIndex: real)
    requires Scope(table, company, loanType, valueType) != []
    requires HasCorner(Scope(table, company, loanType, valueType))
    ensures Lookup(table, company, loanType, valueType, creditScore, valueIndex).Success?
  {
    var scoped := Scope(table, company, loanType, valueType);
    var corner :| corner in scoped && corner.creditScore == MaxThreshold(scoped, CreditScore)
                                   && corner.valueIndex == MaxThreshold(scoped, ValueIndex);
    var covering := Covering(scoped, CreditScoreBound(scoped, creditScore),
                             ValueIndexBound(scoped, valueIndex));
    CoveringMembers(scoped, CreditScoreBound(scoped, creditScore), ValueIndexBound(scoped, valueIndex));
    MaxThresholdIsMaximum(scoped, CreditScore);
    MaxThresholdIsMaximum(scoped, ValueIndex);
    assert corner in covering;
  }

  /** A scope without a corner row fails the query at its own maxima: the
      corner row is exactly what a query there needs. */
  lemma LookupAtMaximaNeedsCorner(table: seq<Row>, company: string, loanType: string, valueType: string)
    requires Scope(table, company, loanType, valueType) != []
    requires !HasCorner(Scope(table, company, loanType, valueType))
    ensures var scoped := Scope(table, company, loanType, valueType);
            Lookup(table, company, loanType, valueType, MaxThreshold(scoped, CreditScore),
                   MaxThreshold(scoped, ValueIndex) as real) == Failure(NoCoveringRow)
  {
    var scoped := Scope(table, company, loanType, valueType);
    var cs := MaxThreshold(scoped, CreditScore);
    var vi := MaxThreshold(scoped, ValueIndex);
    MaxThresholdIsMaximum(scoped, CreditScore);
    MaxThresholdIsMaximum(scoped, ValueIndex);
    assert CreditScoreBound(scoped, cs) == cs;
    assert ValueIndexBound(scoped, vi as real) == vi;
    LookupFailures(table, company, loanType, valueType, cs, vi as real);
  }

  /** A non-empty scope answers the query at its maxima exactly when it holds
      its corner row. */
  lemma CornerIffLookupAtMaxima(table: seq<Row>, company: string, loanType: string, valueType: string)
    requires Scope(table, company, loanType, valueType) != []
    ensures var scoped := Scope(table, company, loanType, valueType);
            HasCorner(scoped) <==>
            Lookup(table, company, loanType, valueType, MaxThreshold(scoped, CreditScore),
                   MaxThreshold(scoped, ValueIndex) as real).Success?
  {
    var scoped := Scope(table, company, loanType, valueType);
    if HasCorner(scoped) {
      CornerGuaranteesLookup(table, company, loanType, valueType, MaxThreshold(scoped, CreditScore),
                             MaxThreshold(scoped, ValueIndex) as real);
    } else {
      LookupAtMaximaNeedsCorner(table, company, loanType, valueType);
    }
  }

  /** Truncation and the clamp to an integer maximum commute. */
  lemma TruncateClamp(x: real, bound: int)
    ensures Truncate(Clamp(x, bound)) == Truncate(Clamp(Truncate(x) as real, bound))
  {
  }

  /** Only the integer part of the value index matters to a lookup. */
  lemma LookupTruncatesValueIndex(table: seq<Row>, company: string, loanType: string, valueType: string,
                                  creditScore: int, valueIndex: real)
    ensures Lookup(table, company, loanType, valueType, creditScore, valueIndex)
         == Lookup(table, company, loanType, valueType, creditScore, Truncate(valueIndex) as real)
  {
    var scoped := Scope(table, company, loanType, valueType);
    if scoped != [] {
      TruncateClamp(valueIndex, MaxThreshold(scoped, ValueIndex));
    }
  }

  /** A fractional index is compared by its integer part: at a loan-to-value of
      80.5 the row with threshold 80 answers, not the one with 90. */
  lemma FractionalIndexMatchesItsIntegerPart()
    ensures var table := [Row("c", "l", "v", 700, 80, 1.0), Row("c", "l", "v", 700, 90, 2.0)];
            Lookup(table, "c", "l", "v", 700, 80.5) == Success(1.0)
  {
    var table := [Row("c", "l", "v", 700, 80, 1.0), Row("c", "l", "v", 700, 90, 2.0)];
    assert Scope(table, "c", "l", "v") == table;
    assert MaxThreshold(table, ValueIndex) == 90;
    assert ValueIndexBound(table, 80.5) == 80;
    assert Covering(table, 700, 80) == table;
  }
}
