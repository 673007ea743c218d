/** Invoice lines and invoice totals (billing-money.service.ts and createRecord of
    invoices.service.ts). */
module InvoiceAmounts {
  import opened Decimals

  /** A decimal before rounding, as decimal.js keeps it: a sign and a magnitude num / den.
      Zero exists with both signs. */
  datatype Decimal = Decimal(negative: bool, num: nat, den: nat)

  type Input = d: Decimal | d.den > 0 witness Decimal(false, 0, 1)

  /** toDecimalPlaces: the magnitude is rounded, the sign is kept even when nothing is left. */
  function ToPlaces(v: Input, unit: nat): (m: nat)
    requires unit > 0
    ensures -(v.den as int) < 2 * (m * v.den - v.num * unit) <= v.den
  {
    RoundMagnitude(v.num * unit, v.den)
  }

  function Signed(v: Input, unit: nat): int
    requires unit > 0
  {
    if v.negative then -(ToPlaces(v, unit) as int) else ToPlaces(v, unit)
  }

  datatype Result<+T> = Ok(value: T) | Rejected(reason: Reason)

  datatype Reason =
    | NegativeAmount | NotPositive | QuantityNotPositive | DiscountExceedsGross
    | LineTotalNegative | InvoiceTotalNegative

  /** requireNonNegative looks at the sign, so it also refuses negative zero. */
  function RequireNonNegative(v: Input): (r: Result<Cents>)
    ensures r.Ok? ==> r.value >= 0
  {
    if v.negative then Rejected(NegativeAmount) else Ok(ToPlaces(v, 100))
  }

  /** requirePositive looks at the sign, so it lets positive zero through. */
  function RequirePositive(v: Input): (r: Result<Cents>)
    ensures r.Ok? ==> r.value >= 0
  {
    if v.negative then Rejected(NotPositive) else Ok(ToPlaces(v, 100))
  }

  /** Despite its message, requirePositive does not guarantee a positive amount: it accepts an
      amount that rounds to zero, which is every non-negative amount below half a cent. */
  lemma PositiveCheckAdmitsZero(v: Input)
    ensures RequirePositive(v).Ok? && RequirePositive(v).value == 0 <==> !v.negative && 200 * v.num < v.den
    ensures RequirePositive(Decimal(false, 0, 1)) == Ok(0)
  {
    var m := ToPlaces(v, 100);
    if m >= 1 {
      MulStep(0, m, v.den);
    }
  }

  datatype LineInput = LineInput(quantity: Input, unitPrice: Input, discount: Input, tax: Input)

  /** quantity in thousandths, everything else in cents. */
  datatype Line = Line(quantity: int, unitPrice: Cents, gross: Cents, discount: Cents, tax: Cents, total: Cents)

  function Gross(quantity: int, unitPrice: Cents): Cents {
    RoundDiv(quantity * unitPrice, 1000)
  }

  function InvoiceLine(input: LineInput): (r: Result<Line>)
    ensures r.Ok? ==> AcceptedLine(r.value)
  {
    var quantity := Signed(input.quantity, 1000);
    match RequireNonNegative(input.unitPrice)
    case Rejected(e) => Rejected(e)
    case Ok(unitPrice) =>
      match RequireNonNegative(input.discount)
      case Rejected(e) => Rejected(e)
      case Ok(discount) =>
        match RequireNonNegative(input.tax)
        case Rejected(e) => Rejected(e)
        case Ok(tax) =>
          var gross := Gross(quantity, unitPrice);
          var total := gross - discount + tax;
          if quantity <= 0 then Rejected(QuantityNotPositive)
          else if discount > gross then Rejected(DiscountExceedsGross)
          else if total < 0 then Rejected(LineTotalNegative)
          else Ok(Line(quantity, unitPrice, gross, discount, tax, total))
  }

  /** What an accepted line satisfies. */
  ghost predicate AcceptedLine(l: Line) {
    && l.quantity > 0 && l.unitPrice >= 0 && l.tax >= 0
    && l.gross == Gross(l.quantity, l.unitPrice)
    && 0 <= l.discount <= l.gross
    && l.total == l.gross - l.discount + l.tax
  }

  /** The guard on a negative line total never fires: the discount guard comes first. */
  lemma LineTotalGuardNeverFires(input: LineInput)
    ensures InvoiceLine(input) != Rejected(LineTotalNegative)
  {
  }

  // ----- The database constraint on stored lines -----

  /** The constraint invoice_lines_amounts_valid recomputes the total from the unrounded gross:
      ROUND(quantity * unitPrice - discount + tax, 2). */
  function StoredTotal(l: Line): Cents {
    RoundDiv(l.quantity * l.unitPrice - 1000 * (l.discount - l.tax), 1000)
  }

  predicate LineConstraint(l: Line) {
    && l.quantity > 0 && l.unitPrice >= 0 && l.discount >= 0 && l.tax >= 0 && l.total >= 0
    && l.total == StoredTotal(l)
  }

  /** An accepted line passes the constraint unless the unrounded gross ends in exactly half a cent
      and the discount takes all of the rounded gross with no tax on top. */
  lemma AcceptedLinePassesConstraint(l: Line)
    requires AcceptedLine(l)
    ensures LineConstraint(l) <==>
            !((l.quantity * l.unitPrice) % 1000 == 500 && l.discount == l.gross && l.tax == 0)
  {
    var raw := l.quantity * l.unitPrice;
    assert raw >= 0;
    GrossTie(raw);
    RoundShifted(raw, l.gross, l.tax - l.discount);
  }

  lemma GrossTie(raw: int)
    requires raw >= 0
    ensures 2 * (RoundDiv(raw, 1000) * 1000 - raw) == 1000 <==> raw % 1000 == 500
  {
  }

  /** Adding whole cents commutes with rounding, except when a tie moves below zero. */
  lemma RoundShifted(raw: int, g: int, k: int)
    requires raw >= 0 && g == RoundDiv(raw, 1000)
    ensures RoundDiv(raw + 1000 * k, 1000) == g + k <==>
            !(2 * (g * 1000 - raw) == 1000 && raw + 1000 * k < 0)
  {
    if 2 * (g * 1000 - raw) == 1000 && raw + 1000 * k < 0 {
      RoundDivUnique(raw + 1000 * k, 1000, g + k - 1);
    } else {
      RoundDivUnique(raw + 1000 * k, 1000, g + k);
    }
  }

  /** Half a unit at 0.01 with a discount of 0.01 is accepted with total 0.00, but the constraint
      computes -0.01. */
  lemma ConstraintRefusesAcceptedLine()
    ensures var half := Decimal(false, 1, 2); var cent := Decimal(false, 1, 100); var zero := Decimal(false, 0, 1);
            var r := InvoiceLine(LineInput(half, cent, cent, zero));
            r.Ok? && r.value.total == 0 && StoredTotal(r.value) == -1 && !LineConstraint(r.value)
  {
    var half := Decimal(false, 1, 2);
    var cent := Decimal(false, 1, 100);
    assert ToPlaces(half, 1000) == 500;
    assert ToPlaces(cent, 100) == 1;
    assert ToPlaces(Decimal(false, 0, 1), 100) == 0;
    assert Gross(500, 1) == 1;
  }

  // ----- createRecord -----

  datatype Amounts = Amounts(subtotal: Cents, discount: Cents, tax: Cents, total: Cents, paid: Cents, outstanding: Cents)

  datatype Record = Record(lines: seq<Line>, amounts: Amounts)

  /** Line i is rejected for this reason and every earlier line is accepted. */
  predicate FirstRejected(inputs: seq<LineInput>, i: nat, reason: Reason) {
    && i < |inputs| && InvoiceLine(inputs[i]) == Rejected(reason)
    && forall j :: 0 <= j < i ==> InvoiceLine(inputs[j]).Ok?
  }

  /** map(invoiceLine): the first rejected line rejects the invoice. */
  function CalculateLines(inputs: seq<LineInput>): (r: Result<seq<Line>>)
    ensures r.Ok? ==> |r.value| == |inputs|
    ensures r.Ok? ==> forall i :: 0 <= i < |inputs| ==> InvoiceLine(inputs[i]) == Ok(r.value[i])
    ensures r.Rejected? ==> exists i :: 0 <= i < |inputs| && FirstRejected(inputs, i, r.reason)
  {
    if inputs == [] then Ok([])
    else
      match InvoiceLine(inputs[0])
      case Rejected(e) =>
        assert FirstRejected(inputs, 0, e);
        Rejected(e)
      case Ok(line) =>
        match CalculateLines(inputs[1..])
        case Rejected(e) =>
          assert forall i :: 0 <= i < |inputs[1..]| && FirstRejected(inputs[1..], i, e) ==> FirstRejected(inputs, i + 1, e);
          Rejected(e)
        case Ok(rest) => Ok([line] + rest)
  }

  function Column(lines: seq<Line>, f: Line -> Cents): (c: seq<Cents>)
    ensures |c| == |lines|
  {
    seq(|lines|, i requires 0 <= i < |lines| => f(lines[i]))
  }

  function CreateRecord(inputs: seq<LineInput>): (r: Result<Record>)
    ensures r.Ok? ==> |r.value.lines| == |inputs|
  {
    match CalculateLines(inputs)
    case Rejected(e) => Rejected(e)
    case Ok(lines) =>
      var subtotal := Sum(Column(lines, (l: Line) => l.gross));
      var discount := Sum(Column(lines, (l: Line) => l.discount));
      var tax := Sum(Column(lines, (l: Line) => l.tax));
      var total := subtotal - discount + tax;
      if total < 0 then Rejected(InvoiceTotalNegative)
      else Ok(Record(lines, Amounts(subtotal, discount, tax, total, 0, total)))
  }

  /** The constraint invoices_amounts_valid. */
  predicate InvoiceConstraint(a: Amounts) {
    && a.subtotal >= 0 && a.discount >= 0 && a.tax >= 0 && a.total >= 0 && a.paid >= 0 && a.outstanding >= 0
    && a.discount <= a.subtotal
    && a.total == a.subtotal - a.discount + a.tax
    && a.paid + a.outstanding == a.total
  }

  lemma {:induction false} ColumnSums(lines: seq<Line>)
    requires forall i :: 0 <= i < |lines| ==> AcceptedLine(lines[i])
    ensures Sum(Column(lines, (l: Line) => l.gross)) - Sum(Column(lines, (l: Line) => l.discount))
            + Sum(Column(lines, (l: Line) => l.tax)) == Sum(Column(lines, (l: Line) => l.total))
    ensures 0 <= Sum(Column(lines, (l: Line) => l.discount)) <= Sum(Column(lines, (l: Line) => l.gross))
    ensures 0 <= Sum(Column(lines, (l: Line) => l.tax))
  {
    if lines != [] {
      ColumnSums(lines[1..]);
      ColumnTail(lines, (l: Line) => l.gross);
      ColumnTail(lines, (l: Line) => l.discount);
      ColumnTail(lines, (l: Line) => l.tax);
      ColumnTail(lines, (l: Line) => l.total);
    }
  }

  lemma ColumnTail(lines: seq<Line>, f: Line -> Cents)
    requires lines != []
    ensures Sum(Column(lines, f)) == f(lines[0]) + Sum(Column(lines[1..], f))
  {
    assert Column(lines, f)[1..] == Column(lines[1..], f);
  }

  /** An invoice is rejected only because one of its lines is.  An accepted invoice's total, built
      from the separate sums, is exactly the sum of its rounded line totals, it satisfies the
      database constraint, and nothing of it is paid. */
  lemma InvoiceTotals(inputs: seq<LineInput>)
    ensures CreateRecord(inputs) != Rejected(InvoiceTotalNegative)
    ensures CreateRecord(inputs).Ok? <==> forall i :: 0 <= i < |inputs| ==> InvoiceLine(inputs[i]).Ok?
    ensures CreateRecord(inputs).Ok? ==>
              var r := CreateRecord(inputs).value;
              && |r.lines| == |inputs|
              && r.amounts.total == Sum(Column(r.lines, (l: Line) => l.total))
              && InvoiceConstraint(r.amounts) && r.amounts.outstanding == r.amounts.total
  {
    var calculated := CalculateLines(inputs);
    if calculated.Ok? {
      forall i | 0 <= i < |calculated.value|
        ensures AcceptedLine(calculated.value[i])
      {
        assert InvoiceLine(inputs[i]) == Ok(calculated.value[i]);
      }
      ColumnSums(calculated.value);
    } else {
      var i :| 0 <= i < |inputs| && FirstRejected(inputs, i, calculated.reason);
      LineTotalGuardNeverFires(inputs[i]);
    }
  }

  // ----- What a line means in terms of its input -----

  /** m is the magnitude of v times unit, rounded to the nearest integer with ties up. */
  ghost predicate Nearest(v: Input, unit: nat, m: nat) {
    -(v.den as int) < 2 * (m * v.den - v.num * unit) <= v.den
  }

  /** There is exactly one such integer. */
  lemma NearestIsToPlaces(v: Input, unit: nat, m: nat)
    requires unit > 0 && Nearest(v, unit, m)
    ensures m == ToPlaces(v, unit)
  {
    hide RoundMagnitude;
    CloseMultiples(m, ToPlaces(v, unit), v.den);
  }

  /** The amounts of an input, rounded: quantity to thousandths, money to cents, and their product to
      cents. */
  datatype Rounded = Rounded(quantity: nat, unitPrice: nat, discount: nat, tax: nat, gross: nat)

  ghost predicate Rounds(input: LineInput, r: Rounded) {
    && Nearest(input.quantity, 1000, r.quantity) && Nearest(input.unitPrice, 100, r.unitPrice)
    && Nearest(input.discount, 100, r.discount) && Nearest(input.tax, 100, r.tax)
    && -1000 < 2 * (r.gross * 1000 - r.quantity * r.unitPrice) <= 1000
  }

  lemma EveryInputRounds(input: LineInput)
    ensures exists r :: Rounds(input, r)
  {
    var q, p := ToPlaces(input.quantity, 1000), ToPlaces(input.unitPrice, 100);
    assert q * p >= 0;
    var r := Rounded(q, p, ToPlaces(input.discount, 100), ToPlaces(input.tax, 100), RoundDiv(q * p, 1000));
    assert Rounds(input, r);
  }

  /** How invoiceLine answers an input with these rounded amounts. */
  ghost function LineAnswer(input: LineInput, r: Rounded): Result<Line> {
    if input.unitPrice.negative || input.discount.negative || input.tax.negative then Rejected(NegativeAmount)
    else if input.quantity.negative || r.quantity == 0 then Rejected(QuantityNotPositive)
    else if r.discount > r.gross then Rejected(DiscountExceedsGross)
    else Ok(Line(r.quantity, r.unitPrice, r.gross, r.discount, r.tax, r.gross - r.discount + r.tax))
  }

  /** Main theorem.  For every input: a line is accepted exactly when price, discount and tax are not
      negative, the rounded quantity is positive and the rounded discount is within the rounded gross;
      its fields are the rounded amounts and its total is gross less discount plus tax. */
  lemma LineMeans(input: LineInput, r: Rounded)
    requires Rounds(input, r)
    ensures InvoiceLine(input) == LineAnswer(input, r)
  {
    hide ToPlaces, RoundDiv;
    NearestIsToPlaces(input.quantity, 1000, r.quantity);
    NearestIsToPlaces(input.unitPrice, 100, r.unitPrice);
    NearestIsToPlaces(input.discount, 100, r.discount);
    NearestIsToPlaces(input.tax, 100, r.tax);
    NearestGross(r.quantity, r.unitPrice, r.gross);
  }

  lemma NearestGross(q: nat, p: nat, g: nat)
    requires -1000 < 2 * (g * 1000 - q * p) <= 1000
    ensures Gross(q, p) == g
  {
    assert q * p >= 0;
    RoundDivUnique(q * p, 1000, g);
  }

  ghost predicate SumsOf(rounded: seq<Rounded>, a: Amounts) {
    && a.subtotal == Sum(seq(|rounded|, k requires 0 <= k < |rounded| => rounded[k].gross as int))
    && a.discount == Sum(seq(|rounded|, k requires 0 <= k < |rounded| => rounded[k].discount as int))
    && a.tax == Sum(seq(|rounded|, k requires 0 <= k < |rounded| => rounded[k].tax as int))
    && a.total == a.subtotal - a.discount + a.tax && a.paid == 0 && a.outstanding == a.total
  }

  /** Main theorem.  An invoice is rejected for its first rejected line; otherwise its lines are those of
      its inputs in their order, and its subtotal, discount and tax are the sums of the rounded amounts. */
  lemma RecordMeans(inputs: seq<LineInput>, rounded: seq<Rounded>)
    requires |rounded| == |inputs| && forall k :: 0 <= k < |inputs| ==> Rounds(inputs[k], rounded[k])
    ensures var r := CreateRecord(inputs);
            && (r.Ok? <==> forall k :: 0 <= k < |inputs| ==> LineAnswer(inputs[k], rounded[k]).Ok?)
            && (r.Ok? ==> |r.value.lines| == |inputs| && SumsOf(rounded, r.value.amounts)
                          && forall k :: 0 <= k < |inputs| ==> LineAnswer(inputs[k], rounded[k]) == Ok(r.value.lines[k]))
            && (r.Rejected? ==> exists k :: 0 <= k < |inputs| && LineAnswer(inputs[k], rounded[k]) == Rejected(r.reason)
                                            && forall j :: 0 <= j < k ==> LineAnswer(inputs[j], rounded[j]).Ok?)
  {
    hide InvoiceLine, LineAnswer, Rounds, Sum;
    forall k | 0 <= k < |inputs|
      ensures InvoiceLine(inputs[k]) == LineAnswer(inputs[k], rounded[k])
    {
      LineMeans(inputs[k], rounded[k]);
    }
    InvoiceTotals(inputs);
    var calculated := CalculateLines(inputs);
    if calculated.Ok? {
      SameColumns(inputs, rounded, calculated.value);
    }
  }

  lemma SameColumns(inputs: seq<LineInput>, rounded: seq<Rounded>, lines: seq<Line>)
    requires |rounded| == |inputs| == |lines|
    requires forall k :: 0 <= k < |inputs| ==> LineAnswer(inputs[k], rounded[k]) == Ok(lines[k])
    ensures Column(lines, (l: Line) => l.gross) == seq(|rounded|, k requires 0 <= k < |rounded| => rounded[k].gross as int)
    ensures Column(lines, (l: Line) => l.discount) == seq(|rounded|, k requires 0 <= k < |rounded| => rounded[k].discount as int)
    ensures Column(lines, (l: Line) => l.tax) == seq(|rounded|, k requires 0 <= k < |rounded| => rounded[k].tax as int)
  {
  }
}
