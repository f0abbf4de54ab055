/** The pipeline between the two contracts: the validation step of extraction, and the
    transformation that appends the derived financial columns and is checked against the
    output contract on the way out. */
module Etl {
  import opened Frame
  import opened Schema
  import opened Contrato

  /** The validation step of extrai_dados: the input contract, all violations collected.
      On failure `extrai_dados` prints the report and returns None. */
  function ExtraiDados(p: Parsers, t: Table): (r: Option<Table>)
    ensures r.Some? <==> Conforms(MetricasFinanceirasBase, p, t)
    ensures r.None? <==> Violations(MetricasFinanceirasBase, p, t) != {}
    ensures r.Some? ==> r.value == CoerceTable(MetricasFinanceirasBase, p, t)
    ensures r.Some? ==> ValidatedBase(r.value) && |r.value.rows| == |t.rows|
    ensures r.Some? && WellFormed(t) ==> WellFormed(r.value)
  {
    NoViolationsIffConforms(MetricasFinanceirasBase, p, t);
    var v := Validate(MetricasFinanceirasBase, p, t);
    if v.Ok? then
      ValidatedTableIsTyped(p, t);
      Some(v.value)
    else None
  }

  // ---------------------------------------------------------------------------
  // Column arithmetic. pandas propagates nulls through arithmetic; dividing by a zero
  // revenue gives NaN or an infinity, both of which appear here as a null.

  function Times(a: Value, b: Value): Value
  {
    if a.Number? && b.Number? then Number(a.x * b.x) else Missing
  }

  function Plus(a: Value, b: Value): Value
  {
    if a.Number? && b.Number? then Number(a.x + b.x) else Missing
  }

  function Minus(a: Value, b: Value): Value
  {
    if a.Number? && b.Number? then Number(a.x - b.x) else Missing
  }

  function Over(a: Value, b: Value): Value
  {
    if a.Number? && b.Number? && b.x != 0.0 then Number(a.x / b.x) else Missing
  }

  /** The right-hand side of each column assignment in transforma_dados, read off one row. */
  function TaxAmount(r: Row): Value
  {
    Times(Cell(r, PERCENTUAL_DE_IMPOSTO), Cell(r, RECEITA_OPERACIONAL))
  }

  function TotalCost(r: Row): Value
  {
    Plus(Cell(r, VALOR_DO_IMPOSTO), Cell(r, CUSTO_OPERACIONAIS))
  }

  function NetRevenue(r: Row): Value
  {
    Minus(Cell(r, RECEITA_OPERACIONAL), Cell(r, CUSTO_TOTAL))
  }

  function OperatingMargin(r: Row): Value
  {
    Over(Cell(r, RECEITA_LIQUIDA), Cell(r, RECEITA_OPERACIONAL))
  }

  /** One row after the five assignments, each reading the columns written before it. */
  function DeriveRow(r: Row, now: Instant): (d: Row)
    ensures d.Keys == r.Keys + ADDED_COLUMNS
    ensures forall c :: c in r && c !in ADDED_COLUMNS ==> d[c] == r[c]
    ensures d[TRANSFORMADO_EM] == Stamp(now)
  {
    var r1 := r[VALOR_DO_IMPOSTO := TaxAmount(r)];
    var r2 := r1[CUSTO_TOTAL := TotalCost(r1)];
    var r3 := r2[RECEITA_LIQUIDA := NetRevenue(r2)];
    var r4 := r3[MARGEM_OPERACIONAL := OperatingMargin(r3)];
    r4[TRANSFORMADO_EM := Stamp(now)]
  }

  const ADDED_COLUMNS := DERIVED_COLUMNS + {TRANSFORMADO_EM}

  /** The table transforma_dados returns. */
  function Transformed(t: Table, now: Instant): (out: Table)
    ensures out.columns == t.columns + ADDED_COLUMNS && |out.rows| == |t.rows|
    ensures forall i :: 0 <= i < |t.rows| ==> out.rows[i].Keys == t.rows[i].Keys + ADDED_COLUMNS
    ensures WellFormed(t) ==> WellFormed(out)
  {
    Table(t.columns + ADDED_COLUMNS, seq(|t.rows|, i requires 0 <= i < |t.rows| => DeriveRow(t.rows[i], now)))
  }

  /** Tax and operating costs together do not exceed a positive revenue. */
  predicate CostsCovered(r: Row)
  {
    var gross := Cell(r, RECEITA_OPERACIONAL);
    var pct := Cell(r, PERCENTUAL_DE_IMPOSTO);
    var opex := Cell(r, CUSTO_OPERACIONAIS);
    gross.Number? && pct.Number? && opex.Number? && gross.x > 0.0 && pct.x * gross.x + opex.x <= gross.x
  }

  // ---------------------------------------------------------------------------
  // transforma_dados

  /** `df[c] = f(df)`: every row gets column `c` set from its own cells; nothing else changes. */
  method AssignColumn(rows: seq<Row>, c: string, f: Row -> Value) returns (out: seq<Row>)
    ensures |out| == |rows|
    ensures forall k :: 0 <= k < |rows| ==> out[k] == rows[k][c := f(rows[k])]
  {
    out := rows;
    var i := 0;
    while i < |out|
      invariant 0 <= i <= |out| == |rows|
      invariant forall k :: 0 <= k < i ==> out[k] == rows[k][c := f(rows[k])]
      invariant forall k :: i <= k < |out| ==> out[k] == rows[k]
    {
      out := out[i := out[i][c := f(out[i])]];
      i := i + 1;
    }
  }

  /** The body of transforma_dados: five column assignments on a copy of the rows, each
      reading the columns assigned before it. */
  method AddDerivedColumns(rows: seq<Row>, now: Instant) returns (out: seq<Row>)
    ensures |out| == |rows|
    ensures forall k :: 0 <= k < |rows| ==> out[k] == DeriveRow(rows[k], now)
  {
    out := rows;
    out := AssignColumn(out, VALOR_DO_IMPOSTO, TaxAmount);
    out := AssignColumn(out, CUSTO_TOTAL, TotalCost);
    out := AssignColumn(out, RECEITA_LIQUIDA, NetRevenue);
    out := AssignColumn(out, MARGEM_OPERACIONAL, OperatingMargin);
    out := AssignColumn(out, TRANSFORMADO_EM, _ => Stamp(now));
  }

  /** transforma_dados under its check_output decorator: derive the columns on a copy of the
      validated table, then validate the result against the output contract, returning the
      function's own table when it passes and every violation when it does not. */
  method TransformaDados(p: Parsers, t: Table, now: Instant) returns (r: Result<Table, set<Violation>>)
    requires ValidatedBase(t)
    ensures r.Ok? <==> forall i :: 0 <= i < |t.rows| ==> CostsCovered(t.rows[i])
    ensures r.Ok? ==> r.value == Transformed(t, now) && Conforms(MetricasFinanceirasOut, p, r.value)
    ensures r.Err? ==> r.error == Violations(MetricasFinanceirasOut, p, Transformed(t, now))
  {
    var rows := AddDerivedColumns(t.rows, now);
    var out := Table(t.columns + ADDED_COLUMNS, rows);
    assert out.rows == Transformed(t, now).rows;
    OutputContractIff(p, t, now);
    r := CheckOutput(MetricasFinanceirasOut, p, out);
  }

  // ---------------------------------------------------------------------------
  // What the transformation computes.

  /** Every original column keeps its value; the added columns hold the formulas of the
      source, and the timestamp is the same for every row. */
  lemma DeriveRowCells(r: Row, now: Instant)
    requires TypedBaseRow(r)
    ensures var d := DeriveRow(r, now);
      var gross := Cell(r, RECEITA_OPERACIONAL).x;
      var tax := Cell(r, PERCENTUAL_DE_IMPOSTO).x * gross;
      var total := tax + Cell(r, CUSTO_OPERACIONAIS).x;
      && (forall c :: c !in ADDED_COLUMNS ==> Cell(d, c) == Cell(r, c))
      && Cell(d, VALOR_DO_IMPOSTO) == Number(tax)
      && Cell(d, CUSTO_TOTAL) == Number(total)
      && Cell(d, RECEITA_LIQUIDA) == Number(gross - total)
      && Cell(d, MARGEM_OPERACIONAL) == (if gross == 0.0 then Missing else Number((gross - total) / gross))
      && Cell(d, TRANSFORMADO_EM) == Stamp(now)
  {
  }

  /** The result is a copy of the input with columns added: the same rows in the same order,
      every original cell unchanged, and one timestamp for the whole batch. */
  lemma TransformedKeepsInput(t: Table, now: Instant)
    requires ValidatedBase(t)
    ensures var out := Transformed(t, now);
      && out.columns == t.columns + ADDED_COLUMNS && |out.rows| == |t.rows|
      && (forall i, c :: 0 <= i < |t.rows| && c !in ADDED_COLUMNS ==> Cell(out.rows[i], c) == Cell(t.rows[i], c))
      && (forall i :: 0 <= i < |t.rows| ==> Cell(out.rows[i], TRANSFORMADO_EM) == Stamp(now))
  {
    forall i | 0 <= i < |t.rows| {
      DeriveRowCells(t.rows[i], now);
    }
  }

  lemma QuotientSign(n: real, g: real)
    requires g > 0.0
    ensures n / g >= 0.0 <==> n >= 0.0
  {
    if n < 0.0 {
      assert n / g * g == n;
    }
  }

  /** With a positive revenue the margin rule holds by construction. */
  lemma MarginByConstruction(r: Row, now: Instant)
    requires TypedBaseRow(r) && Cell(r, RECEITA_OPERACIONAL).x > 0.0
    ensures ChecaMargemOperacional(DeriveRow(r, now))
  {
    DeriveRowCells(r, now);
  }

  /** A transformed row satisfies the output contract exactly when its revenue is positive
      and covers tax plus operating costs. */
  lemma DerivedRowOk(p: Parsers, r: Row, now: Instant)
    requires TypedBaseRow(r)
    ensures OutRowOk(p, true, DeriveRow(r, now)) <==> CostsCovered(r)
  {
    var d := DeriveRow(r, now);
    DeriveRowCells(r, now);
    var gross := Cell(r, RECEITA_OPERACIONAL).x;
    var pct := Cell(r, PERCENTUAL_DE_IMPOSTO).x;
    var opex := Cell(r, CUSTO_OPERACIONAIS).x;
    assert Cell(d, SETOR_DA_EMPRESA) == Cell(r, SETOR_DA_EMPRESA);
    assert Cell(d, RECEITA_OPERACIONAL) == Cell(r, RECEITA_OPERACIONAL);
    assert Cell(d, DATA) == Cell(r, DATA);
    assert Cell(d, PERCENTUAL_DE_IMPOSTO) == Cell(r, PERCENTUAL_DE_IMPOSTO);
    assert Cell(d, CUSTO_OPERACIONAIS) == Cell(r, CUSTO_OPERACIONAIS);
    assert BaseRowOk(p, d);
    if gross > 0.0 {
      QuotientSign(gross - (pct * gross + opex), gross);
    }
  }

  /** The check on transforma_dados' output passes exactly when every row's revenue is
      positive and covers tax plus operating costs. */
  lemma OutputContractIff(p: Parsers, t: Table, now: Instant)
    requires ValidatedBase(t)
    ensures Conforms(MetricasFinanceirasOut, p, Transformed(t, now))
        <==> forall i :: 0 <= i < |t.rows| ==> CostsCovered(t.rows[i])
  {
    var out := Transformed(t, now);
    assert out.columns == OUT_REQUIRED + {TRANSFORMADO_EM};
    forall i | 0 <= i < |t.rows|
      ensures OutRowOk(p, true, out.rows[i]) <==> CostsCovered(t.rows[i])
    {
      DerivedRowOk(p, t.rows[i], now);
    }
    OutConformsIff(p, out);
  }

  /** The input contract admits a zero revenue, but the margin cannot then be computed, so
      the output check rejects every table holding such a row. */
  lemma ZeroRevenueRejected(p: Parsers, t: Table, now: Instant, i: nat)
    requires ValidatedBase(t) && i < |t.rows| && Cell(t.rows[i], RECEITA_OPERACIONAL) == Number(0.0)
    ensures BaseRowOk(p, t.rows[i])
    ensures !Conforms(MetricasFinanceirasOut, p, Transformed(t, now))
  {
    var r := t.rows[i];
    TypedRowAccepted(p, r);
    assert !CostsCovered(r);
    OutputContractIff(p, t, now);
  }

  /** The row of the tests: revenue 1000, tax 10%, operating cost 200 gives tax 100, total cost
      300, net revenue 700 and margin 0.7. */
  lemma WorkedExample(r: Row, now: Instant)
    requires TypedBaseRow(r)
    requires Cell(r, RECEITA_OPERACIONAL) == Number(1000.0) && Cell(r, PERCENTUAL_DE_IMPOSTO) == Number(0.1)
    requires Cell(r, CUSTO_OPERACIONAIS) == Number(200.0)
    ensures var d := DeriveRow(r, now);
      && Cell(d, VALOR_DO_IMPOSTO) == Number(100.0) && Cell(d, CUSTO_TOTAL) == Number(300.0)
      && Cell(d, RECEITA_LIQUIDA) == Number(700.0) && Cell(d, MARGEM_OPERACIONAL) == Number(0.7)
  {
    DeriveRowCells(r, now);
  }
}
