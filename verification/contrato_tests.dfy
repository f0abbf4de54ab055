/** The tables of the repository's contract tests, and what each contract does with them.
    Dates arrive as text, so the outcome depends on the date parser only through the strings
    the tables use. */
module ContratoTests {
  import opened Frame
  import opened Schema
  import opened Contrato

  /** One input row: a sector code, revenue, a date written as text, tax share, operating cost. */
  function InputRow(setor: Value, receita: real, data: string, pct: real, custos: real): Row
  {
    map[SETOR_DA_EMPRESA := setor, RECEITA_OPERACIONAL := Number(receita), DATA := Text(data),
        PERCENTUAL_DE_IMPOSTO := Number(pct), CUSTO_OPERACIONAIS := Number(custos)]
  }

  /** The three-row input table of the tests: the given first row, then two correct rows. */
  function InputTable(first: Row): Table
  {
    Table(BASE_COLUMNS, [first, InputRow(Text("REP_X7Y8Z9"), 1000.0, "2023-01-01", 0.1, 200.0),
                                InputRow(Text("MNT_4D5E6F"), 1000.0, "2023-01-01", 0.1, 200.0)])
  }

  const CORRECT_FIRST_ROW := InputRow(Text("VND_A1B2C3"), 1000.0, "2023-01-01", 0.1, 200.0)

  /** The table with column `c` added, holding `v` in every row. */
  function WithColumn(t: Table, c: string, v: Value): (r: Table)
    ensures r.columns == t.columns + {c} && |r.rows| == |t.rows|
    ensures forall i :: 0 <= i < |t.rows| ==> Cell(r.rows[i], c) == v
    ensures WellFormed(t) ==> WellFormed(r)
  {
    Table(t.columns + {c}, seq(|t.rows|, i requires 0 <= i < |t.rows| => t.rows[i][c := v]))
  }

  /** The table with column `c` dropped from the header and from every row. */
  function WithoutColumn(t: Table, c: string): (r: Table)
    ensures r.columns == t.columns - {c} && |r.rows| == |t.rows|
    ensures forall i :: 0 <= i < |t.rows| ==> Cell(r.rows[i], c) == Missing
    ensures WellFormed(t) ==> WellFormed(r)
  {
    Table(t.columns - {c}, seq(|t.rows|, i requires 0 <= i < |t.rows| => t.rows[i] - {c}))
  }

  /** Every input table of the tests has a cell in each of its columns and nowhere else. */
  lemma InputTableWellFormed(setor: Value, receita: real, data: string, pct: real, custos: real)
    ensures WellFormed(InputTable(InputRow(setor, receita, data, pct, custos)))
  {
    var t := InputTable(InputRow(setor, receita, data, pct, custos));
    forall i | 0 <= i < |t.rows| ensures t.rows[i].Keys == BASE_COLUMNS {
      assert t.rows[i].Keys == {SETOR_DA_EMPRESA, RECEITA_OPERACIONAL, DATA, PERCENTUAL_DE_IMPOSTO, CUSTO_OPERACIONAIS};
    }
  }

  lemma CorrectRow(p: Parsers, setor: string)
    requires p.date("2023-01-01").Some? && |setor| >= 4 && setor[..4] in SECTOR_PREFIXES
    ensures BaseRowOk(p, InputRow(Text(setor), 1000.0, "2023-01-01", 0.1, 200.0))
  {
    var r := InputRow(Text(setor), 1000.0, "2023-01-01", 0.1, 200.0);
    assert Cell(r, SETOR_DA_EMPRESA) == Text(setor);
    assert Cell(r, DATA) == Text("2023-01-01");
  }

  lemma CorrectInputAccepted(p: Parsers)
    requires p.date("2023-01-01").Some?
    ensures Validate(MetricasFinanceirasBase, p, InputTable(CORRECT_FIRST_ROW)).Ok?
  {
    var t := InputTable(CORRECT_FIRST_ROW);
    assert "VND_A1B2C3"[..4] == "VND_" && "REP_X7Y8Z9"[..4] == "REP_" && "MNT_4D5E6F"[..4] == "MNT_";
    forall i | 0 <= i < |t.rows|
      ensures BaseRowOk(p, t.rows[i])
    {
      var setor := if i == 0 then "VND_A1B2C3" else if i == 1 then "REP_X7Y8Z9" else "MNT_4D5E6F";
      assert t.rows[i] == InputRow(Text(setor), 1000.0, "2023-01-01", 0.1, 200.0);
      CorrectRow(p, setor);
    }
    BaseConformsIff(p, t);
  }

  lemma ExtraColumnRejected(p: Parsers)
    ensures var t' := WithColumn(InputTable(CORRECT_FIRST_ROW), "coluna_adicional", Number(0.0));
      WellFormed(t') && Reports(MetricasFinanceirasBase, p, t', ColumnSet({}, {"coluna_adicional"}))
  {
    var t := InputTable(CORRECT_FIRST_ROW);
    var t' := WithColumn(t, "coluna_adicional", Number(0.0));
    InputTableWellFormed(Text("VND_A1B2C3"), 1000.0, "2023-01-01", 0.1, 200.0);
    assert "coluna_adicional" !in BASE_COLUMNS;
    assert BASE_COLUMNS - t'.columns == {};
    assert t'.columns - BASE_COLUMNS == {"coluna_adicional"};
    StrictColumnSetReported(p, t');
  }

  lemma MissingColumnRejected(p: Parsers)
    ensures var t' := WithColumn(WithoutColumn(InputTable(CORRECT_FIRST_ROW), SETOR_DA_EMPRESA), "coluna_adicional", Number(0.0));
      WellFormed(t') && Reports(MetricasFinanceirasBase, p, t', ColumnSet({SETOR_DA_EMPRESA}, {"coluna_adicional"}))
  {
    var t := InputTable(CORRECT_FIRST_ROW);
    var t' := WithColumn(WithoutColumn(t, SETOR_DA_EMPRESA), "coluna_adicional", Number(0.0));
    InputTableWellFormed(Text("VND_A1B2C3"), 1000.0, "2023-01-01", 0.1, 200.0);
    assert "coluna_adicional" !in BASE_COLUMNS;
    assert BASE_COLUMNS - t'.columns == {SETOR_DA_EMPRESA};
    assert t'.columns - BASE_COLUMNS == {"coluna_adicional"};
    StrictColumnSetReported(p, t');
  }

  lemma MissingSectorRejected(p: Parsers)
    ensures var t := InputTable(InputRow(Missing, 1000.0, "2023-01-01", 0.1, 200.0));
      Reports(MetricasFinanceirasBase, p, t, CellViolation(SETOR_DA_EMPRESA, 0, Null))
  {
    var t := InputTable(InputRow(Missing, 1000.0, "2023-01-01", 0.1, 200.0));
    NullCellReported(p, t, 0, SETOR_DA_EMPRESA);
  }

  lemma InvalidSectorRejected(p: Parsers)
    ensures var t := InputTable(InputRow(Text("AAA_X7Y8Z9"), 1000.0, "2023-01-01", 0.1, 200.0));
      Reports(MetricasFinanceirasBase, p, t, CellViolation(SETOR_DA_EMPRESA, 0, Failed(SECTOR_CHECK)))
  {
    var t := InputTable(InputRow(Text("AAA_X7Y8Z9"), 1000.0, "2023-01-01", 0.1, 200.0));
    assert "AAA_X7Y8Z9"[..4] == "AAA_";
    UnknownSectorReported(p, t, 0, "AAA_X7Y8Z9");
  }

  lemma NegativeRevenueRejected(p: Parsers)
    ensures var t := InputTable(InputRow(Text("VND_A1B2C3"), -1000.0, "2023-01-01", 0.1, 200.0));
      Reports(MetricasFinanceirasBase, p, t, CellViolation(RECEITA_OPERACIONAL, 0, Failed("greater_than_or_equal_to")))
  {
    var t := InputTable(InputRow(Text("VND_A1B2C3"), -1000.0, "2023-01-01", 0.1, 200.0));
    NegativeAmountReported(p, t, 0, RECEITA_OPERACIONAL, -1000.0);
  }

  lemma InvalidDateRejected(p: Parsers)
    requires p.date("data invalida").None?
    ensures var t := InputTable(InputRow(Text("VND_A1B2C3"), 1000.0, "data invalida", 0.1, 200.0));
      Reports(MetricasFinanceirasBase, p, t, CellViolation(DATA, 0, WrongType))
  {
    var t := InputTable(InputRow(Text("VND_A1B2C3"), 1000.0, "data invalida", 0.1, 200.0));
    UnparseableDateReported(p, t, 0, "data invalida");
  }

  lemma TaxAboveOneRejected(p: Parsers)
    ensures var t := InputTable(InputRow(Text("VND_A1B2C3"), 1000.0, "2023-01-01", 1.1, 200.0));
      Reports(MetricasFinanceirasBase, p, t, CellViolation(PERCENTUAL_DE_IMPOSTO, 0, Failed("in_range")))
  {
    var t := InputTable(InputRow(Text("VND_A1B2C3"), 1000.0, "2023-01-01", 1.1, 200.0));
    TaxOutsideUnitRangeReported(p, t, 0, 1.1);
  }

  lemma NegativeCostsRejected(p: Parsers)
    ensures var t := InputTable(InputRow(Text("VND_A1B2C3"), 1000.0, "2023-01-01", 0.1, -200.0));
      Reports(MetricasFinanceirasBase, p, t, CellViolation(CUSTO_OPERACIONAIS, 0, Failed("greater_than_or_equal_to")))
  {
    var t := InputTable(InputRow(Text("VND_A1B2C3"), 1000.0, "2023-01-01", 0.1, -200.0));
    NegativeAmountReported(p, t, 0, CUSTO_OPERACIONAIS, -200.0);
  }

  // ---------------------------------------------------------------------------
  // Output contract.

  /** One output row of the tests: the correct input row with tax 100, total cost 300, the
      given net revenue and margin. */
  function OutputRow(setor: string, liquida: Value, margem: real): Row
  {
    InputRow(Text(setor), 1000.0, "2023-01-01", 0.1, 200.0)
      + map[VALOR_DO_IMPOSTO := Number(100.0), CUSTO_TOTAL := Number(300.0),
            RECEITA_LIQUIDA := liquida, MARGEM_OPERACIONAL := Number(margem)]
  }

  function OutputTable(first: Row): Table
  {
    Table(OUT_REQUIRED, [first, OutputRow("REP_X7Y8Z9", Number(700.0), 700.0 / 1000.0),
                                OutputRow("MNT_4D5E6F", Number(700.0), 700.0 / 1000.0)])
  }

  const CORRECT_OUTPUT_ROW := OutputRow("VND_A1B2C3", Number(700.0), 700.0 / 1000.0)

  /** Every output table of the tests has a cell in each of its columns and nowhere else. */
  lemma OutputTableWellFormed(setor: string, liquida: Value, margem: real)
    ensures WellFormed(OutputTable(OutputRow(setor, liquida, margem)))
  {
    var t := OutputTable(OutputRow(setor, liquida, margem));
    forall i | 0 <= i < |t.rows| ensures t.rows[i].Keys == OUT_REQUIRED {
      assert t.rows[i].Keys == {SETOR_DA_EMPRESA, RECEITA_OPERACIONAL, DATA, PERCENTUAL_DE_IMPOSTO, CUSTO_OPERACIONAIS,
                                VALOR_DO_IMPOSTO, CUSTO_TOTAL, RECEITA_LIQUIDA, MARGEM_OPERACIONAL};
    }
  }

  lemma OutputRowCells(setor: string, liquida: Value, margem: real)
    ensures var r := OutputRow(setor, liquida, margem);
      && Cell(r, RECEITA_OPERACIONAL) == Number(1000.0) && Cell(r, RECEITA_LIQUIDA) == liquida
      && Cell(r, MARGEM_OPERACIONAL) == Number(margem) && Cell(r, VALOR_DO_IMPOSTO) == Number(100.0)
      && Cell(r, CUSTO_TOTAL) == Number(300.0)
      && Cell(r, SETOR_DA_EMPRESA) == Text(setor) && Cell(r, DATA) == Text("2023-01-01")
      && Cell(r, PERCENTUAL_DE_IMPOSTO) == Number(0.1) && Cell(r, CUSTO_OPERACIONAIS) == Number(200.0)
  {
    var r := OutputRow(setor, liquida, margem);
    var base := InputRow(Text(setor), 1000.0, "2023-01-01", 0.1, 200.0);
    assert Cell(base, RECEITA_OPERACIONAL) == Number(1000.0);
    assert Cell(base, SETOR_DA_EMPRESA) == Text(setor);
    assert Cell(base, DATA) == Text("2023-01-01");
    assert Cell(base, PERCENTUAL_DE_IMPOSTO) == Number(0.1);
    assert Cell(base, CUSTO_OPERACIONAIS) == Number(200.0);
  }

  lemma CorrectOutputRow(p: Parsers, setor: string)
    requires p.date("2023-01-01").Some? && |setor| >= 4 && setor[..4] in SECTOR_PREFIXES
    ensures OutRowOk(p, false, OutputRow(setor, Number(700.0), 700.0 / 1000.0))
  {
    OutputRowCells(setor, Number(700.0), 700.0 / 1000.0);
  }

  /** Filling transformado_em with a parseable date keeps an accepted row accepted. */
  lemma StampKeepsRowOk(p: Parsers, r: Row, x: Value)
    requires OutRowOk(p, false, r) && AsInstant(p, x).Some?
    ensures OutRowOk(p, true, r[TRANSFORMADO_EM := x])
  {
    var s := r[TRANSFORMADO_EM := x];
    assert forall c :: c in BASE_COLUMNS + DERIVED_COLUMNS ==> Cell(s, c) == Cell(r, c);
  }

  lemma CorrectOutputAccepted(p: Parsers)
    requires p.date("2023-01-01").Some?
    ensures Validate(MetricasFinanceirasOut, p, OutputTable(CORRECT_OUTPUT_ROW)).Ok?
  {
    var t := OutputTable(CORRECT_OUTPUT_ROW);
    var stamped := TRANSFORMADO_EM in t.columns;
    assert !stamped;
    assert "VND_A1B2C3"[..4] == "VND_" && "REP_X7Y8Z9"[..4] == "REP_" && "MNT_4D5E6F"[..4] == "MNT_";
    forall i | 0 <= i < |t.rows|
      ensures OutRowOk(p, stamped, t.rows[i])
    {
      var setor := if i == 0 then "VND_A1B2C3" else if i == 1 then "REP_X7Y8Z9" else "MNT_4D5E6F";
      assert t.rows[i] == OutputRow(setor, Number(700.0), 700.0 / 1000.0);
      CorrectOutputRow(p, setor);
    }
    OutConformsIff(p, t);
  }

  lemma CorrectStampedOutputAccepted(p: Parsers)
    requires p.date("2023-01-01").Some? && p.date("2024-01-01").Some?
    ensures Validate(MetricasFinanceirasOut, p, WithColumn(OutputTable(CORRECT_OUTPUT_ROW), TRANSFORMADO_EM, Text("2024-01-01"))).Ok?
  {
    var t := OutputTable(CORRECT_OUTPUT_ROW);
    var s := WithColumn(t, TRANSFORMADO_EM, Text("2024-01-01"));
    assert TRANSFORMADO_EM in s.columns;
    CorrectOutputAccepted(p);
    OutConformsIff(p, t);
    forall i | 0 <= i < |s.rows|
      ensures OutRowOk(p, true, s.rows[i])
    {
      StampKeepsRowOk(p, t.rows[i], Text("2024-01-01"));
    }
    OutConformsIff(p, s);
  }

  lemma MissingOutputColumnRejected(p: Parsers)
    ensures var t' := WithoutColumn(OutputTable(CORRECT_OUTPUT_ROW), CUSTO_TOTAL);
      WellFormed(t') && Validate(MetricasFinanceirasOut, p, t').Err?
  {
    var t := OutputTable(CORRECT_OUTPUT_ROW);
    var t' := WithoutColumn(t, CUSTO_TOTAL);
    OutputTableWellFormed("VND_A1B2C3", Number(700.0), 700.0 / 1000.0);
    assert CUSTO_TOTAL !in t'.columns;
    OutConformsIff(p, t');
  }

  lemma ExtraOutputColumnRejected(p: Parsers)
    ensures var t' := WithColumn(OutputTable(CORRECT_OUTPUT_ROW), "coluna_adicional", Number(0.0));
      WellFormed(t') && Validate(MetricasFinanceirasOut, p, t').Err?
  {
    var t := OutputTable(CORRECT_OUTPUT_ROW);
    var t' := WithColumn(t, "coluna_adicional", Number(0.0));
    OutputTableWellFormed("VND_A1B2C3", Number(700.0), 700.0 / 1000.0);
    assert "coluna_adicional" in t'.columns;
    assert "coluna_adicional" !in OUT_REQUIRED + {TRANSFORMADO_EM};
    OutConformsIff(p, t');
  }

  lemma MissingNetRevenueRejected(p: Parsers)
    ensures var t := OutputTable(OutputRow("VND_A1B2C3", Missing, 700.0 / 1000.0));
      Validate(MetricasFinanceirasOut, p, t).Err?
  {
    var t := OutputTable(OutputRow("VND_A1B2C3", Missing, 700.0 / 1000.0));
    OutputRowCells("VND_A1B2C3", Missing, 700.0 / 1000.0);
    assert !OutRowOk(p, false, t.rows[0]);
    OutConformsIff(p, t);
  }

  lemma MarginOfFiftyRejected(p: Parsers)
    ensures var t := OutputTable(OutputRow("VND_A1B2C3", Number(700.0), 50.0));
      Reports(MetricasFinanceirasOut, p, t, TableViolation(MARGIN_CHECK, 0))
  {
    var t := OutputTable(OutputRow("VND_A1B2C3", Number(700.0), 50.0));
    OutputRowCells("VND_A1B2C3", Number(700.0), 50.0);
    MarginMismatchReported(p, t, 0);
  }
}
