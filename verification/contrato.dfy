/** The two data contracts of the pipeline: the input contract MetricasFinanceirasBase and
    the output contract MetricasFinanceirasOut, which extends it. Each contract is given
    twice: as a DataFrameModel value for the validation engine, and as a plain row predicate
    (BaseRowOk, OutRowOk) saying in direct terms what a conforming row is; the lemmas prove
    the two agree. */
module Contrato {
  import opened Frame
  import opened Schema

  const SETOR_DA_EMPRESA: string := "setor_da_empresa"
  const RECEITA_OPERACIONAL: string := "receita_operacional"
  const DATA: string := "data"
  const PERCENTUAL_DE_IMPOSTO: string := "percentual_de_imposto"
  const CUSTO_OPERACIONAIS: string := "custo_operacionais"
  const VALOR_DO_IMPOSTO: string := "valor_do_imposto"
  const CUSTO_TOTAL: string := "custo_total"
  const RECEITA_LIQUIDA: string := "receita_liquida"
  const MARGEM_OPERACIONAL: string := "margem_operacional"
  const TRANSFORMADO_EM: string := "transformado_em"

  const BASE_COLUMNS: set<string> :=
    {SETOR_DA_EMPRESA, RECEITA_OPERACIONAL, DATA, PERCENTUAL_DE_IMPOSTO, CUSTO_OPERACIONAIS}
  const DERIVED_COLUMNS: set<string> :=
    {VALOR_DO_IMPOSTO, CUSTO_TOTAL, RECEITA_LIQUIDA, MARGEM_OPERACIONAL}
  /** The columns the output contract requires; transformado_em may be added to them. */
  const OUT_REQUIRED: set<string> := BASE_COLUMNS + DERIVED_COLUMNS

  const SECTOR_PREFIXES: seq<string> := ["REP_", "MNT_", "VND_"]
  const SECTOR_CHECK: string := "Checagem código dos setores"
  const MARGIN_CHECK: string := "checa_margem_operacional"

  /** Python's `s[:n]`: the whole string when it has fewer than n characters. */
  function Head(s: string, n: nat): string
  {
    if |s| < n then s else s[..n]
  }

  /** checa_codigo_setor, applied to one element: the first four characters of the code
      must be one of the sector prefixes. */
  function ChecaCodigoSetor(v: Value): (ok: bool)
    ensures ok <==> v.Text? && |v.s| >= 4 && (v.s[..4] == "REP_" || v.s[..4] == "MNT_" || v.s[..4] == "VND_")
  {
    match v
    case Text(s) =>
      assert forall q :: q in SECTOR_PREFIXES ==> |q| == 4;
      Head(s, 4) in SECTOR_PREFIXES
    case _ => false
  }

  /** checa_margem_operacional, applied to one coerced row. With exact arithmetic, a division
      by a zero revenue can never equal a finite margin (it is infinite or NaN), so such a
      row fails. A row with a null among the three cells is not judged here (pandera ignores
      nulls in a check); the nullability rule rejects it. */
  function ChecaMargemOperacional(r: Row): (ok: bool)
    ensures var gross, net, margin := Cell(r, RECEITA_OPERACIONAL), Cell(r, RECEITA_LIQUIDA), Cell(r, MARGEM_OPERACIONAL);
      && (gross.Number? && net.Number? && margin.Number? ==>
            (ok <==> gross.x != 0.0 && margin.x * gross.x == net.x))
      && (!gross.Number? || !net.Number? || !margin.Number? ==> ok)
  {
    match (Cell(r, RECEITA_OPERACIONAL), Cell(r, RECEITA_LIQUIDA), Cell(r, MARGEM_OPERACIONAL))
    case (Number(gross), Number(net), Number(margin)) => gross != 0.0 && margin == net / gross
    case _ => true
  }

  const SECTOR_FIELD: Field := Field(Str, true, false, [Custom(SECTOR_CHECK, ChecaCodigoSetor)])
  const NON_NEGATIVE_FIELD: Field := Field(Float, true, false, [AtLeast(0.0)])
  const UNIT_RANGE_FIELD: Field := Field(Float, true, false, [InRange(0.0, 1.0)])
  const DATE_FIELD: Field := Field(DateTime, true, false, [])
  /** `Optional[...]` makes a column optional (not required); it stays non-nullable. */
  const OPTIONAL_DATE_FIELD: Field := Field(DateTime, false, false, [])

  /** The input contract: five required, non-nullable columns; strict and coercing. */
  const MetricasFinanceirasBase: DataFrameModel := DataFrameModel(
    map[SETOR_DA_EMPRESA := SECTOR_FIELD,
        RECEITA_OPERACIONAL := NON_NEGATIVE_FIELD,
        DATA := DATE_FIELD,
        PERCENTUAL_DE_IMPOSTO := UNIT_RANGE_FIELD,
        CUSTO_OPERACIONAIS := NON_NEGATIVE_FIELD],
    true, true, [])

  /** The columns MetricasFinanceirasOut declares on top of the input contract. */
  const OUT_EXTRA_FIELDS: map<string, Field> :=
    map[VALOR_DO_IMPOSTO := NON_NEGATIVE_FIELD,
        CUSTO_TOTAL := NON_NEGATIVE_FIELD,
        RECEITA_LIQUIDA := NON_NEGATIVE_FIELD,
        MARGEM_OPERACIONAL := NON_NEGATIVE_FIELD,
        TRANSFORMADO_EM := OPTIONAL_DATE_FIELD]

  /** The output contract: the input contract plus four non-negative derived columns, an
      optional timestamp column, and the margin rule. */
  const MetricasFinanceirasOut: DataFrameModel :=
    Extend(MetricasFinanceirasBase, OUT_EXTRA_FIELDS, [TableCheck(MARGIN_CHECK, ChecaMargemOperacional)])

  // ---------------------------------------------------------------------------
  // The contracts stated directly.

  /** The number a cell coerces to, if any. */
  function AsReal(p: Parsers, v: Value): Option<real>
  {
    match v
    case Number(x) => Some(x)
    case Text(s) => p.number(s)
    case _ => None
  }

  /** The timestamp a cell coerces to, if any. */
  function AsInstant(p: Parsers, v: Value): Option<Instant>
  {
    match v
    case Stamp(t) => Some(t)
    case Text(s) => p.date(s)
    case _ => None
  }

  predicate NonNegative(x: Option<real>)
  {
    x.Some? && x.value >= 0.0
  }

  predicate InUnitRange(x: Option<real>)
  {
    x.Some? && 0.0 <= x.value <= 1.0
  }

  predicate MarginMatches(gross: Option<real>, net: Option<real>, margin: Option<real>)
  {
    gross.Some? && net.Some? && margin.Some? && gross.value != 0.0 && margin.value == net.value / gross.value
  }

  /** A row the input contract accepts. */
  predicate BaseRowOk(p: Parsers, r: Row)
  {
    && ChecaCodigoSetor(Cell(r, SETOR_DA_EMPRESA))
    && NonNegative(AsReal(p, Cell(r, RECEITA_OPERACIONAL)))
    && AsInstant(p, Cell(r, DATA)).Some?
    && InUnitRange(AsReal(p, Cell(r, PERCENTUAL_DE_IMPOSTO)))
    && NonNegative(AsReal(p, Cell(r, CUSTO_OPERACIONAIS)))
  }

  /** The cells the output contract adds, in a table that has (`stamped`) or has not the
      optional transformado_em column. */
  predicate DerivedOk(p: Parsers, stamped: bool, r: Row)
  {
    && NonNegative(AsReal(p, Cell(r, VALOR_DO_IMPOSTO)))
    && NonNegative(AsReal(p, Cell(r, CUSTO_TOTAL)))
    && NonNegative(AsReal(p, Cell(r, RECEITA_LIQUIDA)))
    && NonNegative(AsReal(p, Cell(r, MARGEM_OPERACIONAL)))
    && (stamped ==> AsInstant(p, Cell(r, TRANSFORMADO_EM)).Some?)
  }

  /** A row the output contract accepts: every input rule, the added cells, and the margin
      equal to net revenue over gross revenue. */
  predicate OutRowOk(p: Parsers, stamped: bool, r: Row)
  {
    && BaseRowOk(p, r)
    && DerivedOk(p, stamped, r)
    && MarginMatches(AsReal(p, Cell(r, RECEITA_OPERACIONAL)), AsReal(p, Cell(r, RECEITA_LIQUIDA)),
                     AsReal(p, Cell(r, MARGEM_OPERACIONAL)))
  }

  // ---------------------------------------------------------------------------
  // One cell of each kind of field.

  lemma SectorCell(p: Parsers, v: Value)
    ensures CellFaults(p, true, SECTOR_FIELD, v) == {} <==> ChecaCodigoSetor(v)
  {
    FailedChecksEmpty(SECTOR_FIELD.checks, v);
  }

  lemma NonNegativeCell(p: Parsers, v: Value)
    ensures CellFaults(p, true, NON_NEGATIVE_FIELD, v) == {} <==> NonNegative(AsReal(p, v))
  {
    match Coerce(p, Float, true, v)
    case None =>
    case Some(w) => FailedChecksEmpty(NON_NEGATIVE_FIELD.checks, w);
  }

  lemma UnitRangeCell(p: Parsers, v: Value)
    ensures CellFaults(p, true, UNIT_RANGE_FIELD, v) == {} <==> InUnitRange(AsReal(p, v))
  {
    match Coerce(p, Float, true, v)
    case None =>
    case Some(w) => FailedChecksEmpty(UNIT_RANGE_FIELD.checks, w);
  }

  lemma DateCell(p: Parsers, f: Field, v: Value)
    requires f.kind == DateTime && !f.nullable && f.checks == []
    ensures CellFaults(p, true, f, v) == {} <==> AsInstant(p, v).Some?
  {
    match Coerce(p, DateTime, true, v)
    case None =>
    case Some(w) => FailedChecksEmpty(f.checks, w);
  }

  // ---------------------------------------------------------------------------
  // The input contract.

  lemma BaseFields()
    ensures MetricasFinanceirasBase.fields.Keys == BASE_COLUMNS
    ensures MetricasFinanceirasBase.fields[SETOR_DA_EMPRESA] == SECTOR_FIELD
    ensures MetricasFinanceirasBase.fields[RECEITA_OPERACIONAL] == NON_NEGATIVE_FIELD
    ensures MetricasFinanceirasBase.fields[DATA] == DATE_FIELD
    ensures MetricasFinanceirasBase.fields[PERCENTUAL_DE_IMPOSTO] == UNIT_RANGE_FIELD
    ensures MetricasFinanceirasBase.fields[CUSTO_OPERACIONAIS] == NON_NEGATIVE_FIELD
  {
  }

  lemma BaseCellsIff(p: Parsers, columns: set<string>, r: Row)
    requires BASE_COLUMNS <= columns
    ensures CellsOk(MetricasFinanceirasBase.fields, true, p, columns, r) <==> BaseRowOk(p, r)
  {
    var m := MetricasFinanceirasBase;
    BaseFields();
    SectorCell(p, Cell(r, SETOR_DA_EMPRESA));
    NonNegativeCell(p, Cell(r, RECEITA_OPERACIONAL));
    DateCell(p, DATE_FIELD, Cell(r, DATA));
    UnitRangeCell(p, Cell(r, PERCENTUAL_DE_IMPOSTO));
    NonNegativeCell(p, Cell(r, CUSTO_OPERACIONAIS));
    if BaseRowOk(p, r) {
      forall c | c in columns && c in m.fields
        ensures CellFaults(p, true, m.fields[c], Cell(r, c)) == {}
      {
        assert c in BASE_COLUMNS;
      }
    }
  }

  lemma BaseRowIff(p: Parsers, r: Row)
    ensures RowOk(MetricasFinanceirasBase, p, BASE_COLUMNS, r) <==> BaseRowOk(p, r)
  {
    BaseCellsIff(p, BASE_COLUMNS, r);
  }

  /** The input contract accepts a table exactly when its columns are the five declared
      ones and every row is accepted: a single bad row rejects the whole table. */
  lemma BaseConformsIff(p: Parsers, t: Table)
    ensures Conforms(MetricasFinanceirasBase, p, t)
        <==> t.columns == BASE_COLUMNS && forall i :: 0 <= i < |t.rows| ==> BaseRowOk(p, t.rows[i])
  {
    var m := MetricasFinanceirasBase;
    assert m.fields.Keys == BASE_COLUMNS;
    assert ColumnSetOk(m, t.columns) <==> t.columns == BASE_COLUMNS;
    forall i | 0 <= i < |t.rows| {
      BaseRowIff(p, t.rows[i]);
    }
  }

  // ---------------------------------------------------------------------------
  // The output contract.

  lemma CoercedNumber(m: DataFrameModel, p: Parsers, r: Row, c: string)
    requires c in m.fields && m.fields[c].kind == Float && m.coerce && AsReal(p, Cell(r, c)).Some?
    ensures Cell(CoerceRow(m, p, r), c) == Number(AsReal(p, Cell(r, c)).value)
  {
  }

  lemma OutShape()
    ensures MetricasFinanceirasBase.fields.Keys == BASE_COLUMNS
    ensures OUT_EXTRA_FIELDS.Keys == DERIVED_COLUMNS + {TRANSFORMADO_EM}
    ensures BASE_COLUMNS !! DERIVED_COLUMNS + {TRANSFORMADO_EM}
    ensures MetricasFinanceirasOut.fields.Keys == OUT_REQUIRED + {TRANSFORMADO_EM}
    ensures MetricasFinanceirasOut.coerce && MetricasFinanceirasOut.strict
    ensures MetricasFinanceirasOut.tableChecks == [TableCheck(MARGIN_CHECK, ChecaMargemOperacional)]
  {
  }

  lemma ExtraFields()
    ensures OUT_EXTRA_FIELDS.Keys == DERIVED_COLUMNS + {TRANSFORMADO_EM}
    ensures OUT_EXTRA_FIELDS[VALOR_DO_IMPOSTO] == NON_NEGATIVE_FIELD
    ensures OUT_EXTRA_FIELDS[CUSTO_TOTAL] == NON_NEGATIVE_FIELD
    ensures OUT_EXTRA_FIELDS[RECEITA_LIQUIDA] == NON_NEGATIVE_FIELD
    ensures OUT_EXTRA_FIELDS[MARGEM_OPERACIONAL] == NON_NEGATIVE_FIELD
    ensures OUT_EXTRA_FIELDS[TRANSFORMADO_EM] == OPTIONAL_DATE_FIELD
  {
  }

  lemma ExtraCellsIff(p: Parsers, columns: set<string>, r: Row)
    requires DERIVED_COLUMNS <= columns
    ensures CellsOk(OUT_EXTRA_FIELDS, true, p, columns, r) <==> DerivedOk(p, TRANSFORMADO_EM in columns, r)
  {
    var f := OUT_EXTRA_FIELDS;
    ExtraFields();
    NonNegativeCell(p, Cell(r, VALOR_DO_IMPOSTO));
    NonNegativeCell(p, Cell(r, CUSTO_TOTAL));
    NonNegativeCell(p, Cell(r, RECEITA_LIQUIDA));
    NonNegativeCell(p, Cell(r, MARGEM_OPERACIONAL));
    DateCell(p, OPTIONAL_DATE_FIELD, Cell(r, TRANSFORMADO_EM));
    if CellsOk(f, true, p, columns, r) {
      assert CellFaults(p, true, f[VALOR_DO_IMPOSTO], Cell(r, VALOR_DO_IMPOSTO)) == {};
      assert CellFaults(p, true, f[CUSTO_TOTAL], Cell(r, CUSTO_TOTAL)) == {};
      assert CellFaults(p, true, f[RECEITA_LIQUIDA], Cell(r, RECEITA_LIQUIDA)) == {};
      assert CellFaults(p, true, f[MARGEM_OPERACIONAL], Cell(r, MARGEM_OPERACIONAL)) == {};
      if TRANSFORMADO_EM in columns {
        assert CellFaults(p, true, f[TRANSFORMADO_EM], Cell(r, TRANSFORMADO_EM)) == {};
      }
    }
  }

  lemma OutMargin(p: Parsers, r: Row)
    requires AsReal(p, Cell(r, RECEITA_OPERACIONAL)).Some? && AsReal(p, Cell(r, RECEITA_LIQUIDA)).Some?
    requires AsReal(p, Cell(r, MARGEM_OPERACIONAL)).Some?
    ensures ChecaMargemOperacional(CoerceRow(MetricasFinanceirasOut, p, r))
        <==> MarginMatches(AsReal(p, Cell(r, RECEITA_OPERACIONAL)), AsReal(p, Cell(r, RECEITA_LIQUIDA)),
                           AsReal(p, Cell(r, MARGEM_OPERACIONAL)))
  {
    var m := MetricasFinanceirasOut;
    OutShape();
    assert m.fields[RECEITA_OPERACIONAL] == NON_NEGATIVE_FIELD;
    assert m.fields[RECEITA_LIQUIDA] == NON_NEGATIVE_FIELD;
    assert m.fields[MARGEM_OPERACIONAL] == NON_NEGATIVE_FIELD;
    CoercedNumber(m, p, r, RECEITA_OPERACIONAL);
    CoercedNumber(m, p, r, RECEITA_LIQUIDA);
    CoercedNumber(m, p, r, MARGEM_OPERACIONAL);
  }

  lemma OutDisjoint()
    ensures MetricasFinanceirasBase.fields.Keys !! OUT_EXTRA_FIELDS.Keys
  {
    OutShape();
  }

  lemma OutRowSplit(p: Parsers, columns: set<string>, r: Row)
    ensures RowOk(MetricasFinanceirasOut, p, columns, r) <==>
      && CellsOk(MetricasFinanceirasBase.fields, true, p, columns, r)
      && CellsOk(OUT_EXTRA_FIELDS, true, p, columns, r)
      && ChecaMargemOperacional(CoerceRow(MetricasFinanceirasOut, p, r))
  {
    var m := MetricasFinanceirasOut;
    OutDisjoint();
    ExtendCells(MetricasFinanceirasBase, OUT_EXTRA_FIELDS, [TableCheck(MARGIN_CHECK, ChecaMargemOperacional)],
                p, columns, r);
    assert m.fields == Extend(MetricasFinanceirasBase, OUT_EXTRA_FIELDS, [TableCheck(MARGIN_CHECK, ChecaMargemOperacional)]).fields;
    assert m.tableChecks == [TableCheck(MARGIN_CHECK, ChecaMargemOperacional)];
    assert m.tableChecks[0].holds(CoerceRow(m, p, r)) == ChecaMargemOperacional(CoerceRow(m, p, r));
  }

  /** The output contract judges a row by every rule of the input contract, the cells it
      adds, and the margin rule. */
  lemma OutRowIff(p: Parsers, columns: set<string>, r: Row)
    requires columns == OUT_REQUIRED || columns == OUT_REQUIRED + {TRANSFORMADO_EM}
    ensures RowOk(MetricasFinanceirasOut, p, columns, r) <==> OutRowOk(p, TRANSFORMADO_EM in columns, r)
  {
    OutRowSplit(p, columns, r);
    BaseCellsIff(p, columns, r);
    ExtraCellsIff(p, columns, r);
    if BaseRowOk(p, r) && DerivedOk(p, TRANSFORMADO_EM in columns, r) {
      OutMargin(p, r);
    }
  }

  /** The output contract accepts a table exactly when it has the nine required columns,
      with or without transformado_em and nothing else, and every row is accepted. */
  lemma OutConformsIff(p: Parsers, t: Table)
    ensures Conforms(MetricasFinanceirasOut, p, t)
        <==> && (t.columns == OUT_REQUIRED || t.columns == OUT_REQUIRED + {TRANSFORMADO_EM})
             && forall i :: 0 <= i < |t.rows| ==> OutRowOk(p, TRANSFORMADO_EM in t.columns, t.rows[i])
  {
    var m := MetricasFinanceirasOut;
    OutShape();
    assert forall c :: c in m.fields && m.fields[c].required <==> c in OUT_REQUIRED;
    if ColumnSetOk(m, t.columns) {
      if TRANSFORMADO_EM in t.columns {
        assert t.columns == OUT_REQUIRED + {TRANSFORMADO_EM};
      } else {
        assert t.columns == OUT_REQUIRED;
      }
    }
    if t.columns == OUT_REQUIRED || t.columns == OUT_REQUIRED + {TRANSFORMADO_EM} {
      forall i | 0 <= i < |t.rows| {
        OutRowIff(p, t.columns, t.rows[i]);
      }
    }
  }

  // ---------------------------------------------------------------------------
  // What each rule rejects.

  /** The output contract is additive: whatever it accepts has every input column, and every
      row satisfies every rule of the input contract. */
  lemma OutKeepsBaseRules(p: Parsers, t: Table)
    requires Conforms(MetricasFinanceirasOut, p, t)
    ensures BASE_COLUMNS <= t.columns && DERIVED_COLUMNS <= t.columns
    ensures forall i :: 0 <= i < |t.rows| ==> BaseRowOk(p, t.rows[i])
  {
    OutConformsIff(p, t);
  }

  /** Strict mode: one missing or one extra column rejects the table, and the report names
      exactly the missing and the extra columns. */
  lemma StrictColumnSetReported(p: Parsers, t: Table)
    requires t.columns != BASE_COLUMNS
    ensures Reports(MetricasFinanceirasBase, p, t, ColumnSet(BASE_COLUMNS - t.columns, t.columns - BASE_COLUMNS))
  {
    var m := MetricasFinanceirasBase;
    BaseConformsIff(p, t);
    assert !ColumnSetOk(m, t.columns);
    assert ColumnViolations(m, t.columns) != {};
    var v :| v in ColumnViolations(m, t.columns);
    ReportedViolationsAreGenuine(m, p, t, v);
    assert v.missing == BASE_COLUMNS - t.columns;
    assert v.unexpected == t.columns - BASE_COLUMNS;
    assert v == ColumnSet(BASE_COLUMNS - t.columns, t.columns - BASE_COLUMNS);
  }

  /** Every input column is non-nullable: a null anywhere is reported for its row. */
  lemma NullCellReported(p: Parsers, t: Table, i: nat, c: string)
    requires i < |t.rows| && c in BASE_COLUMNS && c in t.columns && Cell(t.rows[i], c) == Missing
    ensures Reports(MetricasFinanceirasBase, p, t, CellViolation(c, i, Null))
  {
    var m := MetricasFinanceirasBase;
    assert !m.fields[c].nullable;
    CellFaultReported(m, p, t, i, c, Null);
  }

  /** A single negative revenue or operating cost anywhere rejects the table. */
  lemma NegativeAmountReported(p: Parsers, t: Table, i: nat, c: string, x: real)
    requires i < |t.rows| && (c == RECEITA_OPERACIONAL || c == CUSTO_OPERACIONAIS) && c in t.columns
    requires AsReal(p, Cell(t.rows[i], c)) == Some(x) && x < 0.0
    ensures Reports(MetricasFinanceirasBase, p, t, CellViolation(c, i, Failed("greater_than_or_equal_to")))
  {
    var m := MetricasFinanceirasBase;
    assert m.fields[c] == NON_NEGATIVE_FIELD;
    assert Coerce(p, Float, true, Cell(t.rows[i], c)) == Some(Number(x));
    CellFaultReported(m, p, t, i, c, Failed("greater_than_or_equal_to"));
  }

  /** The tax percentage must lie in [0, 1]. */
  lemma TaxOutsideUnitRangeReported(p: Parsers, t: Table, i: nat, x: real)
    requires i < |t.rows| && PERCENTUAL_DE_IMPOSTO in t.columns
    requires AsReal(p, Cell(t.rows[i], PERCENTUAL_DE_IMPOSTO)) == Some(x) && (x < 0.0 || x > 1.0)
    ensures Reports(MetricasFinanceirasBase, p, t, CellViolation(PERCENTUAL_DE_IMPOSTO, i, Failed("in_range")))
  {
    var m := MetricasFinanceirasBase;
    assert m.fields[PERCENTUAL_DE_IMPOSTO] == UNIT_RANGE_FIELD;
    assert Coerce(p, Float, true, Cell(t.rows[i], PERCENTUAL_DE_IMPOSTO)) == Some(Number(x));
    CellFaultReported(m, p, t, i, PERCENTUAL_DE_IMPOSTO, Failed("in_range"));
  }

  /** A date that does not parse cannot be coerced, and is reported as a type failure. */
  lemma UnparseableDateReported(p: Parsers, t: Table, i: nat, s: string)
    requires i < |t.rows| && DATA in t.columns
    requires Cell(t.rows[i], DATA) == Text(s) && p.date(s).None?
    ensures Reports(MetricasFinanceirasBase, p, t, CellViolation(DATA, i, WrongType))
  {
    var m := MetricasFinanceirasBase;
    assert m.fields[DATA] == DATE_FIELD;
    CellFaultReported(m, p, t, i, DATA, WrongType);
  }

  /** A sector code without one of the three prefixes is reported under the sector check. */
  lemma UnknownSectorReported(p: Parsers, t: Table, i: nat, s: string)
    requires i < |t.rows| && SETOR_DA_EMPRESA in t.columns
    requires Cell(t.rows[i], SETOR_DA_EMPRESA) == Text(s) && !ChecaCodigoSetor(Text(s))
    ensures Reports(MetricasFinanceirasBase, p, t, CellViolation(SETOR_DA_EMPRESA, i, Failed(SECTOR_CHECK)))
  {
    var m := MetricasFinanceirasBase;
    assert m.fields[SETOR_DA_EMPRESA] == SECTOR_FIELD;
    CellFaultReported(m, p, t, i, SETOR_DA_EMPRESA, Failed(SECTOR_CHECK));
  }

  /** A row whose margin is not exactly net revenue over gross revenue fails the margin rule. */
  lemma MarginMismatchReported(p: Parsers, t: Table, i: nat)
    requires i < |t.rows|
    requires AsReal(p, Cell(t.rows[i], RECEITA_OPERACIONAL)).Some?
    requires AsReal(p, Cell(t.rows[i], RECEITA_LIQUIDA)).Some?
    requires AsReal(p, Cell(t.rows[i], MARGEM_OPERACIONAL)).Some?
    requires !MarginMatches(AsReal(p, Cell(t.rows[i], RECEITA_OPERACIONAL)), AsReal(p, Cell(t.rows[i], RECEITA_LIQUIDA)),
                            AsReal(p, Cell(t.rows[i], MARGEM_OPERACIONAL)))
    ensures Reports(MetricasFinanceirasOut, p, t, TableViolation(MARGIN_CHECK, i))
  {
    OutShape();
    OutMargin(p, t.rows[i]);
    TableCheckReported(MetricasFinanceirasOut, p, t, i, 0);
  }

  // ---------------------------------------------------------------------------
  // What the input validation hands on.

  /** A row as it leaves the input validation: every cell already of its declared type and
      every input rule satisfied. */
  predicate TypedBaseRow(r: Row)
  {
    && Cell(r, SETOR_DA_EMPRESA).Text? && ChecaCodigoSetor(Cell(r, SETOR_DA_EMPRESA))
    && Cell(r, RECEITA_OPERACIONAL).Number? && Cell(r, RECEITA_OPERACIONAL).x >= 0.0
    && Cell(r, DATA).Stamp?
    && Cell(r, PERCENTUAL_DE_IMPOSTO).Number? && 0.0 <= Cell(r, PERCENTUAL_DE_IMPOSTO).x <= 1.0
    && Cell(r, CUSTO_OPERACIONAIS).Number? && Cell(r, CUSTO_OPERACIONAIS).x >= 0.0
  }

  lemma TypedRowAccepted(p: Parsers, r: Row)
    requires TypedBaseRow(r)
    ensures BaseRowOk(p, r)
  {
  }

  predicate ValidatedBase(t: Table)
  {
    t.columns == BASE_COLUMNS && forall i :: 0 <= i < |t.rows| ==> TypedBaseRow(t.rows[i])
  }

  /** A cell the validation accepted is coerced to a value of its kind that passes its checks. */
  lemma AcceptedCell(p: Parsers, f: Field, v: Value, w: Value)
    requires !f.nullable && CellFaults(p, true, f, v) == {} && Coerce(p, f.kind, true, v) == Some(w)
    ensures HasKind(w, f.kind) && forall k :: 0 <= k < |f.checks| ==> Satisfies(f.checks[k], w)
  {
    FailedChecksEmpty(f.checks, w);
  }

  lemma AcceptedRowTyped(p: Parsers, r: Row, u: Row)
    requires BASE_COLUMNS <= r.Keys && CellsOk(MetricasFinanceirasBase.fields, true, p, BASE_COLUMNS, r)
    requires forall c :: c in BASE_COLUMNS ==> c in u && Coerce(p, MetricasFinanceirasBase.fields[c].kind, true, r[c]) == Some(u[c])
    ensures TypedBaseRow(u)
  {
    var m := MetricasFinanceirasBase;
    BaseFields();
    AcceptedCell(p, m.fields[SETOR_DA_EMPRESA], r[SETOR_DA_EMPRESA], u[SETOR_DA_EMPRESA]);
    AcceptedCell(p, m.fields[RECEITA_OPERACIONAL], r[RECEITA_OPERACIONAL], u[RECEITA_OPERACIONAL]);
    AcceptedCell(p, m.fields[DATA], r[DATA], u[DATA]);
    AcceptedCell(p, m.fields[PERCENTUAL_DE_IMPOSTO], r[PERCENTUAL_DE_IMPOSTO], u[PERCENTUAL_DE_IMPOSTO]);
    AcceptedCell(p, m.fields[CUSTO_OPERACIONAIS], r[CUSTO_OPERACIONAIS], u[CUSTO_OPERACIONAIS]);
  }

  /** What the input validation returns has exactly the five input columns, every cell of its
      declared type, and every input rule holding. */
  lemma ValidatedTableIsTyped(p: Parsers, t: Table)
    requires Validate(MetricasFinanceirasBase, p, t).Ok?
    ensures ValidatedBase(Validate(MetricasFinanceirasBase, p, t).value)
  {
    var m := MetricasFinanceirasBase;
    var u := Validate(m, p, t).value;
    BaseFields();
    BaseConformsIff(p, t);
    forall i | 0 <= i < |u.rows|
      ensures TypedBaseRow(u.rows[i])
    {
      var r := t.rows[i];
      assert RowOk(m, p, t.columns, r);
      assert forall c :: c in BASE_COLUMNS ==> !m.fields[c].nullable;
      AcceptedRowTyped(p, r, u.rows[i]);
    }
  }

  /** A typed row passes through coercion unchanged. */
  lemma TypedRowCoercesToItself(p: Parsers, r: Row)
    requires TypedBaseRow(r)
    ensures CoerceRow(MetricasFinanceirasBase, p, r) == r
  {
    var m := MetricasFinanceirasBase;
    BaseFields();
    forall c | c in r
      ensures CoerceCell(m, p, c, r[c]) == r[c]
    {
      if c in m.fields {
        assert HasKind(r[c], m.fields[c].kind);
      }
    }
  }

  /** Validating an already validated table again accepts it and changes nothing: the
      transformer may rely on the input validation having run. */
  lemma TypedTableRevalidates(p: Parsers, t: Table)
    requires ValidatedBase(t)
    ensures Validate(MetricasFinanceirasBase, p, t) == Ok(t)
  {
    var m := MetricasFinanceirasBase;
    forall i | 0 <= i < |t.rows|
      ensures BaseRowOk(p, t.rows[i]) && CoerceRow(m, p, t.rows[i]) == t.rows[i]
    {
      TypedRowCoercesToItself(p, t.rows[i]);
    }
    BaseConformsIff(p, t);
    assert CoerceTable(m, p, t).rows == t.rows;
  }
}
