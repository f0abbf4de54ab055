/** The validation engine the contracts are declared against (pandera's DataFrameModel):
    declared fields with per-element checks, whole-table checks evaluated row by row,
    strict and coerce modes, and lazy validation that collects every violation. */
module Schema {
  import opened Frame

  datatype Result<T, E> = Ok(value: T) | Err(error: E)

  datatype Kind = Str | Float | DateTime

  /** Per-element checks. A null cell is never judged by a check (pandera ignores nulls);
      whether a null is allowed at all is the field's `nullable` flag. */
  datatype Check =
    | AtLeast(min: real)                          // pa.Field(ge = min)
    | InRange(min: real, max: real)               // pa.Field(in_range = ...), both ends inclusive
    | Custom(name: string, holds: Value -> bool)  // a @pa.check method, applied element-wise

  /** A @pa.dataframe_check: one boolean per row. */
  datatype TableCheck = TableCheck(name: string, holds: Row -> bool)

  /** A declared column. */
  datatype Field = Field(kind: Kind, required: bool, nullable: bool, checks: seq<Check>)

  datatype DataFrameModel = DataFrameModel(
    fields: map<string, Field>,
    strict: bool,
    coerce: bool,
    tableChecks: seq<TableCheck>)

  /** Subclassing a DataFrameModel: the subclass keeps every field, the Config and every
      check of its parent, and adds its own. */
  function Extend(base: DataFrameModel, fields: map<string, Field>, tableChecks: seq<TableCheck>): (m: DataFrameModel)
    ensures m.fields.Keys == base.fields.Keys + fields.Keys
    ensures forall c :: c in fields ==> m.fields[c] == fields[c]
    ensures forall c :: c in base.fields && c !in fields ==> m.fields[c] == base.fields[c]
    ensures m.strict == base.strict && m.coerce == base.coerce
    ensures |m.tableChecks| == |base.tableChecks| + |tableChecks|
    ensures m.tableChecks[..|base.tableChecks|] == base.tableChecks
    ensures m.tableChecks[|base.tableChecks|..] == tableChecks
  {
    DataFrameModel(base.fields + fields, base.strict, base.coerce, base.tableChecks + tableChecks)
  }

  predicate HasKind(v: Value, k: Kind)
  {
    match v
    case Text(_) => k == Str
    case Number(_) => k == Float
    case Stamp(_) => k == DateTime
    case Missing => false
  }

  /** Casts one cell to the declared kind; None is a type failure. Text is parsed only when
      the model coerces. */
  function Coerce(p: Parsers, k: Kind, coerce: bool, v: Value): (r: Option<Value>)
    ensures v == Missing ==> r == Some(Missing)
    ensures HasKind(v, k) ==> r == Some(v)
    ensures r.Some? && v != Missing ==> HasKind(r.value, k)
    ensures !coerce ==> (r.Some? <==> v == Missing || HasKind(v, k))
  {
    match v
    case Missing => Some(Missing)
    case Text(s) =>
      if k == Str then Some(v)
      else if !coerce then None
      else if k == Float then
        (match p.number(s) case Some(x) => Some(Number(x)) case None => None)
      else
        (match p.date(s) case Some(t) => Some(Stamp(t)) case None => None)
    case Number(_) => if k == Float then Some(v) else None
    case Stamp(_) => if k == DateTime then Some(v) else None
  }

  predicate Satisfies(c: Check, w: Value)
  {
    if w == Missing then true
    else
      match c
      case AtLeast(min) => w.Number? && w.x >= min
      case InRange(lo, hi) => w.Number? && lo <= w.x <= hi
      case Custom(_, holds) => holds(w)
  }

  /** The name pandera reports for a failed check. */
  function CheckName(c: Check): string
  {
    match c
    case AtLeast(_) => "greater_than_or_equal_to"
    case InRange(_, _) => "in_range"
    case Custom(name, _) => name
  }

  datatype Fault = WrongType | Null | Failed(check: string)

  function FailedChecks(checks: seq<Check>, w: Value): (r: set<Fault>)
    ensures forall f :: f in r ==> f.Failed?
  {
    if checks == [] then {}
    else (if Satisfies(checks[0], w) then {} else {Failed(CheckName(checks[0]))}) + FailedChecks(checks[1..], w)
  }

  lemma {:induction false} FailedChecksEmpty(checks: seq<Check>, w: Value)
    ensures FailedChecks(checks, w) == {} <==> forall k :: 0 <= k < |checks| ==> Satisfies(checks[k], w)
  {
    if checks != [] {
      FailedChecksEmpty(checks[1..], w);
      if !Satisfies(checks[0], w) {
        assert Failed(CheckName(checks[0])) in FailedChecks(checks, w);
      }
      if forall k :: 0 <= k < |checks[1..]| ==> Satisfies(checks[1..][k], w) {
        forall k | 0 <= k < |checks| && Satisfies(checks[0], w) ensures Satisfies(checks[k], w) {
          if k > 0 { assert checks[k] == checks[1..][k - 1]; }
        }
      } else {
        var k :| 0 <= k < |checks[1..]| && !Satisfies(checks[1..][k], w);
        assert checks[1..][k] == checks[k + 1];
      }
    }
  }

  /** Everything wrong with one cell of a declared column. */
  function CellFaults(p: Parsers, coerce: bool, f: Field, v: Value): (r: set<Fault>)
    ensures v == Missing ==> (r == {} <==> f.nullable)
    ensures HasKind(v, f.kind) ==> (r == {} <==> forall k :: 0 <= k < |f.checks| ==> Satisfies(f.checks[k], v))
  {
    FailedChecksEmpty(f.checks, v);
    match Coerce(p, f.kind, coerce, v)
    case None => {WrongType}
    case Some(w) =>
      (if w == Missing && !f.nullable then {Null} else {}) + FailedChecks(f.checks, w)
  }

  /** The coerced cell, or the original one where coercion failed (pandera leaves such
      a column as it was). */
  function CoerceCell(m: DataFrameModel, p: Parsers, c: string, v: Value): Value
  {
    if c in m.fields then
      match Coerce(p, m.fields[c].kind, m.coerce, v)
      case Some(w) => w
      case None => v
    else v
  }

  function CoerceRow(m: DataFrameModel, p: Parsers, r: Row): Row
  {
    map c | c in r :: CoerceCell(m, p, c, r[c])
  }

  function CoerceTable(m: DataFrameModel, p: Parsers, t: Table): Table
  {
    Table(t.columns, seq(|t.rows|, i requires 0 <= i < |t.rows| => CoerceRow(m, p, t.rows[i])))
  }

  /** Required fields are present and, under strict mode, nothing else is. */
  predicate ColumnSetOk(m: DataFrameModel, columns: set<string>)
  {
    && (forall c :: c in m.fields && m.fields[c].required ==> c in columns)
    && (m.strict ==> columns <= m.fields.Keys)
  }

  /** Every present declared cell is free of faults and every table check holds on the
      coerced row. */
  predicate RowOk(m: DataFrameModel, p: Parsers, columns: set<string>, r: Row)
  {
    && CellsOk(m.fields, m.coerce, p, columns, r)
    && (forall k :: 0 <= k < |m.tableChecks| ==> m.tableChecks[k].holds(CoerceRow(m, p, r)))
  }

  /** Every present cell of the given fields is free of faults. */
  predicate CellsOk(fields: map<string, Field>, coerce: bool, p: Parsers, columns: set<string>, r: Row)
  {
    forall c :: c in columns && c in fields ==> CellFaults(p, coerce, fields[c], Cell(r, c)) == {}
  }

  /** The table satisfies the model: one failing row anywhere makes the whole table fail. */
  predicate Conforms(m: DataFrameModel, p: Parsers, t: Table)
  {
    && ColumnSetOk(m, t.columns)
    && forall i :: 0 <= i < |t.rows| ==> RowOk(m, p, t.columns, t.rows[i])
  }

  datatype Violation =
    | ColumnSet(missing: set<string>, unexpected: set<string>)
    | CellViolation(column: string, row: nat, fault: Fault)
    | TableViolation(check: string, row: nat)

  function ColumnViolations(m: DataFrameModel, columns: set<string>): set<Violation>
  {
    if ColumnSetOk(m, columns) then {}
    else
      var missing := set c | c in m.fields && m.fields[c].required && c !in columns;
      var unexpected := if m.strict then columns - m.fields.Keys else {};
      {ColumnSet(missing, unexpected)}
  }

  function CellViolations(m: DataFrameModel, p: Parsers, t: Table): set<Violation>
  {
    set i: nat, c, f | i < |t.rows| && c in t.columns && c in m.fields
                       && f in CellFaults(p, m.coerce, m.fields[c], Cell(t.rows[i], c))
      :: CellViolation(c, i, f)
  }

  function TableViolations(m: DataFrameModel, p: Parsers, t: Table): set<Violation>
  {
    set i: nat, k | i < |t.rows| && 0 <= k < |m.tableChecks|
                    && !m.tableChecks[k].holds(CoerceRow(m, p, t.rows[i]))
      :: TableViolation(m.tableChecks[k].name, i)
  }

  /** Lazy validation: every violation of every row and rule, not just the first. */
  function Violations(m: DataFrameModel, p: Parsers, t: Table): set<Violation>
  {
    ColumnViolations(m, t.columns) + CellViolations(m, p, t) + TableViolations(m, p, t)
  }

  lemma NoViolationsIffConforms(m: DataFrameModel, p: Parsers, t: Table)
    ensures Violations(m, p, t) == {} <==> Conforms(m, p, t)
  {
    if !Conforms(m, p, t) {
      if !ColumnSetOk(m, t.columns) {
        assert ColumnViolations(m, t.columns) != {};
      } else {
        var i :| 0 <= i < |t.rows| && !RowOk(m, p, t.columns, t.rows[i]);
        if !CellsOk(m.fields, m.coerce, p, t.columns, t.rows[i]) {
          var c :| c in t.columns && c in m.fields && CellFaults(p, m.coerce, m.fields[c], Cell(t.rows[i], c)) != {};
          var f :| f in CellFaults(p, m.coerce, m.fields[c], Cell(t.rows[i], c));
          assert CellViolation(c, i, f) in CellViolations(m, p, t);
        } else {
          var k :| 0 <= k < |m.tableChecks| && !m.tableChecks[k].holds(CoerceRow(m, p, t.rows[i]));
          assert TableViolation(m.tableChecks[k].name, i) in TableViolations(m, p, t);
        }
      }
    }
  }

  /** Validates `t` against `m`. On success the result is the coerced input; on failure it
      carries every violation found. */
  function Validate(m: DataFrameModel, p: Parsers, t: Table): (r: Result<Table, set<Violation>>)
    ensures r.Ok? <==> Conforms(m, p, t)
    ensures r.Err? ==> r.error == Violations(m, p, t) && r.error != {}
    ensures r.Ok? ==> r.value.columns == t.columns && |r.value.rows| == |t.rows|
    ensures r.Ok? ==> forall i :: 0 <= i < |t.rows| ==> r.value.rows[i].Keys == t.rows[i].Keys
    ensures r.Ok? ==> forall i, c :: 0 <= i < |t.rows| && c in t.rows[i] ==>
      && (c in t.columns && c in m.fields ==> Coerce(p, m.fields[c].kind, m.coerce, t.rows[i][c]) == Some(r.value.rows[i][c]))
      && (c !in m.fields ==> r.value.rows[i][c] == t.rows[i][c])
  {
    NoViolationsIffConforms(m, p, t);
    var violations := Violations(m, p, t);
    if violations == {} then
      assert forall i, c :: 0 <= i < |t.rows| && c in t.rows[i] && c in t.columns && c in m.fields ==>
        CellFaults(p, m.coerce, m.fields[c], Cell(t.rows[i], c)) == {};
      Ok(CoerceTable(m, p, t))
    else Err(violations)
  }

  /** The check_output decorator: validate what the decorated function returned and, when it
      passes, hand back the function's own table rather than the coerced copy. */
  method CheckOutput(m: DataFrameModel, p: Parsers, t: Table) returns (r: Result<Table, set<Violation>>)
    ensures r.Ok? <==> Conforms(m, p, t)
    ensures r.Ok? ==> r.value == t
    ensures r.Err? ==> r.error == Violations(m, p, t) && r.error != {}
  {
    var checked := Validate(m, p, t);
    if checked.Ok? {
      r := Ok(t);
    } else {
      r := Err(checked.error);
    }
  }

  /** The row a violation points at; a column-set violation concerns the whole table. */
  function RowOf(v: Violation): Option<nat>
  {
    match v
    case ColumnSet(_, _) => None
    case CellViolation(_, i, _) => Some(i)
    case TableViolation(_, i) => Some(i)
  }

  /** Lazy validation misses nothing: every failing row is cited by some violation. */
  lemma EveryFailingRowReported(m: DataFrameModel, p: Parsers, t: Table, i: nat)
    requires i < |t.rows| && !RowOk(m, p, t.columns, t.rows[i])
    ensures exists v :: v in Violations(m, p, t) && RowOf(v) == Some(i)
  {
    if !CellsOk(m.fields, m.coerce, p, t.columns, t.rows[i]) {
      var c :| c in t.columns && c in m.fields && CellFaults(p, m.coerce, m.fields[c], Cell(t.rows[i], c)) != {};
      var f :| f in CellFaults(p, m.coerce, m.fields[c], Cell(t.rows[i], c));
      assert CellViolation(c, i, f) in CellViolations(m, p, t);
      assert RowOf(CellViolation(c, i, f)) == Some(i);
    } else {
      var k :| 0 <= k < |m.tableChecks| && !m.tableChecks[k].holds(CoerceRow(m, p, t.rows[i]));
      assert TableViolation(m.tableChecks[k].name, i) in TableViolations(m, p, t);
      assert RowOf(TableViolation(m.tableChecks[k].name, i)) == Some(i);
    }
  }

  /** Lazy validation reports nothing spurious: each violation names a real failure. */
  lemma ReportedViolationsAreGenuine(m: DataFrameModel, p: Parsers, t: Table, v: Violation)
    requires v in Violations(m, p, t)
    ensures v.ColumnSet? ==> (
      && !ColumnSetOk(m, t.columns)
      && (forall c :: c in v.missing <==> c in m.fields && m.fields[c].required && c !in t.columns)
      && (forall c :: c in v.unexpected <==> m.strict && c in t.columns && c !in m.fields))
    ensures v.CellViolation? ==> (
      && v.row < |t.rows| && v.column in t.columns && v.column in m.fields
      && v.fault in CellFaults(p, m.coerce, m.fields[v.column], Cell(t.rows[v.row], v.column)))
    ensures v.TableViolation? ==> (
      && v.row < |t.rows|
      && exists k :: 0 <= k < |m.tableChecks| && m.tableChecks[k].name == v.check
                     && !m.tableChecks[k].holds(CoerceRow(m, p, t.rows[v.row])))
    ensures RowOf(v).Some? ==> RowOf(v).value < |t.rows| && !RowOk(m, p, t.columns, t.rows[RowOf(v).value])
  {
  }

  lemma CoerceCellIdempotent(m: DataFrameModel, p: Parsers, c: string, v: Value)
    ensures CoerceCell(m, p, c, CoerceCell(m, p, c, v)) == CoerceCell(m, p, c, v)
  {
  }

  /** Validating the table a successful validation returned succeeds again and returns
      it unchanged: coercion is a fixpoint on its own output. */
  lemma RevalidationIsIdentity(m: DataFrameModel, p: Parsers, t: Table)
    requires Conforms(m, p, t)
    ensures Validate(m, p, CoerceTable(m, p, t)) == Ok(CoerceTable(m, p, t))
  {
    var u := CoerceTable(m, p, t);
    forall i | 0 <= i < |t.rows| ensures CoerceRow(m, p, u.rows[i]) == u.rows[i] {
      forall c | c in u.rows[i] ensures CoerceCell(m, p, c, u.rows[i][c]) == u.rows[i][c] {
        CoerceCellIdempotent(m, p, c, t.rows[i][c]);
      }
    }
    assert CoerceTable(m, p, u) == u;
    forall i | 0 <= i < |u.rows| ensures RowOk(m, p, u.columns, u.rows[i]) {
      var r := t.rows[i];
      assert RowOk(m, p, t.columns, r);
      forall c | c in u.columns && c in m.fields
        ensures CellFaults(p, m.coerce, m.fields[c], Cell(u.rows[i], c)) == {}
      {
        assert CellFaults(p, m.coerce, m.fields[c], Cell(r, c)) == {};
      }
    }
  }

  /** A model extended with fields of new names judges the inherited fields exactly as the
      parent does and the new fields on their own. */
  lemma ExtendCells(base: DataFrameModel, fields: map<string, Field>, tableChecks: seq<TableCheck>,
                    p: Parsers, columns: set<string>, r: Row)
    requires base.fields.Keys !! fields.Keys
    ensures CellsOk(Extend(base, fields, tableChecks).fields, base.coerce, p, columns, r)
        <==> CellsOk(base.fields, base.coerce, p, columns, r) && CellsOk(fields, base.coerce, p, columns, r)
  {
    var all := Extend(base, fields, tableChecks).fields;
    if CellsOk(base.fields, base.coerce, p, columns, r) && CellsOk(fields, base.coerce, p, columns, r) {
      forall c | c in columns && c in all ensures CellFaults(p, base.coerce, all[c], Cell(r, c)) == {} {
        if c in fields {
          assert all[c] == fields[c];
        } else {
          assert all[c] == base.fields[c];
        }
      }
    }
    if CellsOk(all, base.coerce, p, columns, r) {
      forall c | c in columns && c in base.fields ensures CellFaults(p, base.coerce, base.fields[c], Cell(r, c)) == {} {
        assert c !in fields && all[c] == base.fields[c];
      }
      forall c | c in columns && c in fields ensures CellFaults(p, base.coerce, fields[c], Cell(r, c)) == {} {
        assert all[c] == fields[c];
      }
    }
  }

  /** A faulty cell of a present declared column is reported, with its row and fault. */
  lemma CellFaultReported(m: DataFrameModel, p: Parsers, t: Table, i: nat, c: string, f: Fault)
    requires i < |t.rows| && c in t.columns && c in m.fields
    requires f in CellFaults(p, m.coerce, m.fields[c], Cell(t.rows[i], c))
    ensures Reports(m, p, t, CellViolation(c, i, f))
  {
    assert CellViolation(c, i, f) in CellViolations(m, p, t);
  }

  /** A row failing a table check is reported under the check's name. */
  lemma TableCheckReported(m: DataFrameModel, p: Parsers, t: Table, i: nat, k: nat)
    requires i < |t.rows| && k < |m.tableChecks| && !m.tableChecks[k].holds(CoerceRow(m, p, t.rows[i]))
    ensures Reports(m, p, t, TableViolation(m.tableChecks[k].name, i))
  {
    assert TableViolation(m.tableChecks[k].name, i) in TableViolations(m, p, t);
  }

  /** Validation fails and its report contains `v`. */
  predicate Reports(m: DataFrameModel, p: Parsers, t: Table, v: Violation)
  {
    Validate(m, p, t).Err? && v in Validate(m, p, t).error
  }
}
