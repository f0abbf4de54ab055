# Financial metrics pipeline: input and output data contracts

A Dafny model of a small ETL job for corporate financial records. Raw rows carry a company
sector code, an operating revenue, a date, a tax percentage and an operating cost. The job
validates them against an input data contract, `MetricasFinanceirasBase`. It then appends tax,
total cost, net revenue, operating margin and a processing timestamp. Before the result is
handed on, it is validated against an output contract, `MetricasFinanceirasOut`.

Both contracts are pandera `DataFrameModel`s. The model has five modules:

- `Frame` (`frame.dfy`) holds tables. A table is a set of column names and a sequence of rows.
  A row maps column names to cells: null, text, an exact real, or a timestamp. A cell the row
  lacks reads as null.
- `Schema` (`schema.dfy`) is the part of pandera these contracts rely on:
  - typed fields that are required and non-nullable by default;
  - element checks (`ge`, `in_range`, custom checks) that ignore nulls;
  - whole-table checks judged row by row;
  - the `strict` and `coerce` settings;
  - lazy validation, which returns the coerced table or the set of every violation;
  - the `check_output` decorator.
- `Contrato` (`contrato.dfy`) holds:
  - the two contracts;
  - the sector-code check and the margin check;
  - a plain per-row reading of each contract (`BaseRowOk`, `OutRowOk`), proved equivalent to
    what validation decides;
  - lemmas saying which violation each broken rule produces.
- `ContratoTests` (`contrato_tests.dfy`) restates the tables of the repository's contract
  tests and proves each test's outcome.
- `Etl` (`etl.dfy`) holds the validation step of `extrai_dados` and `transforma_dados`:
  - `transforma_dados` is a method that assigns the derived columns one at a time on a copy
    of the rows, then applies the output check;
  - the main theorem, `OutputContractIff`: the output check passes exactly when every row
    has a positive revenue that covers tax plus operating costs.

Text-to-number and text-to-date parsing is a parameter (`Parsers`). The processing time is a
parameter (`now`). Numbers are exact reals.

Two readings of the code that the model fixes:

- `transformado_em` is declared `Optional[pa.DateTime]` (src/contrato.py:29). pandera reads
  that as a column that may be absent, not as a nullable column, so the model makes it not
  required and not nullable.
- When input validation fails, `extrai_dados` prints the report and returns `None`
  (src/etl.py:16-18); `ExtraiDados` returns `None` there. The driver then passes that `None`
  to `transforma_dados` (src/etl.py:53-54), whose `df.copy()` (src/etl.py:23) fails, so the
  job stops one step later. `TransformaDados` is only defined on accepted tables.

## Model

| member | source | states |
|---|---|---|
| Schema.Coerce | src/contrato.py:13-15 | nulls pass through; a value already of the declared type is kept; any other successful result has the declared type; without coercion only nulls and already-typed values pass |
| Schema.FailedChecksEmpty | src/contrato.py:8-11 | a cell has no failed check exactly when every declared check holds on it |
| Schema.CellFaults | src/contrato.py:7-11 | a null cell is fault-free exactly when its field is nullable; a cell already of its type is fault-free exactly when every check holds |
| Schema.NoViolationsIffConforms | src/etl.py:14 | the lazy report is empty exactly when the table satisfies the model |
| Schema.Validate | src/etl.py:14 | success exactly when the table satisfies the model; a failure carries the whole lazy report, which is non-empty; success keeps the column set, row count, row order and row keys, coerces each declared cell and leaves undeclared cells alone |
| Schema.CheckOutput | src/etl.py:21 | the decorator passes exactly when the returned table satisfies the model, then hands back that same table (not the coerced copy); otherwise it reports every violation |
| Schema.EveryFailingRowReported | src/etl.py:14 | lazy validation cites every failing row |
| Schema.ReportedViolationsAreGenuine | src/etl.py:14 | every reported violation names a real failure: the exact missing and unexpected columns, a present declared cell with that fault, or a row failing that table check |
| Schema.CoerceCellIdempotent | src/contrato.py:15 | coercing an already coerced cell changes nothing |
| Schema.RevalidationIsIdentity | src/contrato.py:13-15 | validating the table a successful validation returned succeeds and returns it unchanged |
| Schema.Extend | src/contrato.py:24 | a subclass has its parent's fields and its own, its own taking precedence; it keeps the parent's strict and coerce settings; its table checks are the parent's followed by its own |
| Schema.ExtendCells | src/contrato.py:24 | a subclass judges the inherited fields as its parent does and its own fields on their own |
| Schema.CellFaultReported | src/etl.py:14 | a faulty cell of a present declared column is reported with its column, row and fault |
| Schema.TableCheckReported | src/contrato.py:31-33 | a row failing a table check is reported under the check's name and the row's index |
| Contrato.ChecaCodigoSetor | src/contrato.py:17-22 | a sector cell passes exactly when it is text of at least four characters whose first four are `REP_`, `MNT_` or `VND_` |
| Contrato.SectorCell | src/contrato.py:7 | a sector cell is accepted exactly when the sector check accepts it |
| Contrato.NonNegativeCell | src/contrato.py:8 | a `ge=0` cell is accepted exactly when it reads as a number that is at least 0 |
| Contrato.UnitRangeCell | src/contrato.py:10 | the tax cell is accepted exactly when it reads as a number in [0, 1], both ends included |
| Contrato.DateCell | src/contrato.py:9 | a non-nullable date cell is accepted exactly when it is, or parses as, a timestamp |
| Contrato.BaseFields | src/contrato.py:6-11 | the input contract declares exactly the five columns, with their types and checks |
| Contrato.BaseCellsIff | src/contrato.py:6-22 | with all five columns present, the cells of a row pass exactly when the row satisfies every input rule |
| Contrato.BaseRowIff | src/contrato.py:6-22 | a row of the input contract passes exactly when it satisfies every input rule |
| Contrato.BaseConformsIff | src/contrato.py:6-22 | the input contract accepts a table exactly when its columns are the five declared ones and every row satisfies every input rule |
| Contrato.CoercedNumber | src/contrato.py:15 | coercion turns a cell that reads as a number into that number |
| Contrato.OutShape | src/contrato.py:24-33 | the output contract has the ten declared columns, inherits strict and coerce, and has one table check, the margin rule |
| Contrato.ExtraFields | src/contrato.py:25-29 | the output contract's own columns: four `ge=0` numbers and an optional timestamp |
| Contrato.ExtraCellsIff | src/contrato.py:25-29 | the added cells pass exactly when the four derived amounts are numbers at least 0 and, if the timestamp column is present, it holds a timestamp |
| Contrato.ChecaMargemOperacional | src/contrato.py:31-33 | when revenue, net revenue and margin are all numbers, the row passes exactly when revenue is non-zero and margin × revenue equals net revenue; a row with any of the three not a number passes (nulls are not judged) |
| Contrato.OutMargin | src/contrato.py:31-33 | on a row whose three cells read as numbers, the margin check holds exactly when revenue is non-zero and margin equals net revenue over revenue |
| Contrato.OutDisjoint | src/contrato.py:24-29 | the output contract's own columns do not redeclare inherited ones |
| Contrato.OutRowSplit | src/contrato.py:24-33 | an output row passes exactly when its inherited cells, its added cells and the margin check all pass |
| Contrato.OutRowIff | src/contrato.py:24-33 | an output row passes exactly when it satisfies every input rule, the added-column rules and the margin rule |
| Contrato.OutConformsIff | src/contrato.py:24-33 | the output contract accepts a table exactly when its columns are the nine required ones, with or without `transformado_em`, and every row satisfies every output rule |
| Contrato.OutKeepsBaseRules | src/contrato.py:24 | the extension is additive: anything the output contract accepts has every input column and satisfies every input rule |
| Contrato.StrictColumnSetReported | src/contrato.py:13-14 | any column set other than the declared one is rejected, and the report names exactly the missing and the extra columns |
| Contrato.NullCellReported | src/contrato.py:7-11 | a null in any input column is reported as a null fault for that row |
| Contrato.NegativeAmountReported | src/contrato.py:8-11 | a single negative revenue or operating cost in any row is reported as a failed `greater_than_or_equal_to` check |
| Contrato.TaxOutsideUnitRangeReported | src/contrato.py:10 | a tax percentage below 0 or above 1 is reported as a failed `in_range` check |
| Contrato.UnparseableDateReported | src/contrato.py:9 | a date that does not parse is reported as a type fault |
| Contrato.UnknownSectorReported | src/contrato.py:17-22 | a sector code without an accepted prefix is reported under the sector check's name |
| Contrato.MarginMismatchReported | src/contrato.py:31-33 | a row whose margin is not exactly net revenue over revenue is reported under the margin check |
| Contrato.AcceptedCell | src/contrato.py:13-15 | a cell validation accepted is coerced to a value of its type that passes its checks |
| Contrato.AcceptedRowTyped | src/contrato.py:6-15 | an accepted row comes out of coercion typed, with every input rule holding |
| Contrato.ValidatedTableIsTyped | src/etl.py:14-15 | what the input validation returns has exactly the five columns, every cell of its type, and every input rule holding |
| Contrato.TypedRowCoercesToItself | src/contrato.py:15 | coercion leaves a typed row unchanged |
| Contrato.TypedRowAccepted | src/contrato.py:6-22 | a typed row that meets the input rules is accepted |
| Contrato.TypedTableRevalidates | src/contrato.py:13-15 | validating an already validated table again accepts it unchanged |
| ContratoTests.InputTableWellFormed | tests/test_contrato_in.py:12-21 | every three-row input table of the tests has exactly the five input columns in each row |
| ContratoTests.CorrectRow | tests/test_contrato_in.py:12-21 | a correct test row satisfies every input rule |
| ContratoTests.CorrectInputAccepted | tests/test_contrato_in.py:12-21 | the correct three-row table is accepted, given that "2023-01-01" parses |
| ContratoTests.ExtraColumnRejected | tests/test_contrato_in.py:23-34 | the well-formed table with an extra column of zeros is reported as having that one unexpected column |
| ContratoTests.MissingColumnRejected | tests/test_contrato_in.py:36-46 | the well-formed table without `setor_da_empresa` and with an extra column of zeros is reported as one missing and one unexpected column |
| ContratoTests.MissingSectorRejected | tests/test_contrato_in.py:48-58 | a null sector code is reported as a null fault in row 0 |
| ContratoTests.InvalidSectorRejected | tests/test_contrato_in.py:60-70 | `AAA_X7Y8Z9` is reported under the sector check in row 0 |
| ContratoTests.NegativeRevenueRejected | tests/test_contrato_in.py:72-82 | revenue -1000 is reported as a failed `greater_than_or_equal_to` check |
| ContratoTests.InvalidDateRejected | tests/test_contrato_in.py:84-94 | "data invalida" is reported as a type fault when it does not parse |
| ContratoTests.TaxAboveOneRejected | tests/test_contrato_in.py:96-106 | tax 1.1 is reported as a failed `in_range` check |
| ContratoTests.NegativeCostsRejected | tests/test_contrato_in.py:108-118 | operating cost -200 is reported as a failed `greater_than_or_equal_to` check |
| ContratoTests.OutputTableWellFormed | tests/test_contrato_out.py:12-25 | every three-row output table of the tests has exactly the nine required output columns in each row |
| ContratoTests.StampKeepsRowOk | src/contrato.py:29 | filling the optional timestamp with a parseable date keeps an accepted row accepted |
| ContratoTests.CorrectOutputAccepted | tests/test_contrato_out.py:12-25 | the correct output table without `transformado_em` is accepted |
| ContratoTests.CorrectStampedOutputAccepted | tests/test_contrato_out.py:27-41 | the same table with a text `transformado_em` column is accepted |
| ContratoTests.MissingOutputColumnRejected | tests/test_contrato_out.py:43-56 | the well-formed table without `custo_total` is rejected |
| ContratoTests.ExtraOutputColumnRejected | tests/test_contrato_out.py:58-74 | the well-formed table with an extra column of zeros is rejected |
| ContratoTests.MissingNetRevenueRejected | tests/test_contrato_out.py:76-91 | a null net revenue is rejected |
| ContratoTests.MarginOfFiftyRejected | tests/test_contrato_out.py:93-108 | margin 50 where the ratio is 0.7 is reported under the margin check in row 0 |
| Etl.ExtraiDados | src/etl.py:10-18 | a table comes back exactly when the input contract accepts it, which is exactly when the report is empty; what comes back is the coerced input, is typed, satisfies every input rule, keeps the row count and stays well formed |
| Etl.AssignColumn | src/etl.py:24-28 | a column assignment sets that one column of every row from the row's own cells and changes nothing else |
| Etl.AddDerivedColumns | src/etl.py:23-28 | the five assignments, run in order on a copy, turn each row into its derived row |
| Etl.TransformaDados | src/etl.py:21-30 | passes exactly when every row's revenue is positive and covers tax plus operating costs; on success returns the transformed table, which the output contract accepts; on failure returns exactly the output contract's violations |
| Etl.DeriveRow | src/etl.py:24-28 | a derived row has the original row's columns plus the five added ones, keeps every original cell outside the added columns, and carries the timestamp `now` |
| Etl.Transformed | src/etl.py:23-30 | the result has the input's columns plus the five added ones and the same number of rows, each row gaining exactly the added columns; a well-formed input gives a well-formed result |
| Etl.DeriveRowCells | src/etl.py:23-28 | original cells are unchanged; tax = tax percentage × revenue; total cost = tax + operating cost; net revenue = revenue − total cost; margin = net revenue / revenue (null when revenue is 0); the timestamp is `now` |
| Etl.TransformedKeepsInput | src/etl.py:23-30 | the result has the input's rows in the same order with every original cell unchanged, plus the five new columns, and one timestamp for the whole batch |
| Etl.MarginByConstruction | src/etl.py:27 | with a positive revenue, the computed margin satisfies the output contract's margin rule |
| Etl.DerivedRowOk | src/etl.py:24-28 | a transformed row satisfies the output contract exactly when its revenue is positive and covers tax plus operating costs |
| Etl.OutputContractIff | src/etl.py:21-30 | the output check on the transformed table passes exactly when every row's revenue is positive and covers tax plus operating costs |
| Etl.ZeroRevenueRejected | src/etl.py:27 | a zero revenue, which the input contract accepts, makes the output check reject the whole table |
| Etl.WorkedExample | src/etl.py:24-27 | revenue 1000, tax 0.1 and operating cost 200 give tax 100, total cost 300, net revenue 700 and margin 0.7 |

## Left out

- Reading the CSV file in `extrai_dados` (src/etl.py:11) is file I/O. The model starts from the table that `pd.read_csv` returns.
- Printing the validation report in `extrai_dados` (src/etl.py:16-18) is console output. `ExtraiDados` returns `None` where the source prints and returns `None`.
- `carrega_dados` (src/etl.py:32-49) is left out: environment lookup, a database engine and `to_sql` are I/O against an external store.
- The `__main__` driver (src/etl.py:51-55) is glue between the three stages and is left out.
- `datetime.now()` (src/etl.py:28) is a clock, so it becomes the parameter `now`.
- Text-to-number and text-to-date parsing are pandas internals, so they become the `Parsers` parameter.
- Floating-point rounding is not modelled; numbers are exact reals. The margin rule is therefore checked on exact quotients.
- Etl.Over: a division by a zero revenue gives NaN (0/0) or -inf in pandas; both are modelled as a null. On validated input the net revenue is then never positive, so the output check rejects the table either way. Where pandas would report a failed `greater_than_or_equal_to` check on -inf, the model reports a null fault instead.
- Etl.TransformaDados: modelled only on tables the input contract accepted (`ValidatedBase`). The pipeline's only call passes the result of `extrai_dados`. On other tables pandas would raise, or produce infinities that the model does not represent.
- Schema.Coerce: coercing a number or a timestamp to text, and a number to a timestamp, is modelled as a type failure. pandas would produce a string or an epoch timestamp. For these contracts the only text column also carries the sector check, which rejects any such string.
- Schema.Validate: the report is a set of violations, each naming a column, row and fault (or the column-set mismatch). The ordering, failure-case values and message texts of pandera's `SchemaErrors` are not modelled. Nor is the difference between `SchemaError` (eager) and `SchemaErrors` (lazy).
- Contrato.ChecaMargemOperacional: a row where revenue, net revenue or margin is null, or is text that did not coerce, is not judged by the margin rule. This follows pandera ignoring nulls in checks. The non-nullable columns reject such a row anyway, so only the contents of the report can differ from pandera's.
- The custom error message of the sector check (src/contrato.py:20) is display text and is not modelled.
- A table is a set of columns and a sequence of rows; a row may lack a cell for one of the columns, read as null. Tables pandas builds are `WellFormed` (every row has exactly the table's columns); the validation and transformation results keep that property, and the test tables are built well formed.
- Column order, dtypes beyond the four cell kinds, and the pandas index are not modelled.
