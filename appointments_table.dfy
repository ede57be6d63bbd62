/**
 * The `appointments` table as the two migration scripts see it: an ordered
 * list of column descriptors and a list of rows, each row mapping column
 * names to a value or NULL. The three SQL statements the scripts issue
 * (PRAGMA table_info, ALTER TABLE ... ADD COLUMN, the updated_at backfill)
 * are specification functions on table values; class `Database` performs
 * them in place. The column step that both scripts share (add
 * `rejection_reason`, then add and backfill `updated_at`, each only if the
 * column was absent from one snapshot of the column list) is `ApplyFields`,
 * performed in place by `Database.AddAppointmentFields`.
 */
module AppointmentsTable {
  import opened Wrappers

  // ---------------------------------------------------------------------
  // Table values
  // ---------------------------------------------------------------------

  /** A stored value; SQLite keeps DATETIME values as text. */
  datatype Value = Integer(i: int) | Text(s: string)

  /** A row: column name to value, `None` standing for NULL. */
  type Row = map<string, Option<Value>>

  /** A column as reported by PRAGMA table_info: its name and declared type. */
  datatype Column = Column(name: string, declaredType: string)

  /** The table, or its absence (`present == false`), with its columns in order and its rows. */
  datatype TableState = TableState(present: bool, columns: seq<Column>, rows: seq<Row>)

  const RejectionReason: string := "rejection_reason"
  const UpdatedAt: string := "updated_at"
  const CreatedAt: string := "created_at"
  const RejectionReasonColumn: Column := Column(RejectionReason, "TEXT")
  const UpdatedAtColumn: Column := Column(UpdatedAt, "DATETIME")

  /** The errors the statements can raise. */
  datatype SqlError = NoSuchTable | DuplicateColumn(name: string) | NoSuchColumn(name: string)

  function Names(columns: seq<Column>): seq<string> {
    seq(|columns|, i requires 0 <= i < |columns| => columns[i].name)
  }

  /** The cell of `row` in column `name`; a row without that key reads as NULL. */
  function Cell(row: Row, name: string): Option<Value> {
    if name in row then row[name] else None
  }

  /**
   * The table's invariant: column names are distinct and every row has
   * exactly the table's columns. SQLite keeps it for every table; `Database`
   * carries it as its class invariant `Valid`.
   */
  ghost predicate WellFormed(t: TableState) {
    && (forall i, j :: 0 <= i < j < |t.columns| ==> t.columns[i].name != t.columns[j].name)
    && (forall k, n :: 0 <= k < |t.rows| ==> (n in t.rows[k] <==> n in Names(t.columns)))
  }

  // ---------------------------------------------------------------------
  // The statements
  // ---------------------------------------------------------------------

  /** PRAGMA table_info(appointments): the columns in order, and no rows at all for a missing table. */
  function TableInfo(t: TableState): seq<Column> {
    if t.present then t.columns else []
  }

  /**
   * ALTER TABLE appointments ADD COLUMN c: fails on a missing table or a
   * name already taken; otherwise appends the column, NULL in every row,
   * and leaves every other cell as it was.
   */
  function AddColumn(t: TableState, c: Column): (r: Result<TableState, SqlError>)
    ensures r.Success? <==> t.present && c.name !in Names(t.columns)
    ensures !t.present ==> r == Failure(NoSuchTable)
    ensures r.Success? ==>
      && r.value.present
      && r.value.columns == t.columns + [c]
      && Names(r.value.columns) == Names(t.columns) + [c.name]
      && |r.value.rows| == |t.rows|
      && forall k, n :: 0 <= k < |t.rows| ==>
           Cell(r.value.rows[k], n) == (if n == c.name then None else Cell(t.rows[k], n))
  {
    if !t.present then Failure(NoSuchTable)
    else if c.name in Names(t.columns) then Failure(DuplicateColumn(c.name))
    else Success(TableState(true, t.columns + [c], seq(|t.rows|, k requires 0 <= k < |t.rows| => t.rows[k][c.name := None])))
  }

  /** One row of the backfill: a NULL `updated_at` takes the row's `created_at`. */
  function BackfillRow(row: Row): Row {
    if Cell(row, UpdatedAt) == None then row[UpdatedAt := Cell(row, CreatedAt)] else row
  }

  /**
   * UPDATE appointments SET updated_at = created_at WHERE updated_at IS NULL:
   * fails unless the table and both columns exist; otherwise exactly the
   * NULL `updated_at` cells change, each to its row's `created_at`.
   */
  function Backfill(t: TableState): (r: Result<TableState, SqlError>)
    ensures r.Success? <==> t.present && UpdatedAt in Names(t.columns) && CreatedAt in Names(t.columns)
    ensures r.Success? ==>
      && r.value.present && r.value.columns == t.columns
      && |r.value.rows| == |t.rows|
      && forall k, n :: 0 <= k < |t.rows| ==>
           Cell(r.value.rows[k], n)
             == (if n == UpdatedAt && Cell(t.rows[k], UpdatedAt) == None then Cell(t.rows[k], CreatedAt)
                 else Cell(t.rows[k], n))
  {
    if !t.present then Failure(NoSuchTable)
    else if CreatedAt !in Names(t.columns) then Failure(NoSuchColumn(CreatedAt))
    else if UpdatedAt !in Names(t.columns) then Failure(NoSuchColumn(UpdatedAt))
    else Success(t.(rows := seq(|t.rows|, k requires 0 <= k < |t.rows| => BackfillRow(t.rows[k]))))
  }

  // ---------------------------------------------------------------------
  // The shared column step
  // ---------------------------------------------------------------------

  /** What one run of the column step leaves: the table, the columns whose ALTER took effect, and the error it stopped on. */
  datatype FieldsRun = FieldsRun(state: TableState, added: seq<string>, error: Option<SqlError>)

  /**
   * One snapshot of the column names; `rejection_reason` added if absent
   * from it; then, if `updated_at` is absent from it, `updated_at` added and
   * backfilled. With the default engine options the driver runs each ALTER
   * outside any transaction, so it takes effect at once; the backfill UPDATE
   * takes effect at the commit right after it, and nothing modelled fails in
   * between. An error stops the run and keeps what the statements before it
   * did, the ALTER of `updated_at` included.
   */
  function ApplyFields(t: TableState): (run: FieldsRun)
    ensures run.state.present == t.present && |run.state.rows| == |t.rows|
    ensures |run.state.columns| == |t.columns| + |run.added|
    ensures run.added == [] ==> run.state == t
    ensures !t.present ==> run.error == Some(NoSuchTable)
  {
    var snapshot := Names(TableInfo(t));
    var first :=
      if RejectionReason in snapshot then FieldsRun(t, [], None)
      else match AddColumn(t, RejectionReasonColumn)
        case Success(t1) => FieldsRun(t1, [RejectionReason], None)
        case Failure(e) => FieldsRun(t, [], Some(e));
    if first.error.Some? || UpdatedAt in snapshot then first
    else match AddColumn(first.state, UpdatedAtColumn)
      case Failure(e) => FieldsRun(first.state, first.added, Some(e))
      case Success(t2) =>
        var added := first.added + [UpdatedAt];
        match Backfill(t2)
        case Success(t3) => FieldsRun(t3, added, None)
        case Failure(e) => FieldsRun(t2, added, Some(e))
  }

  /**
   * Which columns a run adds: each of `rejection_reason` and `updated_at`
   * iff the table exists without it; always in that order. The run fails
   * iff the table is missing, or `updated_at` is missing together with
   * `created_at`, and then on an existing table the backfill is what failed.
   */
  lemma ApplyFieldsAdds(t: TableState)
    ensures var run := ApplyFields(t);
      && (RejectionReason in run.added <==> t.present && RejectionReason !in Names(t.columns))
      && (UpdatedAt in run.added <==> t.present && UpdatedAt !in Names(t.columns))
      && (run.added == [] || run.added == [RejectionReason] || run.added == [UpdatedAt]
          || run.added == [RejectionReason, UpdatedAt])
      && (run.error.None? <==>
            t.present && (UpdatedAt in Names(t.columns) || CreatedAt in Names(t.columns)))
      && (t.present && run.error.Some? ==> run.error == Some(NoSuchColumn(CreatedAt)))
  {
    ColumnNamesDistinct();
    if t.present {
      ApplyFieldsShape(t);
    }
  }

  /**
   * A run on an existing table, case by case: each missing column is
   * appended, in order, and the backfill fails, after the ALTER of
   * `updated_at` took effect, exactly when `created_at` is missing too.
   */
  lemma ApplyFieldsShape(t: TableState)
    requires t.present
    ensures var run := ApplyFields(t);
      var addRejection := RejectionReason !in Names(t.columns);
      var addUpdated := UpdatedAt !in Names(t.columns);
      && run.added == (if addRejection then [RejectionReason] else [])
                      + (if addUpdated then [UpdatedAt] else [])
      && run.state.columns == t.columns + (if addRejection then [RejectionReasonColumn] else [])
                              + (if addUpdated then [UpdatedAtColumn] else [])
      && run.error == (if addUpdated && CreatedAt !in Names(t.columns) then Some(NoSuchColumn(CreatedAt)) else None)
  {
    ColumnNamesDistinct();
    var names := Names(t.columns);
    var first := if RejectionReason in names then t else AddColumn(t, RejectionReasonColumn).value;
    assert first.present;
    assert first.columns == t.columns + (if RejectionReason in names then [] else [RejectionReasonColumn]);
    assert Names(first.columns) == names + (if RejectionReason in names then [] else [RejectionReason]);
    if UpdatedAt !in names {
      assert UpdatedAt !in Names(first.columns);
      var second := AddColumn(first, UpdatedAtColumn).value;
      assert CreatedAt in Names(second.columns) <==> CreatedAt in names;
    }
  }

  /** The three column names the scripts use are different strings. */
  lemma ColumnNamesDistinct()
    ensures RejectionReason != UpdatedAt && RejectionReason != CreatedAt && UpdatedAt != CreatedAt
  {
    assert |RejectionReason| != |UpdatedAt| && |RejectionReason| != |CreatedAt|;
    assert UpdatedAt[0] != CreatedAt[0];
  }

  /**
   * A run is additive: the table's existence and its rows' number are kept,
   * the old columns stay in place and in order, and the new ones follow
   * them, named as `added` says.
   */
  lemma ApplyFieldsKeepsColumns(t: TableState)
    ensures var run := ApplyFields(t);
      && run.state.present == t.present
      && |run.state.rows| == |t.rows|
      && |t.columns| <= |run.state.columns|
      && run.state.columns[..|t.columns|] == t.columns
      && Names(run.state.columns[|t.columns|..]) == run.added
  {
    if t.present {
      ApplyFieldsShape(t);
      AppendedColumns(t.columns, RejectionReason !in Names(t.columns), UpdatedAt !in Names(t.columns));
    }
  }

  /** Appending the columns a run adds keeps the old columns as a prefix; the rest is named in order. */
  lemma AppendedColumns(columns: seq<Column>, addRejection: bool, addUpdated: bool)
    ensures var all := columns + (if addRejection then [RejectionReasonColumn] else [])
                               + (if addUpdated then [UpdatedAtColumn] else []);
      && |columns| <= |all| && all[..|columns|] == columns
      && Names(all[|columns|..]) == (if addRejection then [RejectionReason] else [])
                                    + (if addUpdated then [UpdatedAt] else [])
  {
    var first := if addRejection then [RejectionReasonColumn] else [];
    var second := if addUpdated then [UpdatedAtColumn] else [];
    var all := columns + first + second;
    assert all[|columns|..] == first + second;
    NamesConcat(first, second);
  }

  /**
   * A run changes no cell of a column it did not add; the new
   * `rejection_reason` is NULL in every row; the new `updated_at` holds each
   * row's `created_at` when the backfill ran, and is NULL when it failed.
   */
  lemma ApplyFieldsRows(t: TableState, k: int, n: string)
    requires 0 <= k < |t.rows|
    ensures var run := ApplyFields(t);
      && |run.state.rows| == |t.rows|
      && (n !in run.added ==> Cell(run.state.rows[k], n) == Cell(t.rows[k], n))
      && (n == RejectionReason && n in run.added ==> Cell(run.state.rows[k], n) == None)
      && (n == UpdatedAt && n in run.added ==>
            Cell(run.state.rows[k], n) == if run.error.None? then Cell(t.rows[k], CreatedAt) else None)
  {
    ColumnNamesDistinct();
  }

  /** After a run on an existing table both columns are there, even when the backfill failed. */
  lemma ApplyFieldsEstablishesColumns(t: TableState)
    requires t.present
    ensures RejectionReason in Names(ApplyFields(t).state.columns)
    ensures UpdatedAt in Names(ApplyFields(t).state.columns)
  {
    ApplyFieldsShape(t);
    AppendedNames(t.columns, RejectionReason !in Names(t.columns), UpdatedAt !in Names(t.columns));
  }

  /** The names after appending the columns a run adds. */
  lemma AppendedNames(columns: seq<Column>, addRejection: bool, addUpdated: bool)
    requires addRejection <==> RejectionReason !in Names(columns)
    requires addUpdated <==> UpdatedAt !in Names(columns)
    ensures var names := Names(columns + (if addRejection then [RejectionReasonColumn] else [])
                                       + (if addUpdated then [UpdatedAtColumn] else []));
      RejectionReason in names && UpdatedAt in names
  {
    var first := if addRejection then [RejectionReasonColumn] else [];
    var second := if addUpdated then [UpdatedAtColumn] else [];
    NamesConcat(columns, first);
    NamesConcat(columns + first, second);
    assert Names(first) == if addRejection then [RejectionReason] else [];
    assert Names(second) == if addUpdated then [UpdatedAt] else [];
  }

  lemma NamesConcat(a: seq<Column>, b: seq<Column>)
    ensures Names(a + b) == Names(a) + Names(b)
  {
  }

  /**
   * Idempotence: a second run adds nothing and changes nothing. It raises
   * nothing on an existing table, also after a first run whose backfill
   * failed, since `updated_at` is then already there.
   */
  lemma ApplyFieldsIdempotent(t: TableState)
    ensures var run := ApplyFields(t);
      ApplyFields(run.state) == FieldsRun(run.state, [], if t.present then None else Some(NoSuchTable))
  {
    if t.present {
      ApplyFieldsEstablishesColumns(t);
      RerunWithBothColumns(ApplyFields(t).state);
    }
  }

  /** A run on a table that has both columns changes nothing and raises nothing. */
  lemma RerunWithBothColumns(t: TableState)
    requires t.present && RejectionReason in Names(t.columns) && UpdatedAt in Names(t.columns)
    ensures ApplyFields(t) == FieldsRun(t, [], None)
  {
  }

  lemma AddColumnWellFormed(t: TableState, c: Column)
    requires WellFormed(t) && AddColumn(t, c).Success?
    ensures WellFormed(AddColumn(t, c).value)
  {
    var t1 := AddColumn(t, c).value;
    forall i, j | 0 <= i < j < |t1.columns| ensures t1.columns[i].name != t1.columns[j].name {
      assert Names(t1.columns)[i] == t1.columns[i].name && Names(t1.columns)[j] == t1.columns[j].name;
    }
    forall k, n | 0 <= k < |t1.rows| ensures n in t1.rows[k] <==> n in Names(t1.columns) {
      assert n in t.rows[k] <==> n in Names(t.columns);
    }
  }

  lemma BackfillWellFormed(t: TableState)
    requires WellFormed(t) && Backfill(t).Success?
    ensures WellFormed(Backfill(t).value)
  {
    var t1 := Backfill(t).value;
    forall k, n | 0 <= k < |t1.rows| ensures n in t1.rows[k] <==> n in Names(t1.columns) {
      assert n in t.rows[k] <==> n in Names(t.columns);
      assert UpdatedAt in t.rows[k];
    }
  }

  /** A run keeps the table well formed. */
  lemma ApplyFieldsWellFormed(t: TableState)
    requires WellFormed(t)
    ensures WellFormed(ApplyFields(t).state)
  {
    var snapshot := Names(TableInfo(t));
    var t1 := t;
    if RejectionReason !in snapshot && AddColumn(t, RejectionReasonColumn).Success? {
      AddColumnWellFormed(t, RejectionReasonColumn);
      t1 := AddColumn(t, RejectionReasonColumn).value;
    }
    if UpdatedAt !in snapshot && AddColumn(t1, UpdatedAtColumn).Success? {
      AddColumnWellFormed(t1, UpdatedAtColumn);
      var t2 := AddColumn(t1, UpdatedAtColumn).value;
      if Backfill(t2).Success? {
        BackfillWellFormed(t2);
      }
    }
  }

  // ---------------------------------------------------------------------
  // The table in place
  // ---------------------------------------------------------------------

  /** The database connection, reduced to the one table the scripts touch. */
  class Database {
    var present: bool
    var columns: seq<Column>
    var rows: seq<Row>

    function State(): TableState
      reads this
    {
      TableState(present, columns, rows)
    }

    /** The class invariant: the table is well formed. */
    ghost predicate Valid()
      reads this
    {
      WellFormed(State())
    }

    constructor (initial: TableState)
      requires WellFormed(initial)
      ensures State() == initial && Valid()
    {
      present, columns, rows := initial.present, initial.columns, initial.rows;
    }

    /** PRAGMA table_info(appointments): reads the columns and changes nothing. */
    method TableInfoQuery() returns (result: seq<Column>)
      ensures result == TableInfo(State())
    {
      result := if present then columns else [];
    }

    /** ALTER TABLE appointments ADD COLUMN, in place. */
    method ExecuteAddColumn(c: Column) returns (error: Option<SqlError>)
      requires Valid()
      modifies this
      ensures Valid()
      ensures var r := AddColumn(old(State()), c);
        && (r.Success? ==> error == None && State() == r.value)
        && (r.Failure? ==> error == Some(r.error) && State() == old(State()))
    {
      if !present {
        return Some(NoSuchTable);
      }
      if c.name in Names(columns) {
        return Some(DuplicateColumn(c.name));
      }
      ghost var s0 := State();
      var before := rows;
      columns := columns + [c];
      rows := seq(|before|, k requires 0 <= k < |before| => before[k][c.name := None]);
      error := None;
      AddColumnWellFormed(s0, c);
    }

    /** The `updated_at` backfill UPDATE, in place. */
    method ExecuteBackfill() returns (error: Option<SqlError>)
      requires Valid()
      modifies this
      ensures Valid()
      ensures var r := Backfill(old(State()));
        && (r.Success? ==> error == None && State() == r.value)
        && (r.Failure? ==> error == Some(r.error) && State() == old(State()))
    {
      if !present {
        return Some(NoSuchTable);
      }
      var names := Names(columns);
      if CreatedAt !in names {
        return Some(NoSuchColumn(CreatedAt));
      }
      if UpdatedAt !in names {
        return Some(NoSuchColumn(UpdatedAt));
      }
      ghost var s0 := State();
      var before := rows;
      rows := seq(|before|, k requires 0 <= k < |before| => BackfillRow(before[k]));
      error := None;
      BackfillWellFormed(s0);
    }

    /**
     * The column step both scripts share, in place: one snapshot, then each
     * statement in order, each taking effect at once; an error stops the run.
     */
    method AddAppointmentFields() returns (added: seq<string>, error: Option<SqlError>)
      requires Valid()
      modifies this
      ensures Valid()
      ensures var run := ApplyFields(old(State()));
        State() == run.state && added == run.added && error == run.error
    {
      var info := TableInfoQuery();
      var snapshot := Names(info);
      added, error := [], None;
      if RejectionReason !in snapshot {
        error := ExecuteAddColumn(RejectionReasonColumn);
        if error.Some? {
          return;
        }
        added := [RejectionReason];
      }
      if UpdatedAt !in snapshot {
        error := ExecuteAddColumn(UpdatedAtColumn);
        if error.Some? {
          return;
        }
        added := added + [UpdatedAt];
        error := ExecuteBackfill();
      }
    }
  }
}
