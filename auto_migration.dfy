/**
 * The unattended migration script: it runs the shared column step at once,
 * tracks whether any column was added (`changes_made`), reports "completed"
 * or "already up to date", and exits with status 1 on any error.
 */
module AutoMigration {
  import opened AppointmentsTable

  /** How a run ends: columns added, nothing to do, or an error (exit status 1). */
  datatype Outcome = Completed | UpToDate | Failed(error: SqlError)

  function ExitStatus(outcome: Outcome): int {
    if outcome.Failed? then 1 else 0
  }

  /**
   * The final table and the outcome of one run on table `t`: "up to date"
   * leaves the table as it was, "completed" has added columns.
   */
  function AutoMigrate(t: TableState): (r: (TableState, Outcome))
    ensures r.0.present == t.present && |r.0.rows| == |t.rows|
    ensures r.1 == UpToDate ==> r.0 == t
    ensures r.1 == Completed ==> |r.0.columns| > |t.columns|
  {
    var run := ApplyFields(t);
    var changesMade := run.added != [];
    (run.state, if run.error.Some? then Failed(run.error.value) else if changesMade then Completed else UpToDate)
  }

  /** `migrate_database`, in place on the connection's table. */
  method MigrateDatabase(db: Database) returns (outcome: Outcome)
    requires db.Valid()
    modifies db
    ensures db.Valid()
    ensures (db.State(), outcome) == AutoMigrate(old(db.State()))
  {
    var added, error := db.AddAppointmentFields();
    var changesMade := added != [];
    if error.Some? {
      return Failed(error.value);
    }
    outcome := if changesMade then Completed else UpToDate;
  }

  /**
   * "Completed" is reported exactly when the run raised nothing and added a
   * column, "up to date" exactly when both columns were already there, and
   * the exit status is 1 exactly on an error.
   */
  lemma OutcomeReflectsChanges(t: TableState)
    ensures var (t', outcome) := AutoMigrate(t);
      && (outcome == Completed <==> !outcome.Failed? && ApplyFields(t).added != [])
      && (outcome == UpToDate <==>
            t.present && RejectionReason in Names(t.columns) && UpdatedAt in Names(t.columns))
      && (ExitStatus(outcome) == 1 <==> ApplyFields(t).error.Some?)
  {
    ApplyFieldsAdds(t);
  }

  /** A missing table: nothing changes and the script exits with status 1. */
  lemma MissingTableFails(t: TableState)
    requires !t.present
    ensures AutoMigrate(t) == (t, Failed(NoSuchTable))
  {
  }

  /**
   * When `created_at` is missing as well, the ALTER of `updated_at` takes
   * effect before the backfill fails: both columns stay, `updated_at` is
   * NULL in every row, and the script exits with status 1.
   */
  lemma FailedBackfillKeepsBothColumns(t: TableState, k: int)
    requires t.present
    requires RejectionReason !in Names(t.columns)
    requires UpdatedAt !in Names(t.columns) && CreatedAt !in Names(t.columns)
    requires 0 <= k < |t.rows|
    ensures AutoMigrate(t).0.columns == t.columns + [RejectionReasonColumn, UpdatedAtColumn]
    ensures Cell(AutoMigrate(t).0.rows[k], UpdatedAt).None?
    ensures AutoMigrate(t).1 == Failed(NoSuchColumn(CreatedAt))
    ensures ExitStatus(AutoMigrate(t).1) == 1
  {
    ApplyFieldsShape(t);
    ApplyFieldsAdds(t);
    ApplyFieldsRows(t, k, UpdatedAt);
  }

  /**
   * Running the script a second time changes nothing; on an existing table
   * it reports "up to date", also after a first run that failed.
   */
  lemma SecondRunIsUpToDate(t: TableState)
    ensures var (t1, o1) := AutoMigrate(t);
      && AutoMigrate(t1).0 == t1
      && AutoMigrate(t1).1 == (if t.present then UpToDate else Failed(NoSuchTable))
  {
    ApplyFieldsIdempotent(t);
  }
}
