/**
 * The read-only verification script: it introspects the `appointments`
 * columns once, lists each with a mark for the two required columns, and
 * reports success or the required columns that are missing.
 */
module MigrationCheck {
  import opened Wrappers
  import opened AppointmentsTable
  import AutoMigration
  import FieldsMigration

  /** One printed line: the mark, the column name and its declared type. */
  datatype ReportLine = ReportLine(marked: bool, name: string, declaredType: string)

  /** The schema listing, the verdict and, on failure, the missing required columns in order. */
  datatype Report = Report(lines: seq<ReportLine>, success: bool, missing: seq<string>)

  const RequiredColumns: seq<string> := [RejectionReason, UpdatedAt]

  /** The report for an introspected column list. */
  function VerifyColumns(columns: seq<Column>): (r: Report)
    ensures |r.lines| == |columns|
    ensures forall i :: 0 <= i < |columns| ==>
              && r.lines[i].name == columns[i].name
              && r.lines[i].declaredType == columns[i].declaredType
              && (r.lines[i].marked <==> columns[i].name == RejectionReason || columns[i].name == UpdatedAt)
    ensures r.success <==> RejectionReason in Names(columns) && UpdatedAt in Names(columns)
    ensures r.success <==> r.missing == []
    ensures forall n :: n in r.missing <==> n in RequiredColumns && n !in Names(columns)
    ensures r.missing == [] || r.missing == [RejectionReason] || r.missing == [UpdatedAt]
            || r.missing == [RejectionReason, UpdatedAt]
  {
    var lines := seq(|columns|, i requires 0 <= i < |columns| =>
                   ReportLine(columns[i].name in RequiredColumns, columns[i].name, columns[i].declaredType));
    var colNames := Names(columns);
    var success := RejectionReason in colNames && UpdatedAt in colNames;
    var missing := (if RejectionReason !in colNames then [RejectionReason] else [])
                 + (if UpdatedAt !in colNames then [UpdatedAt] else []);
    Report(lines, success, missing)
  }

  /** The script on a table: one introspection, nothing else. */
  function Verify(t: TableState): Report {
    VerifyColumns(TableInfo(t))
  }

  /** The script as run against the connection; it has no `modifies` clause, so it changes nothing. */
  method CheckMigration(db: Database) returns (report: Report)
    ensures report == Verify(db.State())
  {
    var columns := db.TableInfoQuery();
    report := VerifyColumns(columns);
  }

  /** A missing table introspects as no columns: both required columns are reported missing. */
  lemma MissingTableReportsBoth(t: TableState)
    requires !t.present
    ensures Verify(t) == Report([], false, [RejectionReason, UpdatedAt])
  {
  }

  /** After a column step on an existing table the check reports success, even when its backfill failed. */
  lemma SuccessAfterFields(t: TableState)
    requires t.present
    ensures Verify(ApplyFields(t).state).success
    ensures Verify(ApplyFields(t).state).missing == []
  {
    ApplyFieldsEstablishesColumns(t);
  }

  /** After an unattended run on an existing table the check reports success, whatever the run's exit status. */
  lemma SuccessAfterAutoMigration(t: TableState)
    requires t.present
    ensures Verify(AutoMigration.AutoMigrate(t).0).success
  {
    SuccessAfterFields(t);
  }

  /** After an interactive run that reported a completed migration, the check reports success. */
  lemma SuccessAfterInteractiveMigration(t: TableState, response: Option<string>, databaseUri: string)
    requires FieldsMigration.RunScript(t, response, databaseUri).1 == FieldsMigration.Migrated
    ensures Verify(FieldsMigration.RunScript(t, response, databaseUri).0).success
  {
    assert FieldsMigration.RunScript(t, response, databaseUri) == FieldsMigration.FieldsMigrate(t, databaseUri);
    FieldsMigration.MigratedMeansColumnsPresent(t, databaseUri);
  }

  /**
   * A run whose backfill failed for want of `created_at` exits with status
   * 1, yet the check that follows reports success: the ALTER of
   * `updated_at` had already taken effect.
   */
  lemma FailedRunPassesCheck(t: TableState)
    requires t.present && UpdatedAt !in Names(t.columns) && CreatedAt !in Names(t.columns)
    ensures AutoMigration.ExitStatus(AutoMigration.AutoMigrate(t).1) == 1
    ensures Verify(AutoMigration.AutoMigrate(t).0).success
  {
    ApplyFieldsAdds(t);
    SuccessAfterFields(t);
  }
}
