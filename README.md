# MindfulHorizon appointment migrations and intervention helpers, in Dafny

This project models two small pieces of the MindfulHorizon application and proves properties of them.

**CBT intervention helpers.** `InterventionLogic` models two helper methods of the psychological test suite.
- `get_module_recommendation` is a priority-ordered rule. It reads a client's current assessments (type and score), the completed module ids and a wellness score. It returns one of six recommendation dictionaries: modules 3, 4, 5, 6, 1, or the crisis referral 99.
- `validate_intervention_sequence` checks every adjacent pair of a module-id sequence against a fixed successor table. It is modelled as a method with a `while` loop, proved against the predicate `ValidSequence`. A recursive reference definition, `ChainValid`, is proved equivalent to that predicate.
- Missing dictionary keys are modelled as `Option` fields, with the defaults of `dict.get`: no assessments, no completed modules, wellness 5.0, score 0. The wellness score is a `real`; it is only compared with 8.

**Appointment schema migration.** Two scripts add `rejection_reason` (TEXT) and `updated_at` (DATETIME) to the `appointments` table. A third script checks the result.
- `AppointmentsTable` models the table abstractly. It has an existence flag, an ordered list of column descriptors (name and declared type), and rows. Each row maps column names to a value or NULL.
- The three statements the scripts issue are specification functions: `TableInfo` (PRAGMA table_info), `AddColumn` (ALTER TABLE ... ADD COLUMN) and `Backfill` (the `updated_at := created_at` UPDATE for NULL rows). Class `Database` performs them in place.
- Both scripts run the same column step. It is modelled once, as the function `ApplyFields` and the method `Database.AddAppointmentFields`.
- The step takes one snapshot of the column names. It adds `rejection_reason` if that name is absent from the snapshot. Then, if `updated_at` is absent from the snapshot, it adds `updated_at` and backfills it.
- Each statement takes effect on its own. The model assumes the default engine options: `SQLAlchemy()` is created without arguments, and the application configuration that could pass engine options is not part of this model. Under those defaults the SQLite driver (pysqlite) opens no transaction before DDL, so each ALTER takes effect as it runs, and the `commit()` after the `rejection_reason` ALTER adds nothing. The driver does open a transaction before the backfill UPDATE; the `commit()` right after it saves it. Nothing modelled can fail between that UPDATE and its commit, so the UPDATE is modelled as taking effect at once. An error stops the run and keeps what earlier statements did.
- In particular, when `created_at` is missing, the ALTER of `updated_at` has already taken effect when the backfill fails. The run exits with status 1, yet leaves an `updated_at` column that is NULL in every row. The checker then reports success, and a second run reports "up to date".
- `AutoMigration` is the unattended script. Its outcome depends on `changes_made`: "completed", "up to date", or an error with exit status 1.
- `FieldsMigration` is the interactive script. It has the yes/no gate (`strip().lower()` in `yes`, `y`) and the engine gate (the URI must contain `sqlite`).
- `MigrationCheck` is the read-only checker. It maps the introspected columns to marked lines, a verdict and the ordered list of missing required columns.

**Where the suite's tests and its helper code disagree.** The model follows the helper code. The following lemmas state what the code answers:
- `CrisisScenarioGetsBehavioralActivation`: PHQ-9 25 with nothing completed gives Behavioral Activation with priority high. The depression rule returns before the crisis rule, so the crisis priority that test expects is never reached.
- `SuiteInvalidProgressionsAreAccepted`: `[8, 1]` and `[6, 3]` validate as true, because modules 6, 7 and 8 have no entry in the successor table. The test expects false.
- `ThresholdScenarioGetsDefault`: the threshold test stores its scores under `assessment_history`, a key the rule never reads. The answer is therefore Sleep Hygiene, not Mindfulness Practice.
- `SevereAnxietyPathway`: the second half of the anxiety pathway test (GAD-7 10 after module 3) also gets Sleep Hygiene, because 10 is below the threshold of 15.
- `PersonalisationScenarioHasNoCustomization`: no returned dictionary has a `customization` key.

## Model

| member | source | states |
|---|---|---|
| InterventionLogic.Any | psychological_test_suite.py:313-339 | Python's `any` over the assessments is true iff some assessment satisfies the test |
| InterventionLogic.GetModuleRecommendation | psychological_test_suite.py:303-362 | the result is one of the six fixed dictionaries, its id is in {1, 3, 4, 5, 6, 99} and never 8 (Exposure Therapy), every non-crisis id names the catalogue module of that id, and priority is crisis iff the id is 99 |
| InterventionLogic.SevereAnxietyStartsWithCognitiveRestructuring | psychological_test_suite.py:313-320 | some GAD-7 score ≥ 15 and module 3 not completed give module 3 "Cognitive Restructuring", priority high |
| InterventionLogic.SevereAnxietyProgressesToMindfulness | psychological_test_suite.py:321-327 | some GAD-7 score ≥ 15, 3 completed and 4 not give module 4 "Mindfulness Practice", priority high |
| InterventionLogic.CompletedAnxietyModulesFallThrough | psychological_test_suite.py:313-329 | with 3 and 4 both completed the anxiety rule never answers; the result is neither 3 nor 4 |
| InterventionLogic.AnxietyBeforeDepression | psychological_test_suite.py:313-336 | severe GAD-7 and severe PHQ-9 with nothing completed give module 3: anxiety is checked first |
| InterventionLogic.BehavioralActivationExactly | psychological_test_suite.py:329-336 | module 5 is returned iff the anxiety rule does not return, some PHQ-9 score is ≥ 15 and 5 is not completed |
| InterventionLogic.CrisisOnlyAfterEarlierRules | psychological_test_suite.py:338-345 | priority is crisis iff neither the anxiety nor the depression rule returned and some score (any type) is ≥ 24 |
| InterventionLogic.MaintenanceExactly | psychological_test_suite.py:347-354 | module 6 with low priority iff no earlier rule applies, wellness ≥ 8 and at least 4 completions |
| InterventionLogic.DefaultExactly | psychological_test_suite.py:356-362 | module 1 with medium priority iff none of the other rules applies |
| InterventionLogic.DuplicateCompletionsCount | psychological_test_suite.py:348 | `len(completed)` counts duplicates: `[2, 2, 2, 2]` with wellness 9 reaches maintenance |
| InterventionLogic.MissingKeysGiveDefault | psychological_test_suite.py:308-310 | with every key missing (no assessments, no completions, wellness 5.0) the answer is the default module 1 |
| InterventionLogic.MissingScoreReadsAsZero | psychological_test_suite.py:313 | a GAD-7 assessment without a score reads as score 0 and does not trigger the anxiety rule |
| InterventionLogic.SevereAnxietyPathway | psychological_test_suite.py:51-88 | GAD-7 18 gives Cognitive Restructuring; after module 3 with GAD-7 10 the code gives Sleep Hygiene, not the Mindfulness the test expects |
| InterventionLogic.DepressionPathway | psychological_test_suite.py:90-106 | PHQ-9 15 gives Behavioral Activation, priority high |
| InterventionLogic.ComorbidScenario | psychological_test_suite.py:108-126 | GAD-7 16 with PHQ-9 14 gives Cognitive Restructuring |
| InterventionLogic.ThresholdScenarioGetsDefault | psychological_test_suite.py:154-182 | the scenario's scores sit under a key the rule does not read, so it gets Sleep Hygiene, not Mindfulness Practice |
| InterventionLogic.CrisisScenarioGetsBehavioralActivation | psychological_test_suite.py:184-207 | PHQ-9 25 with nothing completed gives Behavioral Activation with priority high, not a crisis recommendation |
| InterventionLogic.MaintenanceScenario | psychological_test_suite.py:209-229 | low scores, five completions and wellness 8.7 give Relapse Prevention, priority low |
| InterventionLogic.PersonalisationScenarioHasNoCustomization | psychological_test_suite.py:231-249 | the scenario gets the default dictionary, and no returned dictionary has a `customization` key |
| InterventionLogic.ContraindicationScenario | psychological_test_suite.py:280-299 | severe PHQ-9 and GAD-7 with 3 and 4 completed give Behavioral Activation, not Exposure Therapy |
| InterventionLogic.ValidSequence | psychological_test_suite.py:374-382 | definition: every adjacent pair `(a, b)` has `a` outside the successor table or `b` in its list; `ChainValidIffValidSequence` and the method's contract relate it to the other two readings |
| InterventionLogic.ValidateInterventionSequence | psychological_test_suite.py:364-382 | returns false iff some adjacent pair starts with a module of the successor table and continues with a module outside its list; true otherwise |
| InterventionLogic.ChainValidIffValidSequence | psychological_test_suite.py:374-382 | the pairwise condition equals its recursive reading from the front of the sequence |
| InterventionLogic.ShortSequencesAreValid | psychological_test_suite.py:374 | sequences of length at most 1 are valid (the loop has no pair to check) |
| InterventionLogic.ValidSlice | psychological_test_suite.py:374-382 | every contiguous sub-sequence of a valid sequence is valid |
| InterventionLogic.ValidConcat | psychological_test_suite.py:374-382 | a concatenation is valid iff both parts are valid and the pair across the seam is allowed |
| InterventionLogic.TerminalModulesAreUnconstrained | psychological_test_suite.py:366-372 | any pair starting at 6, 7 or 8 is valid: they have no entry in the successor table |
| InterventionLogic.SuiteValidProgressions | psychological_test_suite.py:133-142 | `[3, 4]`, `[5, 7]`, `[1, 2]` and `[4, 6]` are valid |
| InterventionLogic.SuiteInvalidProgressionsAreAccepted | psychological_test_suite.py:145-152 | `[8, 1]` and `[6, 3]` are valid for the code, although the test expects them to be invalid |
| InterventionLogic.SomeProgressionsAreRefused | psychological_test_suite.py:366-380 | the table does refuse pairs: `[3, 5]`, `[1, 4]` and `[2, 2, 3]` are invalid |
| AppointmentsTable.TableInfo | migrate_appointments_auto.py:30-31 | definition: the columns in order for an existing table, and no rows at all for a missing one |
| AppointmentsTable.AddColumn | migrate_appointments_auto.py:37 | ALTER TABLE ADD COLUMN succeeds iff the table exists without that name; the column is appended, NULL in every row, and every other cell is kept |
| AppointmentsTable.Backfill | migrate_appointments_auto.py:48 | the UPDATE succeeds iff the table has both `updated_at` and `created_at`; exactly the NULL `updated_at` cells change, each to its row's `created_at` |
| AppointmentsTable.ApplyFields | migrate_appointments_auto.py:28-53 | the shared column step; its contract: existence and row count are kept, the table grows by exactly the added columns, a run that adds nothing changes nothing, and a missing table fails with "no such table" |
| AppointmentsTable.ApplyFieldsAdds | migrate_appointments_auto.py:30-53 | `rejection_reason` is added iff the table exists without it in the snapshot, and `updated_at` likewise; always in that order; the run fails iff the table is missing, or both `updated_at` and `created_at` are, and on an existing table the only error is "no such column created_at" |
| AppointmentsTable.ApplyFieldsShape | migrate_appointments_auto.py:30-53 | on an existing table, the run appends exactly the absent columns, `rejection_reason` before `updated_at`, and fails with "no such column created_at" iff `updated_at` and `created_at` are both absent, after `updated_at` was added |
| AppointmentsTable.RerunWithBothColumns | migrate_appointments_auto.py:35-53 | on an existing table that has both columns a run changes nothing, adds nothing and raises nothing |
| AppointmentsTable.ApplyFieldsKeepsColumns | migrate_appointments_auto.py:35-53 | the old columns are never removed or reordered; the new ones are appended in the order reported as added; the row count is kept |
| AppointmentsTable.ApplyFieldsRows | migrate_appointments_auto.py:44-49 | no cell of a column that was not added changes; a new `rejection_reason` is NULL; a new `updated_at` holds the row's `created_at` when the backfill ran, and is NULL when it failed |
| AppointmentsTable.ApplyFieldsEstablishesColumns | migrate_appointments_auto.py:35-53 | after any run on an existing table, even one whose backfill failed, both `rejection_reason` and `updated_at` are columns of the table |
| AppointmentsTable.ApplyFieldsIdempotent | migrate_appointments_auto.py:35-53 | a second run adds nothing and changes nothing; on an existing table it raises nothing, also after a first run that failed |
| AppointmentsTable.ApplyFieldsWellFormed | migrate_appointments_auto.py:35-53 | a run keeps column names distinct and every row's keys equal to the column names |
| AppointmentsTable.Database.TableInfoQuery | migrate_appointments_auto.py:30-31 | introspection returns the column list, or no columns for a missing table, and changes nothing |
| AppointmentsTable.Database.constructor | migrate_appointments_auto.py:28 | a connection opened on a well-formed table holds that table and its class invariant `Valid` |
| AppointmentsTable.Database.ExecuteAddColumn | migrate_appointments_auto.py:37 | in place, the new table state is `AddColumn` of the old one on success; on error it is unchanged; the table stays well formed |
| AppointmentsTable.Database.ExecuteBackfill | migrate_appointments_auto.py:48 | in place, the new table state is `Backfill` of the old one on success; on error it is unchanged; the table stays well formed |
| AppointmentsTable.Database.AddAppointmentFields | migrate_appointments_auto.py:28-53 | in place, the new table state, the added columns and the error are those of `ApplyFields` on the old state; the table stays well formed |
| AutoMigration.AutoMigrate | migrate_appointments_auto.py:18-69 | the run as a function of the table; its contract: "up to date" leaves the table as it was, "completed" has added columns, and existence and row count are kept |
| AutoMigration.MigrateDatabase | migrate_appointments_auto.py:18-69 | the final table and outcome are those of `AutoMigrate` on the initial table |
| AutoMigration.OutcomeReflectsChanges | migrate_appointments_auto.py:33-60 | "completed" iff no error and some column added; "up to date" iff both columns were already present; exit status 1 iff an error |
| AutoMigration.MissingTableFails | migrate_appointments_auto.py:63-69 | for a missing table nothing changes and the run fails with exit status 1 |
| AutoMigration.FailedBackfillKeepsBothColumns | migrate_appointments_auto.py:35-69 | with `updated_at` and `created_at` both missing, the run fails with "no such column created_at" and exit status 1, yet both new columns stay appended and `updated_at` is NULL in every row |
| AutoMigration.SecondRunIsUpToDate | migrate_appointments_auto.py:35-60 | a second run leaves the table unchanged; on an existing table it reports "up to date", also after a first run that failed; on a missing table it fails again |
| FieldsMigration.IsSqlite | add_appointment_fields_migration.py:24 | definition: the URI contains `sqlite` (via `ContainsSubstring`) |
| FieldsMigration.ContainsSubstring | add_appointment_fields_migration.py:24 | Python's `sub in s`: true iff `sub` occurs at some index of `s` |
| FieldsMigration.TrimStart | add_appointment_fields_migration.py:77 | the removed prefix is whitespace, the kept rest is a suffix not starting with whitespace |
| FieldsMigration.TrimEnd | add_appointment_fields_migration.py:77 | the removed suffix is whitespace, the kept rest is a prefix not ending with whitespace |
| FieldsMigration.Strip | add_appointment_fields_migration.py:77 | the result is a slice of the input with only whitespace around it, and it neither starts nor ends with whitespace |
| FieldsMigration.Lower | add_appointment_fields_migration.py:77 | definition: `lower()` applied to each character (ASCII letters; see Left out) |
| FieldsMigration.Confirmed | add_appointment_fields_migration.py:77-79 | definition: the stripped, lowered answer is `yes` or `y`; `ConfirmedPadded` and `ConfirmedShape` characterise it in both directions |
| FieldsMigration.StripOfPadded | add_appointment_fields_migration.py:77 | whitespace around a word that has none at its ends is exactly what `strip` removes |
| FieldsMigration.ConfirmedPadded | add_appointment_fields_migration.py:77-79 | `yes` or `y` in any letter case with any surrounding whitespace is accepted |
| FieldsMigration.ConfirmedShape | add_appointment_fields_migration.py:77-79 | an accepted answer is `yes` or `y` in some letter case with only whitespace around it |
| FieldsMigration.PaddedUpperCaseYesAccepted | add_appointment_fields_migration.py:77-79 | ` YES` followed by a newline is accepted |
| FieldsMigration.PaddedUpperCaseYAccepted | add_appointment_fields_migration.py:77-79 | a tab, `Y` and a space is accepted |
| FieldsMigration.NoRefused | add_appointment_fields_migration.py:79-82 | `no` is refused |
| FieldsMigration.EmptyAnswerRefused | add_appointment_fields_migration.py:79-82 | the empty answer is refused |
| FieldsMigration.InnerSpaceRefused | add_appointment_fields_migration.py:77-82 | `ye s` is refused: only surrounding whitespace is removed |
| FieldsMigration.FieldsMigrate | add_appointment_fields_migration.py:19-66 | `migrate_database` as a function; its contract: outcome "non-SQLite" iff the URI lacks `sqlite`, and then the table is unchanged; it is never "cancelled" |
| FieldsMigration.RunScript | add_appointment_fields_migration.py:68-82 | the script as a function; its contract: outcome "no answer" iff input ended at the prompt, outcome "cancelled" iff an answer was read and refused, and in both cases the table is unchanged |
| FieldsMigration.MigrateDatabase | add_appointment_fields_migration.py:19-66 | the final table and outcome are those of `FieldsMigrate`: the column step behind the `sqlite` gate |
| FieldsMigration.RunAsScript | add_appointment_fields_migration.py:68-82 | the final table and outcome are those of `RunScript`: the confirmation gate, then `migrate_database` |
| FieldsMigration.ChangesNeedBothGates | add_appointment_fields_migration.py:24-82 | the table changes only if an answer was read and accepted and the URI contains `sqlite` |
| FieldsMigration.EndOfInputAborts | add_appointment_fields_migration.py:77 | end of input at the prompt leaves the table unchanged and exits with status 1 |
| FieldsMigration.RefusalCancels | add_appointment_fields_migration.py:79-82 | a refused answer leaves the table unchanged, with outcome cancelled and exit status 0 |
| FieldsMigration.OtherEngineOnlyGetsInstructions | add_appointment_fields_migration.py:54-58 | a PostgreSQL URI leaves the table unchanged with outcome "non-SQLite" |
| FieldsMigration.SqliteUriPassesGate | add_appointment_fields_migration.py:24 | a `sqlite:///` URI passes the engine gate |
| FieldsMigration.MigrateTwiceEqualsOnce | add_appointment_fields_migration.py:33-49 | running `migrate_database` twice leaves the same table as running it once |
| FieldsMigration.MigratedMeansColumnsPresent | add_appointment_fields_migration.py:30-66 | a reported success leaves both columns present; exit status 1 iff the URI is SQLite and the column step raised an error |
| MigrationCheck.VerifyColumns | verify_migration.py:13-32 | one line per column in introspection order, marked iff the name is `rejection_reason` or `updated_at`; success iff both are present; the missing list holds exactly the absent required names, `rejection_reason` first |
| MigrationCheck.Verify | verify_migration.py:10-33 | definition: the report of `VerifyColumns` on one introspection of the table |
| MigrationCheck.CheckMigration | verify_migration.py:10-13 | the report is computed from one introspection of the current table; the method has no `modifies` clause, so it is read-only |
| MigrationCheck.MissingTableReportsBoth | verify_migration.py:12-32 | for a missing table the listing is empty and both required columns are reported missing |
| MigrationCheck.SuccessAfterFields | verify_migration.py:24-26 | after a column step on an existing table the check reports success and nothing missing, even when the backfill failed |
| MigrationCheck.SuccessAfterAutoMigration | verify_migration.py:24-26 | after an unattended run on an existing table the check reports success, whatever the run's exit status |
| MigrationCheck.SuccessAfterInteractiveMigration | verify_migration.py:24-26 | after an interactive run that reported success the check reports success |
| MigrationCheck.FailedRunPassesCheck | verify_migration.py:24-26 | a run whose backfill failed for want of `created_at` exits with status 1, and the check after it still reports success |

## Left out

- `calculate_wellness_score` (psychological_test_suite.py:384-410) is not modelled. It uses floating-point division, `round` and the current time.
- `TestSecurityValidation` and the imported `determine_next_module` and `atomic_wellness_score_update` are not part of this model. They come from a module (`security_fixes`) whose source is not available.
- The unittest methods themselves are not modelled as tests. Their scenarios are stated as lemmas about what the helper code returns.
- Assessment scores are modelled as integers. GAD-7 and PHQ-9 are integer scales, and every score in the suite is an integer.
- A dictionary value of the wrong type (for example a non-list `completed_modules`) would raise an exception in Python. This is not modelled.
- The `reason` and `module_name` strings are modelled as data. Their wording is not interpreted.
- `FieldsMigration.Lower` lowers ASCII letters only. This is enough for the gate's decision: no non-ASCII character lowercases to `y`, `e` or `s`. So Python's full Unicode `lower()` accepts exactly the same answers.
- SQL is modelled on abstract table values, not on SQLite. The following are not modelled: declared-type affinity, constraints, and the `cid`, `notnull`, `dflt_value` and `pk` fields of PRAGMA table_info.
- A database engine configured for transactional DDL (so that a failed backfill would roll back the ALTER of `updated_at`) is not modelled. The model follows the default pysqlite behaviour the scripts get, where each statement takes effect on its own. A failed UPDATE changes nothing.
- AppointmentsTable.AddColumn: compares the new name with the existing column names exactly, while SQLite compares identifiers without regard to ASCII case. For a table that already has `UPDATED_AT` (and `created_at`, `rejection_reason`), SQLite rejects the ALTER of `updated_at` as a duplicate and the script exits with status 1; the model adds the column and reports "completed". The scripts' own snapshot test is case-sensitive, as modelled.
- AppointmentsTable.Backfill: looks up `updated_at` and `created_at` by exact name. For a table whose creation column is named `Created_At`, SQLite's UPDATE succeeds, while the model fails with "no such column created_at".
- The only errors modelled are those that follow from the table itself: a missing table, a duplicate column, and a missing `created_at` or `updated_at`. Connection failures, locked or read-only database files, and other I/O errors are not modelled.
- Console output is not modelled: banners, progress lines, troubleshooting hints, the printed column listing and the alignment of its columns. The outcome datatypes and the `Report` record stand for what is printed.
- `sys.exit(1)` and the uncaught EOFError are modelled as `ExitStatus` returning 1 for a failed outcome or a missing answer.
- The Flask `app` and `db` globals and the `app.config` lookup are modelled as parameters. The `Database` object and the `databaseUri` string are passed in explicitly.
- The standard-input prompt is modelled as the `response` parameter: the line read, or `None` at end of input, where `input()` raises EOFError, the script exits with status 1 and nothing changes.
- FieldsMigration.RunScript: a keyboard interrupt at the prompt is not modelled. It also ends the script before any statement runs, so the table is unchanged, but the process ends on the signal rather than with a modelled exit status.
- Concurrent writers to the table are not modelled. The scripts assume they are the only process using the database.
