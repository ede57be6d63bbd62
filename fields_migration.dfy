/**
 * The interactive migration script: it asks for confirmation, accepts only
 * `yes` or `y` after `strip().lower()`, and its `migrate_database` changes
 * the schema only when the configured database URI mentions `sqlite`
 * (otherwise it prints instructions for the external migration tool). The
 * column step itself is the one shared with the unattended script.
 */
module FieldsMigration {
  import opened Wrappers
  import opened AppointmentsTable

  /**
   * How a run ends. `NoAnswer` is the prompt meeting end of input: `input()`
   * raises EOFError outside any `try`, the traceback ends the script with
   * status 1 and the migration never runs. `NoAnswer` and `Failed` exit with
   * status 1, the others with 0.
   */
  datatype Outcome = Migrated | NonSqlite | Cancelled | NoAnswer | Failed(error: SqlError)

  function ExitStatus(outcome: Outcome): int {
    if outcome.Failed? || outcome.NoAnswer? then 1 else 0
  }

  // ---------------------------------------------------------------------
  // The engine gate: `'sqlite' in uri`
  // ---------------------------------------------------------------------

  predicate StartsWith(s: string, prefix: string) {
    |prefix| <= |s| && s[..|prefix|] == prefix
  }

  /** `sub` occurs in `s` starting at index `i`. */
  predicate OccursAt(s: string, sub: string, i: int) {
    0 <= i && i + |sub| <= |s| && s[i..i + |sub|] == sub
  }

  lemma OccursAtShift(s: string, sub: string)
    requires s != []
    ensures forall i :: 0 <= i ==> (OccursAt(s, sub, i + 1) <==> OccursAt(s[1..], sub, i))
  {
    forall i | 0 <= i ensures OccursAt(s, sub, i + 1) <==> OccursAt(s[1..], sub, i) {
      if 0 <= i && i + |sub| <= |s| - 1 {
        assert s[1..][i..i + |sub|] == s[i + 1..i + 1 + |sub|];
      }
    }
  }

  /** Python's substring test `sub in s`. */
  function ContainsSubstring(s: string, sub: string): (b: bool)
    ensures b <==> exists i :: OccursAt(s, sub, i)
    decreases |s|
  {
    if StartsWith(s, sub) then
      assert OccursAt(s, sub, 0);
      true
    else if s == [] then false
    else
      OccursAtShift(s, sub);
      assert forall j :: OccursAt(s, sub, j) ==> j != 0 && OccursAt(s[1..], sub, (j - 1));
      ContainsSubstring(s[1..], sub)
  }

  /** A string without some character of `sub` does not contain `sub`. */
  lemma MissingCharExcludesSubstring(s: string, sub: string, c: char)
    requires c in sub && c !in s
    ensures !ContainsSubstring(s, sub)
  {
  }

  /** The schema is changed only for an engine whose URI mentions `sqlite`. */
  predicate IsSqlite(databaseUri: string) {
    ContainsSubstring(databaseUri, "sqlite")
  }

  // ---------------------------------------------------------------------
  // The confirmation gate: `input().strip().lower() in ['yes', 'y']`
  // ---------------------------------------------------------------------

  /** The characters Python's `str.isspace()` accepts, which `str.strip()` removes. */
  predicate IsWhitespace(c: char) {
    || ('\t' <= c <= '\r') || ('\U{1C}' <= c <= '\U{1F}') || c == ' '
    || c == '\U{85}' || c == '\U{A0}' || c == '\U{1680}' || ('\U{2000}' <= c <= '\U{200A}')
    || c == '\U{2028}' || c == '\U{2029}' || c == '\U{202F}' || c == '\U{205F}' || c == '\U{3000}'
  }

  predicate AllWhitespace(s: string) {
    forall i :: 0 <= i < |s| ==> IsWhitespace(s[i])
  }

  /** Drops leading whitespace: what is dropped is whitespace and what is kept does not start with it. */
  function TrimStart(s: string): (r: string)
    ensures |r| <= |s| && r == s[|s| - |r|..]
    ensures AllWhitespace(s[..|s| - |r|])
    ensures r == [] || !IsWhitespace(r[0])
    decreases |s|
  {
    if s != [] && IsWhitespace(s[0]) then
      var r := TrimStart(s[1..]);
      assert s[..|s| - |r|] == [s[0]] + s[1..][..|s| - 1 - |r|];
      r
    else s
  }

  /** Drops trailing whitespace: what is dropped is whitespace and what is kept does not end with it. */
  function TrimEnd(s: string): (r: string)
    ensures |r| <= |s| && r == s[..|r|]
    ensures AllWhitespace(s[|r|..])
    ensures r == [] || !IsWhitespace(r[|r| - 1])
    decreases |s|
  {
    if s != [] && IsWhitespace(s[|s| - 1]) then
      var r := TrimEnd(s[..|s| - 1]);
      assert s[|r|..] == s[..|s| - 1][|r|..] + [s[|s| - 1]];
      r
    else s
  }

  /** Python's `str.strip()`: the response without surrounding whitespace. */
  function Strip(s: string): (r: string)
    ensures r == [] || (!IsWhitespace(r[0]) && !IsWhitespace(r[|r| - 1]))
    ensures exists lo :: StrippedAt(s, r, lo)
  {
    var t := TrimStart(s);
    var r := TrimEnd(t);
    var lo := |s| - |t|;
    StripSlices(s, t, r, lo);
    r
  }

  /** `r` is the slice of `s` at `lo` and only whitespace surrounds it. */
  predicate StrippedAt(s: string, r: string, lo: int) {
    && 0 <= lo <= |s| - |r| && r == s[lo..lo + |r|]
    && AllWhitespace(s[..lo]) && AllWhitespace(s[lo + |r|..])
  }

  /** Slicing facts behind `Strip`: the word kept by both trims sits at `lo` with only whitespace around it. */
  lemma StripSlices(s: string, t: string, r: string, lo: int)
    requires |t| <= |s| && t == s[|s| - |t|..] && AllWhitespace(s[..|s| - |t|])
    requires t == [] || !IsWhitespace(t[0])
    requires |r| <= |t| && r == t[..|r|] && AllWhitespace(t[|r|..])
    requires r == [] || !IsWhitespace(r[|r| - 1])
    requires lo == |s| - |t|
    ensures r == [] || (!IsWhitespace(r[0]) && !IsWhitespace(r[|r| - 1]))
    ensures StrippedAt(s, r, lo)
  {
    assert s[lo + |r|..] == t[|r|..];
    assert r == s[lo..lo + |r|];
    assert r != [] ==> r[0] == t[0];
  }

  /** ASCII `str.lower()` of one character. */
  function LowerChar(c: char): char {
    if 'A' <= c <= 'Z' then (c as int - 'A' as int + 'a' as int) as char else c
  }

  function Lower(s: string): string {
    seq(|s|, i requires 0 <= i < |s| => LowerChar(s[i]))
  }

  /** The normalised response is `yes` or `y`. */
  predicate Confirmed(response: string) {
    var answer := Lower(Strip(response));
    answer == "yes" || answer == "y"
  }

  lemma {:induction false} TrimStartOfPadded(pre: string, s: string)
    requires AllWhitespace(pre)
    requires s == [] || !IsWhitespace(s[0])
    ensures TrimStart(pre + s) == s
    decreases |pre|
  {
    if pre != [] {
      assert (pre + s)[1..] == pre[1..] + s;
      TrimStartOfPadded(pre[1..], s);
    } else {
      assert pre + s == s;
    }
  }

  lemma {:induction false} TrimEndOfPadded(s: string, post: string)
    requires AllWhitespace(post)
    requires s == [] || !IsWhitespace(s[|s| - 1])
    ensures TrimEnd(s + post) == s
    decreases |post|
  {
    if post != [] {
      assert (s + post)[..|s + post| - 1] == s + post[..|post| - 1];
      TrimEndOfPadded(s, post[..|post| - 1]);
    } else {
      assert s + post == s;
    }
  }

  /**
   * Any whitespace around a word that does not itself start or end with
   * whitespace is removed: `strip` returns exactly that word.
   */
  lemma StripOfPadded(pre: string, word: string, post: string)
    requires AllWhitespace(pre) && AllWhitespace(post)
    requires word == [] || (!IsWhitespace(word[0]) && !IsWhitespace(word[|word| - 1]))
    ensures Strip(pre + word + post) == word
  {
    if word == [] {
      assert pre + word + post == pre + post;
      assert AllWhitespace(pre + post);
      TrimStartAllWhitespace(pre + post);
      assert TrimEnd([]) == [];
    } else {
      assert pre + word + post == pre + (word + post);
      TrimStartOfPadded(pre, word + post);
      TrimEndOfPadded(word, post);
    }
  }

  lemma TrimStartAllWhitespace(s: string)
    requires AllWhitespace(s)
    ensures TrimStart(s) == []
  {
  }

  /** The gate accepts `yes` and `y` in any letter case with any surrounding whitespace. */
  lemma ConfirmedPadded(pre: string, word: string, post: string)
    requires AllWhitespace(pre) && AllWhitespace(post)
    requires Lower(word) == "yes" || Lower(word) == "y"
    ensures Confirmed(pre + word + post)
  {
    var lw := Lower(word);
    assert |lw| == |word| > 0;
    assert lw[0] == LowerChar(word[0]) == 'y';
    assert lw[|lw| - 1] == LowerChar(word[|word| - 1]);
    assert lw[|lw| - 1] == 's' || lw[|lw| - 1] == 'y';
    StripOfPadded(pre, word, post);
  }

  /** Conversely, an accepted response is `yes` or `y`, in some letter case, surrounded by whitespace only. */
  lemma ConfirmedShape(response: string)
    requires Confirmed(response)
    ensures exists lo, hi :: 0 <= lo <= hi <= |response|
              && AllWhitespace(response[..lo]) && AllWhitespace(response[hi..])
              && (Lower(response[lo..hi]) == "yes" || Lower(response[lo..hi]) == "y")
  {
    var r := Strip(response);
    assert Lower(r) == "yes" || Lower(r) == "y";
    var lo :| StrippedAt(response, r, lo);
    var hi := lo + |r|;
    assert response[lo..hi] == r;
    assert Lower(response[lo..hi]) == "yes" || Lower(response[lo..hi]) == "y";
    assert AllWhitespace(response[..lo]) && AllWhitespace(response[hi..]);
  }

  /** ` YES` followed by a newline is accepted: case and surrounding whitespace do not matter. */
  lemma PaddedUpperCaseYesAccepted()
    ensures Confirmed(" YES\n")
  {
    var pre, word, post := " ", "YES", "\n";
    assert pre + word + post == " YES\n";
    assert AllWhitespace(pre) && AllWhitespace(post) by {
      assert IsWhitespace(pre[0]) && IsWhitespace(post[0]);
    }
    assert Lower(word) == "yes" by {
      var lw := Lower(word);
      assert lw[0] == 'y' && lw[1] == 'e' && lw[2] == 's';
    }
    ConfirmedPadded(pre, word, post);
  }

  /** A tab, `Y` and a space is accepted. */
  lemma PaddedUpperCaseYAccepted()
    ensures Confirmed("\tY ")
  {
    var pre, word, post := "\t", "Y", " ";
    assert pre + word + post == "\tY ";
    assert AllWhitespace(pre) && AllWhitespace(post) by {
      assert IsWhitespace(pre[0]) && IsWhitespace(post[0]);
    }
    assert Lower(word) == "y" by {
      var lw := Lower(word);
      assert lw[0] == 'y';
    }
    ConfirmedPadded(pre, word, post);
  }

  /** `no` is refused. */
  lemma NoRefused()
    ensures !Confirmed("no")
  {
    StripOfPadded("", "no", "");
    assert "" + "no" + "" == "no";
    assert Lower("no")[0] == 'n';
  }

  /** The empty answer (just Enter) is refused. */
  lemma EmptyAnswerRefused()
    ensures !Confirmed("")
  {
    assert TrimStart("") == "" && TrimEnd("") == "";
    assert |Lower(Strip(""))| == 0;
  }

  /** Inner whitespace is not removed: `ye s` is refused. */
  lemma InnerSpaceRefused()
    ensures !Confirmed("ye s")
  {
    StripOfPadded("", "ye s", "");
    assert "" + "ye s" + "" == "ye s";
    assert |Lower("ye s")| == 4;
  }

  // ---------------------------------------------------------------------
  // The script
  // ---------------------------------------------------------------------

  /** `migrate_database`: the column step behind the engine gate. */
  function FieldsMigrate(t: TableState, databaseUri: string): (r: (TableState, Outcome))
    ensures r.1 == NonSqlite <==> !IsSqlite(databaseUri)
    ensures r.1 == NonSqlite ==> r.0 == t
    ensures r.1 != Cancelled && r.1 != NoAnswer
  {
    if !IsSqlite(databaseUri) then (t, NonSqlite)
    else
      var run := ApplyFields(t);
      (run.state, if run.error.Some? then Failed(run.error.value) else Migrated)
  }

  /**
   * The script's entry point: the confirmation gate, then `migrate_database`.
   * `response` is the line read from standard input, or `None` at end of input.
   */
  function RunScript(t: TableState, response: Option<string>, databaseUri: string): (r: (TableState, Outcome))
    ensures r.1 == NoAnswer <==> response.None?
    ensures r.1 == Cancelled <==> response.Some? && !Confirmed(response.value)
    ensures r.1 == NoAnswer || r.1 == Cancelled ==> r.0 == t
  {
    match response
    case None => (t, NoAnswer)
    case Some(line) => if Confirmed(line) then FieldsMigrate(t, databaseUri) else (t, Cancelled)
  }

  method MigrateDatabase(db: Database, databaseUri: string) returns (outcome: Outcome)
    requires db.Valid()
    modifies db
    ensures db.Valid()
    ensures (db.State(), outcome) == FieldsMigrate(old(db.State()), databaseUri)
  {
    if IsSqlite(databaseUri) {
      var added, error := db.AddAppointmentFields();
      outcome := if error.Some? then Failed(error.value) else Migrated;
    } else {
      outcome := NonSqlite;
    }
  }

  method RunAsScript(db: Database, response: Option<string>, databaseUri: string) returns (outcome: Outcome)
    requires db.Valid()
    modifies db
    ensures db.Valid()
    ensures (db.State(), outcome) == RunScript(old(db.State()), response, databaseUri)
  {
    if response.None? {
      outcome := NoAnswer;
    } else if Confirmed(response.value) {
      outcome := MigrateDatabase(db, databaseUri);
    } else {
      outcome := Cancelled;
    }
  }

  /** The table changes only if the answer is accepted and the URI mentions `sqlite`. */
  lemma ChangesNeedBothGates(t: TableState, response: Option<string>, databaseUri: string)
    requires RunScript(t, response, databaseUri).0 != t
    ensures response.Some? && Confirmed(response.value)
    ensures exists i :: OccursAt(databaseUri, "sqlite", i)
  {
  }

  /** A refused answer leaves the table as it is and never reaches `migrate_database`. */
  lemma RefusalCancels(t: TableState, response: string, databaseUri: string)
    requires !Confirmed(response)
    ensures RunScript(t, Some(response), databaseUri) == (t, Cancelled)
    ensures ExitStatus(RunScript(t, Some(response), databaseUri).1) == 0
  {
  }

  /** End of input at the prompt: the table is left as it is, and the script exits with status 1. */
  lemma EndOfInputAborts(t: TableState, databaseUri: string)
    ensures RunScript(t, None, databaseUri) == (t, NoAnswer)
    ensures ExitStatus(RunScript(t, None, databaseUri).1) == 1
  {
  }

  /** A URI of another engine: only instructions, no schema change. */
  lemma OtherEngineOnlyGetsInstructions(t: TableState)
    ensures FieldsMigrate(t, "postgresql://db.example.org/app") == (t, NonSqlite)
  {
    MissingCharExcludesSubstring("postgresql://db.example.org/app", "sqlite", 'i');
  }

  /** A SQLite URI passes the engine gate. */
  lemma SqliteUriPassesGate(t: TableState)
    ensures FieldsMigrate(t, "sqlite:///app.db").1 != NonSqlite
  {
    assert OccursAt("sqlite:///app.db", "sqlite", 0);
  }

  /** Running `migrate_database` twice leaves the same table as running it once. */
  lemma MigrateTwiceEqualsOnce(t: TableState, databaseUri: string)
    ensures var once := FieldsMigrate(t, databaseUri).0;
      FieldsMigrate(once, databaseUri).0 == once
  {
    ApplyFieldsIdempotent(t);
  }

  /** A run that reports success leaves both columns in the table; a failure exits with status 1. */
  lemma MigratedMeansColumnsPresent(t: TableState, databaseUri: string)
    ensures var (t', outcome) := FieldsMigrate(t, databaseUri);
      && (outcome == Migrated ==> RejectionReason in Names(t'.columns) && UpdatedAt in Names(t'.columns))
      && (ExitStatus(outcome) == 1 <==> IsSqlite(databaseUri) && ApplyFields(t).error.Some?)
  {
    if IsSqlite(databaseUri) && t.present {
      ApplyFieldsEstablishesColumns(t);
    }
  }
}
