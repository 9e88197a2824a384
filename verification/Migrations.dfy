/**
 * The migration runner as a process that can be cut short anywhere and started again. A transaction
 * is atomic, but its commit may be reported as failed after it took effect; and the rows read at the
 * start may be fewer than the table holds, since the reader does not ask why its rows ended.
 */
module Migrations {
  import opened Sorting

  datatype File = File(name: string, content: string)

  datatype Entry = Entry(name: string, isDir: bool, content: string)

  /** The migrations table, and the scripts committed so far in commit order. */
  datatype Db = Db(table: map<string, string>, committed: seq<File>)

  datatype Fault = NoFault | ReadFails | BeginFails | ExecFails | CommitFails | CommitLost

  /** One invocation: whether it gets as far as the loop, the rows it saw, and what befalls each file. */
  datatype Attempt = Attempt(starts: bool, seen: map<string, string>, faults: seq<Fault>)

  /** checksumFor: some digest whose text is never empty. */
  ghost predicate Digest(sum: string -> string) {
    forall content :: sum(content) != ""
  }

  ghost predicate SubMap(part: map<string, string>, whole: map<string, string>) {
    forall name <- part :: name in whole && whole[name] == part[name]
  }

  function Commit(db: Db, file: File, sum: string -> string): Db {
    Db(db.table[file.name := sum(file.content)], db.committed + [file])
  }

  datatype Outcome = Next(db: Db) | Abort(db: Db)

  /** One round of the loop of migrateUp. */
  function Round(db: Db, file: File, seen: map<string, string>, fault: Fault, sum: string -> string): Outcome {
    var checksum := sum(file.content);
    var known := if file.name in seen then seen[file.name] else "";
    if fault == ReadFails then Abort(db)
    else if known == checksum then Next(db)
    else if known != "" then Abort(db)
    else if fault == BeginFails || fault == ExecFails then Abort(db)
    else if file.name in db.table then Abort(db)   // the primary key refuses the insert
    else if fault == CommitFails then Abort(db)
    else if fault == CommitLost then Abort(Commit(db, file, sum))
    else Next(Commit(db, file, sum))
  }

  function FaultAt(faults: seq<Fault>, i: nat): Fault {
    if i < |faults| then faults[i] else NoFault
  }

  /** migrateUp from file `i` on. */
  function RunFrom(files: seq<File>, i: nat, db: Db, a: Attempt, sum: string -> string): (Db, bool)
    requires i <= |files|
    decreases |files| - i
  {
    if i == |files| then (db, true)
    else
      match Round(db, files[i], a.seen, FaultAt(a.faults, i), sum)
      case Abort(after) => (after, false)
      case Next(after) => RunFrom(files, i + 1, after, a, sum)
  }

  function Run(files: seq<File>, db: Db, a: Attempt, sum: string -> string): (Db, bool) {
    if a.starts then RunFrom(files, 0, db, a, sum) else (db, false)
  }

  // ---- The code ----

  class Database {
    var table: map<string, string>
    ghost var committed: seq<File>

    ghost function State(): Db
      reads this
    {
      Db(table, committed)
    }

    constructor (table: map<string, string>)
      ensures State() == Db(table, [])
    {
      this.table, committed := table, [];
    }

    /** A transaction that executes a script and records it: all of it happens or none. */
    method Apply(file: File, checksum: string, fault: Fault) returns (ok: bool)
      modifies this
      ensures fault in {BeginFails, ExecFails} || file.name in old(table) || fault == CommitFails ==>
                !ok && State() == old(State())
      ensures !(fault in {BeginFails, ExecFails} || file.name in old(table) || fault == CommitFails) ==>
                ok == (fault != CommitLost) && State() == Db(old(table)[file.name := checksum], old(committed) + [file])
    {
      if fault == BeginFails || fault == ExecFails || file.name in table || fault == CommitFails {
        return false;
      }
      table := table[file.name := checksum];
      committed := committed + [file];
      ok := fault != CommitLost;
    }
  }

  method MigrateUp(db: Database, files: seq<File>, a: Attempt, sum: string -> string) returns (ok: bool)
    requires Digest(sum)
    modifies db
    ensures (db.State(), ok) == Run(files, old(db.State()), a, sum)
  {
    if !a.starts {
      return false;
    }
    for i := 0 to |files|
      invariant RunFrom(files, i, db.State(), a, sum) == RunFrom(files, 0, old(db.State()), a, sum)
    {
      var file, fault := files[i], FaultAt(a.faults, i);
      if fault == ReadFails {
        return false;
      }
      var checksum := sum(file.content);
      if file.name in a.seen && a.seen[file.name] == checksum {
        continue;
      }
      if file.name in a.seen && a.seen[file.name] != "" && a.seen[file.name] != checksum {
        return false;
      }
      var applied := db.Apply(file, checksum, fault);
      if !applied {
        return false;
      }
    }
    ok := true;
  }

  /** migrationFiles: the .sql files of a directory in byte order of their names. */
  method MigrationFiles(entries: seq<Entry>) returns (files: seq<File>)
    requires DistinctKeys(entries, (e: Entry) => e.name)
    ensures Ascending(files)
    ensures forall name, content :: File(name, content) in files <==>
        Entry(name, false, content) in entries && |name| >= 4 && name[|name| - 4..] == ".sql"
  {
    var found := [];
    for i := 0 to |entries|
      invariant forall name, content ::
        File(name, content) in found <==> Entry(name, false, content) in entries[..i] && IsSql(name)
      invariant DistinctKeys(found, (f: File) => f.name)
    {
      var entry := entries[i];
      assert entries[..i + 1] == entries[..i] + [entry];
      if entry.isDir || !IsSql(entry.name) {
        continue;
      }
      NewName(entries, i, found);
      found := found + [File(entry.name, entry.content)];
    }
    assert entries[..|entries|] == entries;
    ByNameIsOrder();
    files := SortSlice(found, ByName);
    ArrangementMembers(files, found);
    DistinctKeysKept(files, found, (f: File) => f.name);
    forall i, j | 0 <= i < j < |files| ensures StringLess(files[i].name, files[j].name) {
      StringLessTotal(files[i].name, files[j].name);
      KeysDiffer(files, (f: File) => f.name, i, j);
    }
  }

  predicate IsSql(name: string) {
    |name| >= 4 && name[|name| - 4..] == ".sql"
  }

  predicate ByName(a: File, b: File) {
    StringLess(a.name, b.name)
  }

  predicate Ascending(files: seq<File>) {
    forall i, j :: 0 <= i < j < |files| ==> StringLess(files[i].name, files[j].name)
  }

  lemma ByNameIsOrder()
    ensures StrictWeakOrder(ByName)
  {
    forall a, b, c: File
      ensures !ByName(a, a)
      ensures ByName(a, b) && ByName(b, c) ==> ByName(a, c)
      ensures ByName(a, c) ==> ByName(a, b) || ByName(b, c)
    {
      StringOrder(a.name, b.name, c.name);
    }
  }

  lemma NewName(entries: seq<Entry>, i: nat, found: seq<File>)
    requires DistinctKeys(entries, (e: Entry) => e.name) && i < |entries|
    requires forall f <- found :: Entry(f.name, false, f.content) in entries[..i]
    requires DistinctKeys(found, (f: File) => f.name)
    ensures DistinctKeys(found + [File(entries[i].name, entries[i].content)], (f: File) => f.name)
  {
    forall j | 0 <= j < |found| ensures found[j].name != entries[i].name {
      assert Entry(found[j].name, false, found[j].content) in entries[..i];
      var k: nat :| k < i && entries[..i][k] == Entry(found[j].name, false, found[j].content);
      KeysDiffer(entries, (e: Entry) => e.name, k, i);
    }
  }

  lemma AscendingDiffer(files: seq<File>, i: nat, j: nat)
    requires Ascending(files) && i < j < |files|
    ensures files[i].name != files[j].name
  {
    StringLessTotal(files[i].name, files[j].name);
  }

  // ---- Stages of a migration ----

  /** The database once the first `k` files are settled: those it lacked are committed, in order. */
  function Stage(start: Db, files: seq<File>, k: nat, sum: string -> string): Db
    requires k <= |files|
  {
    if k == 0 then start
    else
      var before := Stage(start, files, k - 1, sum);
      if files[k - 1].name in start.table then before else Commit(before, files[k - 1], sum)
  }

  function Pending(start: Db, files: seq<File>): seq<File> {
    if files == [] then []
    else
      var rest := Pending(start, files[..|files| - 1]);
      if files[|files| - 1].name in start.table then rest else rest + [files[|files| - 1]]
  }

  /** A stage commits what was pending among the first `k` files, in their order, and nothing else. */
  lemma {:induction false} StageCommits(start: Db, files: seq<File>, k: nat, sum: string -> string)
    requires k <= |files|
    ensures Stage(start, files, k, sum).committed == start.committed + Pending(start, files[..k])
    decreases k
  {
    if k > 0 {
      StageCommits(start, files, k - 1, sum);
      assert files[..k][..k - 1] == files[..k - 1];
    }
  }

  predicate NamedIn(files: seq<File>, k: nat, name: string)
    requires k <= |files|
  {
    exists i | 0 <= i < k :: files[i].name == name
  }

  lemma NamedLater(files: seq<File>, k: nat, i: nat, name: string)
    requires k <= i <= |files|
    ensures NamedIn(files, k, name) ==> NamedIn(files, i, name)
  {
  }

  lemma {:induction false} StageKeys(start: Db, files: seq<File>, k: nat, sum: string -> string, name: string)
    requires k <= |files|
    ensures name in Stage(start, files, k, sum).table <==> name in start.table || NamedIn(files, k, name)
    decreases k
  {
    if k > 0 {
      StageKeys(start, files, k - 1, sum, name);
      assert NamedIn(files, k, name) <==> NamedIn(files, k - 1, name) || files[k - 1].name == name;
    }
  }

  /** And records each with its checksum, beside the rows that were there before. */
  lemma {:induction false} StageRows(start: Db, files: seq<File>, k: nat, sum: string -> string)
    requires k <= |files| && Ascending(files)
    ensures SubMap(start.table, Stage(start, files, k, sum).table)
    ensures forall i | 0 <= i < k && files[i].name !in start.table ::
              files[i].name in Stage(start, files, k, sum).table
              && Stage(start, files, k, sum).table[files[i].name] == sum(files[i].content)
    decreases k
  {
    if k > 0 {
      StageRows(start, files, k - 1, sum);
      forall i | 0 <= i < k - 1 ensures files[i].name != files[k - 1].name {
        AscendingDiffer(files, i, k - 1);
      }
    }
  }

  lemma NotYet(start: Db, files: seq<File>, k: nat, sum: string -> string)
    requires Ascending(files) && k < |files| && files[k].name !in start.table
    ensures files[k].name !in Stage(start, files, k, sum).table
  {
    StageKeys(start, files, k, sum, files[k].name);
    forall i | 0 <= i < k ensures files[i].name != files[k].name {
      AscendingDiffer(files, i, k);
    }
  }

  function Max(a: nat, b: nat): nat { if a < b then b else a }

  /** What a round does, for a file the table holds and for one it lacks. */
  lemma RoundCases(db: Db, file: File, seen: map<string, string>, fault: Fault, sum: string -> string)
    requires Digest(sum)
    ensures var r := Round(db, file, seen, fault, sum);
      && (file.name in db.table ==> r == Abort(db) || r == Next(db))
      && (file.name !in db.table && file.name !in seen ==>
            r == Abort(db) || r == Abort(Commit(db, file, sum)) || r == Next(Commit(db, file, sum)))
      && (r.Abort? && fault != CommitLost ==> r == Abort(db))
      && (r.Abort? && fault == CommitLost && file.name !in db.table && file.name !in seen ==>
            r == Abort(Commit(db, file, sum)))
  {
  }

  lemma StageStep(start: Db, files: seq<File>, i: nat, sum: string -> string)
    requires i < |files|
    ensures Stage(start, files, i + 1, sum)
         == if files[i].name in start.table then Stage(start, files, i, sum)
            else Commit(Stage(start, files, i, sum), files[i], sum)
  {
  }

  /** One round starts at a stage and ends at the same stage or the next. */
  lemma RoundStage(start: Db, files: seq<File>, i: nat, k: nat, seen: map<string, string>, fault: Fault,
                   sum: string -> string)
    requires Digest(sum) && Ascending(files) && i < |files| && k <= |files|
    requires forall name <- seen :: name in Stage(start, files, k, sum).table
    ensures var r := Round(Stage(start, files, Max(i, k), sum), files[i], seen, fault, sum);
      || r == Abort(Stage(start, files, Max(i, k), sum))
      || r == Abort(Stage(start, files, Max(i + 1, k), sum))
      || r == Next(Stage(start, files, Max(i + 1, k), sum))
  {
    hide Stage, Round, Commit, Ascending, Digest;
    var name := files[i].name;
    RoundCases(Stage(start, files, Max(i, k), sum), files[i], seen, fault, sum);
    StageKeys(start, files, k, sum, name);
    if i < k {
      assert NamedIn(files, k, name);
    } else {
      StageStep(start, files, i, sum);
      if name in start.table {
        StageKeys(start, files, i, sum, name);
      } else {
        NotYet(start, files, i, sum);
        StageKeys(start, files, i, sum, name);
        NamedLater(files, k, i, name);
      }
    }
  }

  /** Whatever befalls a run, it takes the database from a stage to the same or a later one. */
  lemma {:induction false} RunStages(start: Db, files: seq<File>, i: nat, k: nat, a: Attempt, sum: string -> string)
    returns (reached: nat)
    requires Digest(sum) && Ascending(files) && i <= |files| && k <= |files|
    requires forall name <- a.seen :: name in Stage(start, files, k, sum).table
    ensures Max(i, k) <= reached <= |files|
    ensures var r := RunFrom(files, i, Stage(start, files, Max(i, k), sum), a, sum);
      r.0 == Stage(start, files, reached, sum) && (r.1 ==> reached == |files|)
    decreases |files| - i
  {
    reached := Max(i, k);
    if i < |files| {
      hide Stage, Round;
      var db := Stage(start, files, Max(i, k), sum);
      RoundStage(start, files, i, k, a.seen, FaultAt(a.faults, i), sum);
      match Round(db, files[i], a.seen, FaultAt(a.faults, i), sum) {
        case Abort(after) =>
          reached := if after == db then Max(i, k) else Max(i + 1, k);
        case Next(after) =>
          reached := RunStages(start, files, i + 1, k, a, sum);
      }
    }
  }

  /** The file at which a run stops; past the last one when it finishes. */
  function StopsAt(files: seq<File>, i: nat, db: Db, a: Attempt, sum: string -> string): (f: nat)
    requires i <= |files|
    ensures i <= f <= |files|
    decreases |files| - i
  {
    if i == |files| then i
    else
      match Round(db, files[i], a.seen, FaultAt(a.faults, i), sum)
      case Abort(_) => i
      case Next(after) => StopsAt(files, i + 1, after, a, sum)
  }

  /** How many files are settled when a run stops at `f`: the failing one only if its commit went through. */
  function SettledAt(files: seq<File>, f: nat, a: Attempt): (k: nat)
    requires f <= |files|
    ensures f <= k <= |files|
  {
    if f < |files| && FaultAt(a.faults, f) == CommitLost then f + 1 else f
  }

  lemma RoundSettles(start: Db, files: seq<File>, i: nat, a: Attempt, sum: string -> string)
    requires Digest(sum) && Ascending(files) && i < |files| && SubMap(a.seen, start.table)
    ensures var r := Round(Stage(start, files, i, sum), files[i], a.seen, FaultAt(a.faults, i), sum);
      r.db == Stage(start, files, if r.Abort? then SettledAt(files, i, a) else i + 1, sum)
  {
    hide Stage, Round, Commit, Ascending, Digest;
    RoundCases(Stage(start, files, i, sum), files[i], a.seen, FaultAt(a.faults, i), sum);
    StageStep(start, files, i, sum);
    if files[i].name in start.table {
      StageKeys(start, files, i, sum, files[i].name);
    } else {
      NotYet(start, files, i, sum);
    }
  }

  lemma {:induction false} RunSettles(start: Db, files: seq<File>, i: nat, a: Attempt, sum: string -> string)
    requires Digest(sum) && Ascending(files) && i <= |files| && SubMap(a.seen, start.table)
    ensures var db := Stage(start, files, i, sum);
      var f := StopsAt(files, i, db, a, sum);
      RunFrom(files, i, db, a, sum) == (Stage(start, files, SettledAt(files, f, a), sum), f == |files|)
    decreases |files| - i
  {
    if i < |files| {
      hide Stage, Round, SettledAt;
      RoundSettles(start, files, i, a, sum);
      if Round(Stage(start, files, i, sum), files[i], a.seen, FaultAt(a.faults, i), sum).Next? {
        RunSettles(start, files, i + 1, a, sum);
      }
    } else {
      assert SettledAt(files, i, a) == i;
    }
  }

  /**
   * What stops a run at a file: it cannot be read; its row is there but was not seen, or tells another
   * checksum; or it has no row and its transaction fails, or the word of the commit is lost.
   */
  predicate Obstructed(start: Db, file: File, seen: map<string, string>, fault: Fault, sum: string -> string) {
    || fault == ReadFails
    || (if file.name in start.table then file.name !in seen || seen[file.name] != sum(file.content)
        else fault == BeginFails || fault == ExecFails || fault == CommitFails || fault == CommitLost)
  }

  lemma RoundStops(start: Db, db: Db, file: File, seen: map<string, string>, fault: Fault, sum: string -> string)
    requires Digest(sum) && SubMap(seen, start.table) && (file.name in start.table <==> file.name in db.table)
    ensures Round(db, file, seen, fault, sum).Abort? <==> Obstructed(start, file, seen, fault, sum)
  {
    assert sum(file.content) != "";
  }

  /** A run stops at the first file with something in its way. */
  lemma {:induction false} StopsAtFirst(start: Db, files: seq<File>, i: nat, a: Attempt, sum: string -> string)
    requires Digest(sum) && Ascending(files) && i <= |files| && SubMap(a.seen, start.table)
    ensures var f := StopsAt(files, i, Stage(start, files, i, sum), a, sum);
      && (forall j | i <= j < f :: !Obstructed(start, files[j], a.seen, FaultAt(a.faults, j), sum))
      && (f < |files| ==> Obstructed(start, files[f], a.seen, FaultAt(a.faults, f), sum))
    decreases |files| - i
  {
    if i < |files| {
      hide Stage, Round, SettledAt, Obstructed, Ascending, Digest;
      if files[i].name in start.table {
        StageKeys(start, files, i, sum, files[i].name);
      } else {
        NotYet(start, files, i, sum);
      }
      RoundStops(start, Stage(start, files, i, sum), files[i], a.seen, FaultAt(a.faults, i), sum);
      RoundSettles(start, files, i, a, sum);
      if Round(Stage(start, files, i, sum), files[i], a.seen, FaultAt(a.faults, i), sum).Next? {
        StopsAtFirst(start, files, i + 1, a, sum);
      }
    }
  }

  // ---- Any number of runs ----

  /** What a run may see: some of the rows that are there. */
  ghost predicate Honest(files: seq<File>, db: Db, attempts: seq<Attempt>, sum: string -> string)
    decreases |attempts|
  {
    attempts != [] ==>
      && SubMap(attempts[0].seen, db.table)
      && Honest(files, Run(files, db, attempts[0], sum).0, attempts[1..], sum)
  }

  /** The database after a series of runs, and whether the last succeeded. */
  function Runs(files: seq<File>, db: Db, attempts: seq<Attempt>, sum: string -> string): (Db, bool)
    decreases |attempts|
  {
    if attempts == [] then (db, false)
    else
      var r := Run(files, db, attempts[0], sum);
      if |attempts| == 1 then r else Runs(files, r.0, attempts[1..], sum)
  }

  lemma {:induction false} RunsStages(start: Db, files: seq<File>, k: nat, attempts: seq<Attempt>,
                                      sum: string -> string)
    returns (reached: nat)
    requires Digest(sum) && Ascending(files) && k <= |files|
    requires Honest(files, Stage(start, files, k, sum), attempts, sum)
    ensures k <= reached <= |files|
    ensures var r := Runs(files, Stage(start, files, k, sum), attempts, sum);
      r.0 == Stage(start, files, reached, sum) && (r.1 ==> reached == |files|)
    decreases |attempts|
  {
    reached := k;
    if attempts != [] {
      hide Stage, RunFrom;
      if attempts[0].starts {
        reached := RunStages(start, files, 0, k, attempts[0], sum);
      }
      if |attempts| > 1 {
        reached := RunsStages(start, files, reached, attempts[1..], sum);
      }
    }
  }

  /** Rows that agree with the files of the same name. */
  predicate Consistent(table: map<string, string>, files: seq<File>, sum: string -> string) {
    forall f <- files :: f.name in table ==> table[f.name] == sum(f.content)
  }

  function Uninterrupted(db: Db): Attempt {
    Attempt(true, db.table, [])
  }

  /** Nothing stops a round when no fault is left and the rows do not contradict the file. */
  lemma CleanRound(db: Db, file: File, seen: map<string, string>, sum: string -> string)
    requires Digest(sum)
    requires if file.name in seen then seen[file.name] == sum(file.content) else file.name !in db.table
    ensures Round(db, file, seen, NoFault, sum).Next?
  {
  }

  lemma {:induction false} CleanRunFrom(start: Db, files: seq<File>, i: nat, sum: string -> string)
    requires Digest(sum) && Ascending(files) && i <= |files| && Consistent(start.table, files, sum)
    ensures StopsAt(files, i, Stage(start, files, i, sum), Uninterrupted(start), sum) == |files|
    decreases |files| - i
  {
    if i < |files| {
      hide Stage, Round, Ascending, Digest;
      var a := Uninterrupted(start);
      if files[i].name !in start.table {
        NotYet(start, files, i, sum);
      }
      CleanRound(Stage(start, files, i, sum), files[i], a.seen, sum);
      RoundSettles(start, files, i, a, sum);
      CleanRunFrom(start, files, i + 1, sum);
    }
  }

  lemma {:induction false} SuccessIsConsistent(files: seq<File>, i: nat, db: Db, a: Attempt, table: map<string,
                                               string>, sum: string -> string)
    requires Digest(sum) && i <= |files| && RunFrom(files, i, db, a, sum).1
    requires forall name <- table :: name in db.table && (name in a.seen ==> a.seen[name] == table[name])
    ensures forall j | i <= j < |files| :: files[j].name in table ==> table[files[j].name] == sum(files[j].content)
    decreases |files| - i
  {
    if i < |files| {
      var r := Round(db, files[i], a.seen, FaultAt(a.faults, i), sum);
      SuccessIsConsistent(files, i + 1, r.db, a, table, sum);
    }
  }

  // ---- Main results ----

  /**
   * A run stops at the first file `f` that is obstructed, and has then committed exactly the pending
   * files before `f`, in sorted order, and `f` itself only if the commit went through and just the word
   * of it was lost. Rows that were there stay, each committed file has one with its checksum, and there
   * are no others. The run reports success exactly when no file is obstructed.
   */
  lemma RunCommitsPrefix(start: Db, files: seq<File>, a: Attempt, sum: string -> string)
    requires Digest(sum) && Ascending(files) && SubMap(a.seen, start.table) && a.starts
    ensures var (after, ok) := Run(files, start, a, sum);
      var f := StopsAt(files, 0, start, a, sum);
      var pending := Pending(start, files[..if f < |files| && FaultAt(a.faults, f) == CommitLost then f + 1 else f]);
      && (forall j | 0 <= j < f :: !Obstructed(start, files[j], a.seen, FaultAt(a.faults, j), sum))
      && (f < |files| ==> Obstructed(start, files[f], a.seen, FaultAt(a.faults, f), sum))
      && after.committed == start.committed + pending
      && Ascending(pending)
      && Recorded(start.table, pending, after.table, sum)
      && (ok <==> f == |files|)
  {
    assert Stage(start, files, 0, sum) == start;
    RunSettles(start, files, 0, a, sum);
    StopsAtFirst(start, files, 0, a, sum);
    hide Obstructed, Round;
    var settled := SettledAt(files, StopsAt(files, 0, start, a, sum), a);
    StageCommits(start, files, settled, sum);
    StageRecords(start, files, settled, sum);
    PendingAscending(start, files[..settled]);
  }

  /** The old rows as they were, one with its checksum for each file, and no others. */
  ghost predicate Recorded(before: map<string, string>, files: seq<File>, table: map<string, string>,
                           sum: string -> string) {
    && SubMap(before, table)
    && (forall f <- files :: f.name in table && table[f.name] == sum(f.content))
    && (forall name <- table :: name in before || exists f <- files :: f.name == name)
  }

  /** What is pending: the files without a row. */
  lemma {:induction false} PendingMeaning(start: Db, files: seq<File>, f: File)
    ensures f in Pending(start, files) <==> f in files && f.name !in start.table
    decreases |files|
  {
    if files != [] {
      PendingMeaning(start, files[..|files| - 1], f);
      assert files == files[..|files| - 1] + [files[|files| - 1]];
    }
  }

  lemma StageRecords(start: Db, files: seq<File>, k: nat, sum: string -> string)
    requires k <= |files| && Ascending(files)
    ensures Recorded(start.table, Pending(start, files[..k]), Stage(start, files, k, sum).table, sum)
  {
    hide Stage, Pending, Ascending;
    var (pending, table) := (Pending(start, files[..k]), Stage(start, files, k, sum).table);
    StageRows(start, files, k, sum);
    forall f | f in pending ensures f.name in table && table[f.name] == sum(f.content) {
      PendingMeaning(start, files[..k], f);
      var i :| 0 <= i < k && files[..k][i] == f;
      assert files[i] == f;
    }
    forall name | name in table && name !in start.table ensures exists f <- pending :: f.name == name {
      StageKeys(start, files, k, sum, name);
      var i :| 0 <= i < k && files[i].name == name;
      PendingMeaning(start, files[..k], files[i]);
      assert files[..k][i] == files[i];
    }
  }

  lemma {:induction false} PendingAscending(start: Db, files: seq<File>)
    requires Ascending(files)
    ensures Ascending(Pending(start, files))
    ensures forall f <- Pending(start, files) :: f in files
    decreases |files|
  {
    if files != [] {
      var init, last := files[..|files| - 1], files[|files| - 1];
      PendingAscending(start, init);
      var rest := Pending(start, init);
      forall i | 0 <= i < |rest| ensures StringLess(rest[i].name, last.name) {
        assert rest[i] in init;
        var j: nat :| j < |init| && init[j] == rest[i];
        assert StringLess(files[j].name, files[|files| - 1].name);
      }
    }
  }

  /**
   * Resumable: any series of runs that ends with a success leaves the table and the committed scripts
   * that one uninterrupted run would have left, and a further run, however it fares, changes nothing.
   */
  lemma ResumeIsOneRun(start: Db, files: seq<File>, attempts: seq<Attempt>, further: Attempt, sum: string -> string)
    requires Digest(sum) && Ascending(files) && Honest(files, start, attempts, sum)
    requires Runs(files, start, attempts, sum).1
    ensures Run(files, start, Uninterrupted(start), sum) == Runs(files, start, attempts, sum)
    ensures var end := Runs(files, start, attempts, sum).0;
      SubMap(further.seen, end.table) ==> Run(files, end, further, sum).0 == end
  {
    hide RunFrom;
    assert Stage(start, files, 0, sum) == start;
    var reached := RunsStages(start, files, 0, attempts, sum);
    SeriesIsConsistent(start, files, 0, attempts, sum);
    CleanRunFrom(start, files, 0, sum);
    RunSettles(start, files, 0, Uninterrupted(start), sum);
    var end := Stage(start, files, |files|, sum);
    if SubMap(further.seen, end.table) && further.starts {
      var last := RunStages(start, files, 0, |files|, further, sum);
    }
  }

  lemma {:induction false} SeriesIsConsistent(start: Db, files: seq<File>, k: nat, attempts: seq<Attempt>,
                                              sum: string -> string)
    requires Digest(sum) && Ascending(files) && k <= |files|
    requires Honest(files, Stage(start, files, k, sum), attempts, sum)
    requires Runs(files, Stage(start, files, k, sum), attempts, sum).1
    ensures Consistent(start.table, files, sum)
    decreases |attempts|
  {
    hide RunFrom, Stage;
    var db, a := Stage(start, files, k, sum), attempts[0];
    if |attempts| == 1 {
      StageRows(start, files, k, sum);
      SuccessIsConsistent(files, 0, db, a, start.table, sum);
    } else {
      var reached := k;
      if a.starts {
        reached := RunStages(start, files, 0, k, a, sum);
      }
      SeriesIsConsistent(start, files, reached, attempts[1..], sum);
    }
  }

  /** An uninterrupted run succeeds exactly when no recorded checksum contradicts a file. */
  lemma UninterruptedSucceeds(start: Db, files: seq<File>, sum: string -> string)
    requires Digest(sum) && Ascending(files)
    ensures Run(files, start, Uninterrupted(start), sum).1 <==> Consistent(start.table, files, sum)
  {
    if Run(files, start, Uninterrupted(start), sum).1 {
      SuccessIsConsistent(files, 0, start, Uninterrupted(start), start.table, sum);
    }
    assert Stage(start, files, 0, sum) == start;
    RunSettles(start, files, 0, Uninterrupted(start), sum);
    if Consistent(start.table, files, sum) {
      CleanRunFrom(start, files, 0, sum);
    }
  }

  /** No name is committed twice, and every committed name has its row. */
  ghost predicate CommittedOnce(db: Db) {
    && (forall i, j :: 0 <= i < j < |db.committed| ==> db.committed[i].name != db.committed[j].name)
    && (forall f <- db.committed :: f.name in db.table)
  }

  lemma {:induction false} CommitsOnce(files: seq<File>, i: nat, db: Db, a: Attempt, sum: string -> string)
    requires i <= |files| && CommittedOnce(db)
    ensures CommittedOnce(RunFrom(files, i, db, a, sum).0)
    decreases |files| - i
  {
    if i < |files| {
      var r := Round(db, files[i], a.seen, FaultAt(a.faults, i), sum);
      assert CommittedOnce(r.db);
      CommitsOnce(files, i + 1, r.db, a, sum);
    }
  }

  /** Runs over a directory whose files may change from one run to the next. */
  function Deploy(db: Db, runs: seq<(seq<File>, Attempt)>, sum: string -> string): Db
    decreases |runs|
  {
    if runs == [] then db else Deploy(Run(runs[0].0, db, runs[0].1, sum).0, runs[1..], sum)
  }

  /** Each name commits at most once, whatever the files are and whatever rows each run sees. */
  lemma {:induction false} DeployCommitsOnce(db: Db, runs: seq<(seq<File>, Attempt)>, sum: string -> string)
    requires CommittedOnce(db)
    ensures CommittedOnce(Deploy(db, runs, sum))
    decreases |runs|
  {
    if runs != [] {
      CommitsOnce(runs[0].0, 0, db, runs[0].1, sum);
      DeployCommitsOnce(Run(runs[0].0, db, runs[0].1, sum).0, runs[1..], sum);
    }
  }
}
