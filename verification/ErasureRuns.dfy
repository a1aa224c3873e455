/** Runs of erasures and reapplies with crashes at any point and restores of any earlier backup
    (remembrance/erasure.py, scripts/backup.py, scripts/restore.py). */
module ErasureRuns {
  import opened Wrappers
  import opened Digests
  import opened ErasureLedger
  import opened Erasure
  import opened MediaNames

  // What the one process that holds the ledger's lock is doing. While it deletes, it also holds the database's
  // only write transaction; `todo` are the files it still has to unlink before it commits.
  datatype Work =
    | Idle
    | Erasing(entry: Entry, todo: set<Filename>, reapplied: bool)
    | Reapplying(next: nat)
    | Reerasing(next: nat, todo: set<Filename>)

  datatype Backup = Backup(db: Db, files: set<Filename>)

  datatype State = State(
    db: Db,
    files: set<Filename>,
    entries: seq<Entry>,
    work: Work,
    uploads: map<Filename, Mid>,      // files written whose row is not committed yet
    backups: set<Backup>,
    everListed: map<Filename, Mid>)   // every file name a committed media row ever gave to a memorial

  datatype Step =
    // the web application
    | CreateMemorial(mid: Mid, owner: string)
    | ChangeOwner(mid: Mid, owner: string)
    | AddRow(row: Row)
    | RemoveRow(row: Row)
    | BeginUpload(name: Filename, mid: Mid)
    | CommitUpload(name: Filename)
    | AbortUpload(name: Filename)
    | AbandonUpload(name: Filename)   // the web process dies
    // backups
    | TakeBackup
    | Restore(backup: Backup)
    // erase
    | BeginErase(mid: Mid, owner: string, actor: string, evidence: Digest, at: int)
    | Unlink(name: Filename)
    | CommitErase
    // reapply
    | BeginReapply
    | NextEntry
    | CommitReerase
    | EndReapply
    // the process that holds the ledger dies
    | Crash

  const START := State(Db(map[], {}, map[], []), {}, [], Idle, map[], {}, map[])

  predicate WriterFree(s: State) {
    s.work.Idle? || s.work.Reapplying?
  }

  predicate Enabled(s: State, step: Step) {
    match step
    case CreateMemorial(mid, _) => WriterFree(s) && mid !in s.db.memorials && mid !in s.db.erasures
    case ChangeOwner(mid, _) => WriterFree(s) && mid in s.db.memorials
    case AddRow(row) =>
      WriterFree(s) && row.table != Media && ForeignKeys(s.db.(rows := s.db.rows + {row}))
    case RemoveRow(row) =>
      WriterFree(s) && row.table != Media && ForeignKeys(s.db.(rows := s.db.rows - {row}))
    case BeginUpload(name, _) =>
      Safe(name) && name !in s.files && name !in s.uploads && name !in s.everListed
    case CommitUpload(name) => WriterFree(s) && name in s.uploads && s.uploads[name] in s.db.memorials
    case AbortUpload(name) => name in s.uploads
    case AbandonUpload(name) => name in s.uploads
    case TakeBackup => Listed(s.db) <= s.files
    case Restore(backup) => backup in s.backups
    case BeginErase(mid, owner, _, _, _) => s.work.Idle? && EraseOutcome(s.db, s.entries, mid, owner) == Ok(true)
    case Unlink(name) => (s.work.Erasing? || s.work.Reerasing?) && name in s.work.todo
    case CommitErase => s.work.Erasing? && s.work.todo == {}
    case BeginReapply => s.work.Idle? && Missing(s.db, s.entries) == {}
    case NextEntry =>
      && s.work.Reapplying? && s.work.next < |s.entries|
      && (s.entries[s.work.next].body.mid in s.db.memorials ==> AllSafe(s.db, s.entries[s.work.next].body.mid))
    case CommitReerase => s.work.Reerasing? && s.work.todo == {} && s.work.next < |s.entries|
    case EndReapply => s.work.Reapplying? && s.work.next == |s.entries|
    case Crash => true
  }

  function Listed(db: Db): set<Filename> {
    set r | r in db.rows && r.table == Media :: r.id
  }

  function Do(hash: Hash, s: State, step: Step): State
    requires Enabled(s, step)
  {
    match step
    case CreateMemorial(mid, owner) => s.(db := s.db.(memorials := s.db.memorials[mid := owner]))
    case ChangeOwner(mid, owner) => s.(db := s.db.(memorials := s.db.memorials[mid := owner]))
    case AddRow(row) => s.(db := s.db.(rows := s.db.rows + {row}))
    case RemoveRow(row) => s.(db := s.db.(rows := s.db.rows - {row}))
    case BeginUpload(name, mid) => s.(files := s.files + {name}, uploads := s.uploads[name := mid])
    case CommitUpload(name) =>
      s.(db := s.db.(rows := s.db.rows + {Row(Media, s.uploads[name], name)}),
         everListed := s.everListed[name := s.uploads[name]], uploads := s.uploads - {name})
    case AbortUpload(name) => s.(files := s.files - {name}, uploads := s.uploads - {name})
    case AbandonUpload(name) => s.(uploads := s.uploads - {name})
    case TakeBackup => s.(backups := s.backups + {Backup(s.db, Listed(s.db))})
    case Restore(backup) => s.(db := backup.db, files := backup.files, work := Idle, uploads := map[])
    case BeginErase(mid, _, actor, evidence, at) =>
      var entry := Decision(hash, s.entries, mid, actor, evidence, at);
      s.(entries := Recorded(s.entries, entry),
         work := Erasing(entry, Filenames(s.db, mid), EntryFor(s.entries, mid).Some?))
    case Unlink(name) => s.(files := s.files - {name}, work := s.work.(todo := s.work.todo - {name}))
    case CommitErase => s.(db := AfterErasure(s.db, s.work.entry, s.work.reapplied), work := Idle)
    case BeginReapply => s.(work := Reapplying(0))
    case NextEntry =>
      var entry := s.entries[s.work.next];
      if entry.body.mid in s.db.memorials then s.(work := Reerasing(s.work.next, Filenames(s.db, entry.body.mid)))
      else s.(db := Registered(s.db, entry), work := Reapplying(s.work.next + 1))
    case CommitReerase =>
      s.(db := AfterErasure(s.db, s.entries[s.work.next], true), work := Reapplying(s.work.next + 1))
    case EndReapply => s.(work := Idle)
    case Crash => s.(work := Idle)
  }

  /** The state after a run, if each of its steps could be taken. */
  function Replay(hash: Hash, steps: seq<Step>): Option<State> {
    if steps == [] then Some(START)
    else
      var before := Replay(hash, steps[..|steps| - 1]);
      if before.Some? && Enabled(before.value, steps[|steps| - 1])
      then Some(Do(hash, before.value, steps[|steps| - 1])) else None
  }

  // ---- what every run keeps ----

  // A database, live or in a backup, beside the ledger and the names ever listed.
  ghost predicate DbInv(db: Db, entries: seq<Entry>, everListed: map<Filename, Mid>) {
    && ForeignKeys(db)
    && Missing(db, entries) == {}
    && (forall r :: r in db.rows && r.table == Media ==> Safe(r.id) && r.id in everListed && everListed[r.id] == r.mid)
  }

  // A file once listed is either still listed or gone.
  ghost predicate FilesInv(db: Db, files: set<Filename>, everListed: map<Filename, Mid>) {
    forall name :: name in files && name in everListed ==> Row(Media, everListed[name], name) in db.rows
  }

  ghost predicate BackupsInv(s: State) {
    forall b :: b in s.backups ==>
      DbInv(b.db, s.entries, s.everListed) && FilesInv(b.db, b.files, s.everListed)
      && b.files <= Listed(b.db)
  }

  ghost predicate DoneUpTo(s: State, n: nat)
    requires n <= |s.entries|
  {
    forall j :: 0 <= j < n ==> s.entries[j].body.mid !in s.db.memorials && s.entries[j].body.mid in s.db.erasures
  }

  ghost predicate UnlinkedSoFar(s: State, mid: Mid, todo: set<Filename>) {
    && todo <= Filenames(s.db, mid)
    && forall name :: name in Filenames(s.db, mid) && name !in todo ==> name !in s.files
  }

  ghost predicate WorkInv(s: State) {
    match s.work
    case Idle => true
    case Erasing(entry, todo, _) =>
      EntryFor(s.entries, entry.body.mid) == Some(entry) && UnlinkedSoFar(s, entry.body.mid, todo)
    case Reapplying(next) => next <= |s.entries| && DoneUpTo(s, next)
    case Reerasing(next, todo) =>
      next < |s.entries| && DoneUpTo(s, next) && UnlinkedSoFar(s, s.entries[next].body.mid, todo)
  }

  ghost predicate UploadsInv(s: State) {
    forall name :: name in s.uploads ==> Safe(name) && name !in s.everListed
  }

  ghost predicate Inv(hash: Hash, s: State) {
    && ValidLedger(hash, s.entries)
    && DbInv(s.db, s.entries, s.everListed)
    && FilesInv(s.db, s.files, s.everListed)
    && BackupsInv(s)
    && UploadsInv(s)
    && WorkInv(s)
  }

  // ---- each step keeps the invariant ----

  predicate ByWeb(step: Step) {
    step.CreateMemorial? || step.ChangeOwner? || step.AddRow? || step.RemoveRow?
  }

  predicate ByUpload(step: Step) {
    step.BeginUpload? || step.CommitUpload? || step.AbortUpload? || step.AbandonUpload?
  }

  lemma MissingOnlyReadsTheRegistry(a: Db, b: Db, entries: seq<Entry>)
    requires a.erasures == b.erasures
    ensures Missing(a, entries) == Missing(b, entries)
  {
  }

  lemma WebKeepsInv(hash: Hash, s: State, step: Step)
    requires Inv(hash, s) && Enabled(s, step) && ByWeb(step)
    ensures Inv(hash, Do(hash, s, step))
  {
    var t := Do(hash, s, step);
    MissingOnlyReadsTheRegistry(s.db, t.db, s.entries);
    assert DbInv(t.db, t.entries, t.everListed);
    assert BackupsInv(t);
  }

  lemma UploadKeepsInv(hash: Hash, s: State, step: Step)
    requires Inv(hash, s) && Enabled(s, step) && ByUpload(step)
    ensures Inv(hash, Do(hash, s, step))
  {
    var t := Do(hash, s, step);
    MissingOnlyReadsTheRegistry(s.db, t.db, s.entries);
    assert DbInv(t.db, t.entries, t.everListed);
    if step.CommitUpload? {
      UploadKeepsBackups(s, step.name);
    }
    assert BackupsInv(t);
    assert FilesInv(t.db, t.files, t.everListed);
    assert WorkInv(t);
  }

  // A name that was never listed is in no backup.
  lemma UploadKeepsBackups(s: State, name: Filename)
    requires BackupsInv(s) && UploadsInv(s) && name in s.uploads
    ensures forall b :: b in s.backups ==>
              var listed := s.everListed[name := s.uploads[name]];
              DbInv(b.db, s.entries, listed) && FilesInv(b.db, b.files, listed)
  {
  }

  lemma BackupKeepsInv(hash: Hash, s: State, step: Step)
    requires Inv(hash, s) && Enabled(s, step) && (step.TakeBackup? || step.Restore?)
    ensures Inv(hash, Do(hash, s, step))
  {
    var t := Do(hash, s, step);
    if step.TakeBackup? {
      assert DbInv(s.db, s.entries, s.everListed) && FilesInv(s.db, Listed(s.db), s.everListed);
    }
  }

  // A new decision leaves every database, live or stored, in agreement with the ledger.
  lemma DecisionKeepsBackups(hash: Hash, s: State, more: seq<Entry>)
    requires Inv(hash, s)
    ensures DbInv(s.db, s.entries + more, s.everListed)
    ensures forall b :: b in s.backups ==> DbInv(b.db, s.entries + more, s.everListed)
  {
    AppendingContradictsNothing(s.db, s.entries, more);
    forall b | b in s.backups ensures DbInv(b.db, s.entries + more, s.everListed) {
      AppendingContradictsNothing(b.db, s.entries, more);
    }
  }

  lemma BeginEraseKeepsInv(hash: Hash, s: State, step: Step)
    requires Inv(hash, s) && Enabled(s, step) && step.BeginErase?
    ensures Inv(hash, Do(hash, s, step))
  {
    var t := Do(hash, s, step);
    var entry := t.work.entry;
    if EntryFor(s.entries, step.mid).None? {
      AppendKeepsValid(hash, s.entries, entry);
      DecisionKeepsBackups(hash, s, [entry]);
      EntryForFirst(s.entries, [entry], step.mid);
    }
    assert BackupsInv(t);
  }

  lemma UnlinkKeepsInv(hash: Hash, s: State, step: Step)
    requires Inv(hash, s) && Enabled(s, step) && step.Unlink?
    ensures Inv(hash, Do(hash, s, step))
  {
    var t := Do(hash, s, step);
    assert BackupsInv(t);
  }

  lemma EntryForAt(hash: Hash, entries: seq<Entry>, i: nat)
    requires ValidLedger(hash, entries) && i < |entries|
    ensures EntryFor(entries, entries[i].body.mid) == Some(entries[i])
  {
  }

  lemma CommitKeepsInv(hash: Hash, s: State, entry: Entry, reapplied: bool)
    requires Inv(hash, s) && EntryFor(s.entries, entry.body.mid) == Some(entry)
    requires UnlinkedSoFar(s, entry.body.mid, {})
    ensures var db := AfterErasure(s.db, entry, reapplied);
            DbInv(db, s.entries, s.everListed) && FilesInv(db, s.files, s.everListed)
  {
    ReappliedContradictsNothing(s.db, s.entries, entry, reapplied);
    AfterErasureKeepsForeignKeys(s.db, entry, reapplied);
    var db := AfterErasure(s.db, entry, reapplied);
    forall name | name in s.files && name in s.everListed ensures Row(Media, s.everListed[name], name) in db.rows {
      assert name !in Filenames(s.db, entry.body.mid);
      assert Row(Media, s.everListed[name], name) in s.db.rows;
    }
  }

  lemma CommitEraseKeepsInv(hash: Hash, s: State, step: Step)
    requires Inv(hash, s) && Enabled(s, step) && step.CommitErase?
    ensures Inv(hash, Do(hash, s, step))
  {
    CommitKeepsInv(hash, s, s.work.entry, s.work.reapplied);
  }

  lemma CommitReeraseKeepsInv(hash: Hash, s: State, step: Step)
    requires Inv(hash, s) && Enabled(s, step) && step.CommitReerase?
    ensures Inv(hash, Do(hash, s, step))
  {
    var entry := s.entries[s.work.next];
    EntryForAt(hash, s.entries, s.work.next);
    CommitKeepsInv(hash, s, entry, true);
    DoneOneMore(s, AfterErasure(s.db, entry, true));
  }

  lemma DoneOneMore(s: State, db: Db)
    requires (s.work.Reapplying? || s.work.Reerasing?) && s.work.next < |s.entries| && DoneUpTo(s, s.work.next)
    requires db.memorials.Keys <= s.db.memorials.Keys && s.db.erasures.Keys <= db.erasures.Keys
    requires s.entries[s.work.next].body.mid !in db.memorials && s.entries[s.work.next].body.mid in db.erasures
    ensures DoneUpTo(s.(db := db), s.work.next + 1)
  {
  }

  lemma NextEntryKeepsInv(hash: Hash, s: State, step: Step)
    requires Inv(hash, s) && Enabled(s, step) && step.NextEntry?
    ensures Inv(hash, Do(hash, s, step))
  {
    var entry := s.entries[s.work.next];
    if entry.body.mid !in s.db.memorials {
      EntryForAt(hash, s.entries, s.work.next);
      ReappliedContradictsNothing(s.db, s.entries, entry, true);
      DoneOneMore(s, Registered(s.db, entry));
    }
  }

  lemma StepKeepsInv(hash: Hash, s: State, step: Step)
    requires Inv(hash, s) && Enabled(s, step)
    ensures Inv(hash, Do(hash, s, step))
  {
    if ByWeb(step) { WebKeepsInv(hash, s, step); }
    else if ByUpload(step) { UploadKeepsInv(hash, s, step); }
    else if step.TakeBackup? || step.Restore? { BackupKeepsInv(hash, s, step); }
    else if step.BeginErase? { BeginEraseKeepsInv(hash, s, step); }
    else if step.Unlink? { UnlinkKeepsInv(hash, s, step); }
    else if step.CommitErase? { CommitEraseKeepsInv(hash, s, step); }
    else if step.CommitReerase? { CommitReeraseKeepsInv(hash, s, step); }
    else if step.NextEntry? { NextEntryKeepsInv(hash, s, step); }
  }

  lemma {:induction false} RunKeepsInv(hash: Hash, steps: seq<Step>)
    requires Replay(hash, steps).Some?
    ensures Inv(hash, Replay(hash, steps).value)
  {
    if steps != [] {
      RunKeepsInv(hash, steps[..|steps| - 1]);
      StepKeepsInv(hash, Replay(hash, steps[..|steps| - 1]).value, steps[|steps| - 1]);
    }
  }

  // ---- main results ----

  /** In every run, through any crashes and restores, the true ledger is never refused: it verifies, it lacks and
      contradicts no recorded erasure (of the live database or of any backup), and no stored file name is unsafe. */
  lemma TrueLedgerIsNeverRefused(hash: Hash, steps: seq<Step>)
    requires Replay(hash, steps).Some?
    ensures var s := Replay(hash, steps).value;
            && ValidLedger(hash, s.entries) && Missing(s.db, s.entries) == {}
            && (forall b :: b in s.backups ==> Missing(b.db, s.entries) == {})
            && (forall mid: Mid :: AllSafe(s.db, mid))
  {
    RunKeepsInv(hash, steps);
  }

  /** No file that was ever listed for a ledgered memorial is left. */
  ghost predicate FilesGone(s: State) {
    forall name :: name in s.files && name in s.everListed ==> s.everListed[name] !in Ledgered(s.entries)
  }

  lemma DoneIsClean(hash: Hash, s: State)
    requires Inv(hash, s) && DoneUpTo(s, |s.entries|)
    ensures Clean(s.db, s.entries) && FilesGone(s)
  {
  }

  /** Whenever a reapply completes, after any run of erasures, crashes, restores and web activity, every ledgered
      memorial is recorded as erased and none of its rows and none of its listed files is left. */
  lemma CompletedReapplyLeavesNothing(hash: Hash, steps: seq<Step>)
    requires Replay(hash, steps).Some? && steps != [] && steps[|steps| - 1].EndReapply?
    ensures var s := Replay(hash, steps).value;
            Clean(s.db, s.entries) && FilesGone(s)
  {
    var before := steps[..|steps| - 1];
    RunKeepsInv(hash, before);
    RunKeepsInv(hash, steps);
    var s := Replay(hash, before).value;
    DoneIsClean(hash, Do(hash, s, EndReapply));
  }

  /** And that stays so until a backup is restored or a new erasure is decided. */
  lemma CleanStays(hash: Hash, s: State, step: Step)
    requires Inv(hash, s) && Enabled(s, step) && Clean(s.db, s.entries) && !step.Restore? && !step.BeginErase?
    ensures var t := Do(hash, s, step);
            Clean(t.db, t.entries) && FilesGone(t)
  {
    var t := Do(hash, s, step);
    StepKeepsInv(hash, s, step);
    assert DoneUpTo(t, |t.entries|) by {
      forall j | 0 <= j < |t.entries|
        ensures t.entries[j].body.mid !in t.db.memorials && t.entries[j].body.mid in t.db.erasures
      {
        assert t.entries[j] in s.entries;
      }
    }
    DoneIsClean(hash, t);
  }

  /** An erasure is only ever begun for the memorial's owner of that moment, with a registry that agrees with the ledger
      and files whose names are safe. */
  lemma EveryEraseNamedTheOwner(hash: Hash, steps: seq<Step>, step: Step)
    requires Replay(hash, steps).Some? && step.BeginErase?
    ensures var s := Replay(hash, steps).value;
            Enabled(s, step) <==>
              && s.work.Idle? && RegistryAgrees(s.db, s.entries)
              && step.mid in s.db.memorials && s.db.memorials[step.mid] == step.owner && FilesSafe(s.db, step.mid)
  {
    RunKeepsInv(hash, steps);
    OutcomesExactly(hash, Replay(hash, steps).value.db, Replay(hash, steps).value.entries, step.mid, step.owner);
  }

  // Step k decided this entry, for the owner the memorial had then.
  ghost predicate DecidedBy(hash: Hash, steps: seq<Step>, k: nat, entry: Entry) {
    && k < |steps| && steps[k].BeginErase? && Replay(hash, steps[..k]).Some?
    && var db := Replay(hash, steps[..k]).value.db;
    && steps[k].mid == entry.body.mid && entry.body.mid in db.memorials
    && db.memorials[entry.body.mid] == steps[k].owner
    && steps[k].actor == entry.body.actor && steps[k].evidence == entry.body.evidence
    && steps[k].at == entry.body.decidedAt
  }

  /** Every decision in the ledger was made by an erasure that named the memorial's owner of that moment, and records
      who made it, on what evidence and when. */
  lemma {:induction false} EveryDecisionWasTheOwners(hash: Hash, steps: seq<Step>, entry: Entry) returns (k: nat)
    requires Replay(hash, steps).Some? && entry in Replay(hash, steps).value.entries
    ensures DecidedBy(hash, steps, k, entry)
  {
    var n := |steps| - 1;
    var front := steps[..n];
    var s := Replay(hash, front).value;
    if entry in s.entries {
      k := EveryDecisionWasTheOwners(hash, front, entry);
      assert front[..k] == steps[..k];
    } else {
      k := n;
      EveryEraseNamedTheOwner(hash, front, steps[n]);
    }
  }

  /** A committed erasure needs no reapply: the memorial, its rows and its listed files are gone. */
  lemma CommittedEraseLeavesNothing(hash: Hash, steps: seq<Step>)
    requires Replay(hash, steps).Some? && steps != [] && steps[|steps| - 1].CommitErase?
    ensures var before, s := Replay(hash, steps[..|steps| - 1]).value, Replay(hash, steps).value;
            && before.work.Erasing?
            && var mid := before.work.entry.body.mid;
               && mid !in s.db.memorials && mid in s.db.erasures
               && (forall r :: r in s.db.rows ==> r.mid != mid)
               && (forall name :: name in s.files && name in s.everListed ==> s.everListed[name] != mid)
  {
    var s, mid := Replay(hash, steps).value, Replay(hash, steps[..|steps| - 1]).value.work.entry.body.mid;
    RunKeepsInv(hash, steps);
    NoRowsNoFiles(s, mid);
  }

  lemma NoRowsNoFiles(s: State, mid: Mid)
    requires FilesInv(s.db, s.files, s.everListed) && forall r :: r in s.db.rows ==> r.mid != mid
    ensures forall name :: name in s.files && name in s.everListed ==> s.everListed[name] != mid
  {
  }

  // ---- a reapply that is left alone finishes, as the specification of Reapply says ----

  ghost predicate Leads(hash: Hash, s: State, steps: seq<Step>, t: State)
    decreases steps
  {
    if steps == [] then s == t
    else Enabled(s, steps[0]) && Leads(hash, Do(hash, s, steps[0]), steps[1..], t)
  }

  lemma {:induction false} LeadsOn(hash: Hash, s: State, a: seq<Step>, t: State, b: seq<Step>, u: State)
    requires Leads(hash, s, a, t) && Leads(hash, t, b, u)
    ensures Leads(hash, s, a + b, u)
    decreases a
  {
    if a == [] {
      assert a + b == b;
    } else {
      assert (a + b)[1..] == a[1..] + b;
      LeadsOn(hash, Do(hash, s, a[0]), a[1..], t, b, u);
    }
  }

  lemma {:induction false} UnlinkAll(hash: Hash, s: State) returns (steps: seq<Step>)
    requires s.work.Erasing? || s.work.Reerasing?
    ensures Leads(hash, s, steps, s.(files := s.files - s.work.todo, work := s.work.(todo := {})))
    decreases s.work.todo
  {
    if s.work.todo == {} {
      assert s.files - s.work.todo == s.files;
      return [];
    }
    var name :| name in s.work.todo;
    var t := Do(hash, s, Unlink(name));
    assert t.files - t.work.todo == s.files - s.work.todo;
    var rest := UnlinkAll(hash, t);
    steps := [Unlink(name)] + rest;
    assert steps[1..] == rest;
  }

  // One ledger entry, from between entries to between entries.
  lemma HandleEntry(hash: Hash, s: State) returns (steps: seq<Step>)
    requires Inv(hash, s) && s.work.Reapplying? && s.work.next < |s.entries|
    ensures var entry := s.entries[s.work.next];
            Leads(hash, s, steps,
                  s.(db := Reapplied(s.db, entry), work := Reapplying(s.work.next + 1),
                     files := s.files - if entry.body.mid in s.db.memorials then Filenames(s.db, entry.body.mid)
                       else {}))
  {
    var entry := s.entries[s.work.next];
    var t := Do(hash, s, NextEntry);
    if entry.body.mid in s.db.memorials {
      var unlinks := UnlinkAll(hash, t);
      var u := t.(files := t.files - t.work.todo, work := Reerasing(t.work.next, {}));
      var v := Do(hash, u, CommitReerase);
      assert Leads(hash, v, [], v);
      assert [CommitReerase][1..] == [];
      assert Leads(hash, u, [CommitReerase], v);
      LeadsOn(hash, t, unlinks, u, [CommitReerase], v);
      steps := [NextEntry] + (unlinks + [CommitReerase]);
      assert steps[1..] == unlinks + [CommitReerase];
    } else {
      steps := [NextEntry];
      assert Leads(hash, t, [], t) && steps[1..] == [];
      assert s.files - {} == s.files;
    }
  }

  lemma {:induction false} LeadsKeepsInv(hash: Hash, s: State, steps: seq<Step>, t: State)
    requires Inv(hash, s) && Leads(hash, s, steps, t)
    ensures Inv(hash, t)
    decreases steps
  {
    if steps != [] {
      StepKeepsInv(hash, s, steps[0]);
      LeadsKeepsInv(hash, Do(hash, s, steps[0]), steps[1..], t);
    }
  }

  ghost predicate PartlyReapplied(s: State, now: State, i: nat)
    requires i <= |s.entries|
  {
    && now == s.(db := now.db, files := now.files, work := Reapplying(i))
    && now.db == ReappliedAll(s.db, s.entries[..i])
    && now.files == s.files - FilenamesOf(s.db, s.entries[..i])
  }

  lemma {:induction false} HandleRest(hash: Hash, s: State, now: State, i: nat) returns (steps: seq<Step>)
    requires Inv(hash, s) && Inv(hash, now) && i <= |s.entries| && PartlyReapplied(s, now, i)
    ensures Leads(hash, now, steps,
                  s.(db := ReappliedAll(s.db, s.entries), files := s.files - FilenamesOf(s.db, s.entries),
                                       work := Reapplying(|s.entries|)))
    decreases |s.entries| - i
  {
    if i == |s.entries| {
      assert s.entries[..i] == s.entries;
      return [];
    }
    var first := HandleEntry(hash, now);
    OneMoreEntry(s.db, s.entries, i);
    var t := now.(db := ReappliedAll(s.db, s.entries[..i + 1]),
                  files := s.files - FilenamesOf(s.db, s.entries[..i + 1]),
                  work := Reapplying(i + 1));
    var mid := s.entries[i].body.mid;
    assert t.files == now.files - if mid in now.db.memorials then Filenames(now.db, mid) else {};
    LeadsKeepsInv(hash, now, first, t);
    var rest := HandleRest(hash, s, t, i + 1);
    steps := first + rest;
    LeadsOn(hash, now, first, t, rest,
            s.(db := ReappliedAll(s.db, s.entries), files := s.files - FilenamesOf(s.db, s.entries),
               work := Reapplying(|s.entries|)));
  }

  /** From every reachable state without a running erasure, one for the memorial's owner can run to its end, and its
      small steps add up to exactly what the specification of Server.Erase says of one undisturbed call. */
  lemma EraseAlwaysFinishes(
      hash: Hash, run: seq<Step>, mid: Mid, owner: string, actor: string, evidence: Digest, at: int)
    returns (steps: seq<Step>)
    requires Replay(hash, run).Some? && Replay(hash, run).value.work.Idle?
    requires var s := Replay(hash, run).value;
             mid in s.db.memorials && s.db.memorials[mid] == owner && FilesSafe(s.db, mid)
    ensures var s := Replay(hash, run).value;
            var entry := Decision(hash, s.entries, mid, actor, evidence, at);
            Leads(hash, s, steps,
                  s.(db := AfterErasure(s.db, entry, EntryFor(s.entries, mid).Some?),
                     entries := Recorded(s.entries, entry), files := s.files - Filenames(s.db, mid)))
  {
    RunKeepsInv(hash, run);
    var s := Replay(hash, run).value;
    var begin := BeginErase(mid, owner, actor, evidence, at);
    MissingMeaning(hash, s.db, s.entries);
    EveryEraseNamedTheOwner(hash, run, begin);
    var t := Do(hash, s, begin);
    StepKeepsInv(hash, s, begin);
    var unlinks := UnlinkAll(hash, t);
    var u := t.(files := t.files - t.work.todo, work := Erasing(t.work.entry, {}, t.work.reapplied));
    var v := Do(hash, u, CommitErase);
    assert Leads(hash, v, [], v) && [CommitErase][1..] == [];
    assert Leads(hash, u, [CommitErase], v);
    LeadsOn(hash, t, unlinks, u, [CommitErase], v);
    steps := [begin] + (unlinks + [CommitErase]);
    assert steps[1..] == unlinks + [CommitErase];
  }

  /** From every reachable state without a running erasure, a reapply can run to its end without being refused or
      stuck; its small steps add up to exactly what the specification of Server.Reapply says of one undisturbed call. */
  lemma ReapplyAlwaysFinishes(hash: Hash, run: seq<Step>) returns (steps: seq<Step>)
    requires Replay(hash, run).Some? && Replay(hash, run).value.work.Idle?
    ensures var s := Replay(hash, run).value;
            Leads(hash, s, steps,
                  s.(db := ReappliedAll(s.db, s.entries), files := s.files - FilenamesOf(s.db, s.entries)))
  {
    RunKeepsInv(hash, run);
    var s := Replay(hash, run).value;
    var begun := Do(hash, s, BeginReapply);
    StepKeepsInv(hash, s, BeginReapply);
    assert s.entries[..0] == [];
    var middle := HandleRest(hash, begun, begun, 0);
    var handled := begun.(db := ReappliedAll(s.db, s.entries), files := s.files - FilenamesOf(s.db, s.entries),
                          work := Reapplying(|s.entries|));
    var finished := Do(hash, handled, EndReapply);
    assert Leads(hash, finished, [], finished) && [EndReapply][1..] == [];
    assert Leads(hash, handled, [EndReapply], finished);
    LeadsOn(hash, begun, middle, handled, [EndReapply], finished);
    steps := [BeginReapply] + (middle + [EndReapply]);
    assert steps[1..] == middle + [EndReapply];
  }
}
