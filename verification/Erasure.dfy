/** Permanent erasure driven by the ledger (remembrance/erasure.py). */
module Erasure {
  import opened Wrappers
  import opened Digests
  import opened ErasureLedger
  import opened MediaNames

  datatype Table = Candles | Tributes | Events | Media | Members | Reports | Audit
                 | SuccessionRequests | ErasureRequests | ConsentGrants | ConsentControls

  // Every table that holds a memorial's data, children before their parents.
  const MEMORIAL_TABLES: seq<Table> :=
    [Candles, Tributes, Events, Media, Members, Reports, Audit, SuccessionRequests, ErasureRequests, ConsentGrants,
     ConsentControls]

  // A row of one of these tables. For a row of Media, `id` is the name of its file.
  datatype Row = Row(table: Table, mid: Mid, id: string)

  // What the table of erasures keeps about one memorial.
  datatype Erased = Erased(sequence: nat, hash: Digest, decidedAt: int, actor: string, evidence: Digest)

  // The history event that records an erasure; `removed` counts rows in the order of MEMORIAL_TABLES.
  datatype Event = MemorialErased(mid: Mid, actor: string, evidence: Digest, sequence: nat, hash: Digest,
                                  reapplied: bool, removed: seq<nat>)

  datatype Db = Db(memorials: map<Mid, string>,  // to its owner
                   rows: set<Row>,
                   erasures: map<Mid, Erased>,
                   history: seq<Event>)

  /** The foreign keys SQLite enforces: every row names an existing memorial, every grant a control row. */
  predicate ForeignKeys(db: Db) {
    && (forall r :: r in db.rows ==> r.mid in db.memorials)
    && (forall r :: r in db.rows && r.table == ConsentGrants ==> Row(ConsentControls, r.mid, "") in db.rows)
  }

  function Filenames(db: Db, mid: Mid): set<Filename> {
    set r | r in db.rows && r.table == Media && r.mid == mid :: r.id
  }

  predicate AllSafe(db: Db, mid: Mid) {
    forall name :: name in Filenames(db, mid) ==> Safe(name)
  }

  function RowsOf(db: Db, table: Table, mid: Mid): set<Row> {
    set r | r in db.rows && r.table == table && r.mid == mid
  }

  // ---- the registry against the ledger ----

  predicate Contradicted(entries: seq<Entry>, mid: Mid, row: Erased) {
    var entry := EntryFor(entries, mid);
    entry.None? || entry.value.body.sequence != row.sequence || entry.value.hash != row.hash
  }

  /** The recorded erasures that the ledger lacks or contradicts. */
  function Missing(db: Db, entries: seq<Entry>): set<Mid> {
    set mid | mid in db.erasures && Contradicted(entries, mid, db.erasures[mid])
  }

  /** Every recorded erasure stands in the ledger, with the same number and hash. */
  ghost predicate RegistryAgrees(db: Db, entries: seq<Entry>) {
    forall mid :: mid in db.erasures ==> IsLedgered(entries, mid, db.erasures[mid])
  }

  ghost predicate IsLedgered(entries: seq<Entry>, mid: Mid, row: Erased) {
    exists e :: e in entries && e.body.mid == mid && e.body.sequence == row.sequence && e.hash == row.hash
  }

  ghost predicate FilesSafe(db: Db, mid: Mid) {
    forall r :: r in db.rows && r.table == Media && r.mid == mid ==> Safe(r.id)
  }

  function RegistryRow(entry: Entry): Erased {
    Erased(entry.body.sequence, entry.hash, entry.body.decidedAt, entry.body.actor, entry.body.evidence)
  }

  // ---- what one step leaves behind ----

  function Registered(db: Db, entry: Entry): Db {
    if entry.body.mid in db.erasures then db
    else db.(erasures := db.erasures[entry.body.mid := RegistryRow(entry)])
  }

  function Removed(db: Db, mid: Mid): seq<nat> {
    seq(|MEMORIAL_TABLES|, i requires 0 <= i < |MEMORIAL_TABLES| => |RowsOf(db, MEMORIAL_TABLES[i], mid)|)
  }

  function ErasedEvent(db: Db, entry: Entry, reapplied: bool): Event {
    MemorialErased(entry.body.mid, entry.body.actor, entry.body.evidence, entry.body.sequence, entry.hash,
                   reapplied, Removed(db, entry.body.mid))
  }

  /** The database once a memorial is erased: its record and every row of it gone, one event and one registry row. */
  function AfterErasure(db: Db, entry: Entry, reapplied: bool): Db {
    var mid := entry.body.mid;
    Registered(Db(db.memorials - {mid}, (set r | r in db.rows && r.mid != mid), db.erasures,
                  db.history + [ErasedEvent(db, entry, reapplied)]), entry)
  }

  /** How reapply handles one ledger entry. */
  function Reapplied(db: Db, entry: Entry): Db {
    if entry.body.mid in db.memorials then AfterErasure(db, entry, true) else Registered(db, entry)
  }

  predicate NeedsWork(db: Db, mid: Mid) {
    mid in db.memorials || mid !in db.erasures
  }

  /** What a check reports: the ledgered memorials still present or not yet recorded, in ledger order. */
  function Outstanding(db: Db, entries: seq<Entry>): seq<Mid> {
    if entries == [] then []
    else
      var last := |entries| - 1;
      Outstanding(db, entries[..last])
      + if NeedsWork(db, entries[last].body.mid) then [entries[last].body.mid] else []
  }

  function ReappliedAll(db: Db, entries: seq<Entry>): Db {
    if entries == [] then db
    else Reapplied(ReappliedAll(db, entries[..|entries| - 1]), entries[|entries| - 1])
  }

  function Ledgered(entries: seq<Entry>): set<Mid> {
    set e | e in entries :: e.body.mid
  }

  /** Every ledgered memorial is recorded, and nothing of it is left. */
  ghost predicate Clean(db: Db, entries: seq<Entry>) {
    && (forall e :: e in entries ==> e.body.mid !in db.memorials && e.body.mid in db.erasures)
    && (forall r :: r in db.rows ==> r.mid !in Ledgered(entries))
  }

  datatype ErasureError = RegistryContradicted(missing: set<Mid>) | MemorialNotFound | OwnerMismatch | UnsafeFilename

  datatype Summary = Summary(ledgerEntries: nat, outstanding: seq<Mid>, erased: nat, recorded: nat)

  // ---- properties of these functions ----

  lemma {:induction false} EntryForFirst(entries: seq<Entry>, more: seq<Entry>, mid: Mid)
    ensures EntryFor(entries + more, mid) ==
            if EntryFor(entries, mid).Some? then EntryFor(entries, mid) else EntryFor(more, mid)
  {
    if entries == [] {
      assert entries + more == more;
    } else {
      assert (entries + more)[1..] == entries[1..] + more;
      EntryForFirst(entries[1..], more, mid);
    }
  }

  /** Extending the ledger never makes a registry row contradict it. */
  lemma AppendingContradictsNothing(db: Db, entries: seq<Entry>, more: seq<Entry>)
    requires Missing(db, entries) == {}
    ensures Missing(db, entries + more) == {}
  {
    forall mid | mid in db.erasures ensures !Contradicted(entries + more, mid, db.erasures[mid]) {
      assert mid !in Missing(db, entries);
      EntryForFirst(entries, more, mid);
    }
  }

  /** Recording an entry of the ledger keeps the registry and the ledger in agreement. */
  lemma ReappliedContradictsNothing(db: Db, entries: seq<Entry>, entry: Entry, reapplied: bool)
    requires Missing(db, entries) == {} && EntryFor(entries, entry.body.mid) == Some(entry)
    ensures Missing(Registered(db, entry), entries) == {}
    ensures Missing(AfterErasure(db, entry, reapplied), entries) == {}
  {
  }

  lemma AfterErasureKeepsForeignKeys(db: Db, entry: Entry, reapplied: bool)
    requires ForeignKeys(db)
    ensures ForeignKeys(AfterErasure(db, entry, reapplied))
  {
  }

  /** An erasure removes everything of one memorial and nothing of another. */
  lemma AfterErasureMeaning(db: Db, entry: Entry, reapplied: bool, mid: Mid)
    requires ForeignKeys(db)
    ensures var after := AfterErasure(db, entry, reapplied);
            if mid == entry.body.mid then
              mid !in after.memorials && mid in after.erasures && forall r :: r in after.rows ==> r.mid != mid
            else
              && (mid in after.memorials <==> mid in db.memorials)
              && (mid in db.memorials ==> after.memorials[mid] == db.memorials[mid])
              && (mid in after.erasures <==> mid in db.erasures)
              && (forall r: Row :: r.mid == mid ==> (r in after.rows <==> r in db.rows))
  {
  }

  /** What an erasure records: one event with the ledger's own decision and the rows each table lost, and, unless the
      memorial is registered already, a registry row that repeats the decision. */
  lemma ErasureRecords(db: Db, entry: Entry, reapplied: bool)
    ensures var after := AfterErasure(db, entry, reapplied);
            var e := after.history[|db.history|];
            && |after.history| == |db.history| + 1 && after.history[..|db.history|] == db.history
            && e.mid == entry.body.mid && e.actor == entry.body.actor && e.evidence == entry.body.evidence
            && e.sequence == entry.body.sequence && e.hash == entry.hash && e.reapplied == reapplied
            && |e.removed| == |MEMORIAL_TABLES|
            && (forall i :: 0 <= i < |MEMORIAL_TABLES| ==>
                  e.removed[i] == |set r | r in db.rows && r.mid == entry.body.mid && r.table == MEMORIAL_TABLES[i]|)
            && after.erasures == if entry.body.mid in db.erasures then db.erasures
                                 else db.erasures[entry.body.mid :=
                                   Erased(entry.body.sequence, entry.hash, entry.body.decidedAt, entry.body.actor,
                                          entry.body.evidence)]
  {
    forall i | 0 <= i < |MEMORIAL_TABLES|
      ensures RowsOf(db, MEMORIAL_TABLES[i], entry.body.mid) ==
              set r | r in db.rows && r.mid == entry.body.mid && r.table == MEMORIAL_TABLES[i]
    {
    }
  }

  /** Reapplying an entry erases a memorial that is back, in an event marked as such, and only registers one that is
      gone. */
  lemma ReapplyMeaning(db: Db, entry: Entry)
    ensures var after, mid := Reapplied(db, entry), entry.body.mid;
            && mid !in after.memorials && mid in after.erasures
            && (mid in db.memorials ==>
                  && |after.history| == |db.history| + 1 && after.history[|db.history|].mid == mid
                  && after.history[|db.history|].reapplied && forall r :: r in after.rows ==> r.mid != mid)
            && (mid !in db.memorials ==> after == db.(erasures := after.erasures))
  {
  }

  /** A check lists exactly the ledgered memorials that are still there or not registered, in the ledger's order. */
  lemma {:induction false} OutstandingMeaning(db: Db, entries: seq<Entry>, mid: Mid)
    ensures mid in Outstanding(db, entries) <==>
            (mid in db.memorials || mid !in db.erasures) && exists e :: e in entries && e.body.mid == mid
  {
    if entries != [] {
      var n := |entries| - 1;
      OutstandingMeaning(db, entries[..n], mid);
      assert entries == entries[..n] + [entries[n]];
    }
  }

  lemma {:induction false} OutstandingInOrder(db: Db, a: seq<Entry>, b: seq<Entry>)
    ensures Outstanding(db, a + b) == Outstanding(db, a) + Outstanding(db, b)
  {
    if b == [] {
      assert a + b == a;
    } else {
      var n := |b| - 1;
      assert (a + b)[..|a + b| - 1] == a + b[..n];
      OutstandingInOrder(db, a, b[..n]);
    }
  }

  // What a run over the entries leaves, one memorial at a time.
  lemma {:induction false} ReappliedAllMeaning(db: Db, entries: seq<Entry>, mid: Mid)
    requires ForeignKeys(db)
    ensures var after := ReappliedAll(db, entries);
            && ForeignKeys(after)
            && (mid in after.memorials <==> mid in db.memorials && mid !in Ledgered(entries))
            && (mid in after.memorials ==> after.memorials[mid] == db.memorials[mid])
            && (mid in after.erasures <==> mid in db.erasures || mid in Ledgered(entries))
            && (mid in db.erasures ==> after.erasures[mid] == db.erasures[mid])
            && (forall r: Row :: r.mid == mid ==> (r in after.rows <==> r in db.rows && mid !in Ledgered(entries)))
  {
    if entries != [] {
      var fewer, last := entries[..|entries| - 1], entries[|entries| - 1];
      assert entries == fewer + [last];
      assert Ledgered(entries) == Ledgered(fewer) + {last.body.mid};
      ReappliedAllMeaning(db, fewer, mid);
    }
  }

  /** After a full run nothing ledgered is left, and the registry still agrees with the ledger. */
  lemma ReappliedAllIsClean(db: Db, entries: seq<Entry>)
    requires ForeignKeys(db)
    ensures Clean(ReappliedAll(db, entries), entries)
  {
    forall e | e in entries
      ensures e.body.mid !in ReappliedAll(db, entries).memorials && e.body.mid in ReappliedAll(db, entries).erasures
    {
      ReappliedAllMeaning(db, entries, e.body.mid);
    }
    forall r | r in ReappliedAll(db, entries).rows ensures r.mid !in Ledgered(entries) {
      ReappliedAllMeaning(db, entries, r.mid);
    }
  }

  /** A run over a clean database changes nothing, and a check of it reports nothing. */
  lemma {:induction false} CleanNeedsNothing(db: Db, entries: seq<Entry>)
    requires Clean(db, entries)
    ensures ReappliedAll(db, entries) == db && Outstanding(db, entries) == []
  {
    if entries != [] {
      var fewer := entries[..|entries| - 1];
      assert forall e :: e in fewer ==> e in entries;
      assert Ledgered(fewer) <= Ledgered(entries);
      CleanNeedsNothing(db, fewer);
      assert entries[|entries| - 1] in entries;
    }
  }

  /** A second run is a no-op. */
  lemma SecondRunChangesNothing(db: Db, entries: seq<Entry>)
    requires ForeignKeys(db)
    ensures var once := ReappliedAll(db, entries);
            ReappliedAll(once, entries) == once && Outstanding(once, entries) == []
  {
    ReappliedAllIsClean(db, entries);
    CleanNeedsNothing(ReappliedAll(db, entries), entries);
  }

  function FilenamesOf(db: Db, entries: seq<Entry>): set<Filename> {
    set r | r in db.rows && r.table == Media && r.mid in Ledgered(entries) :: r.id
  }

  // The database once these tables' rows of a memorial are deleted.
  function WithoutTables(db: Db, mid: Mid, tables: seq<Table>): Db {
    db.(rows := set r | r in db.rows && !(r.mid == mid && r.table in tables))
  }

  // One more DELETE: it finds its table's rows as they were, and breaks no foreign key.
  lemma DeleteNext(db: Db, mid: Mid, i: nat)
    requires i < |MEMORIAL_TABLES| && ForeignKeys(db)
    ensures var now, table := WithoutTables(db, mid, MEMORIAL_TABLES[..i]), MEMORIAL_TABLES[i];
            && RowsOf(now, table, mid) == RowsOf(db, table, mid)
            && now.(rows := set r | r in now.rows && !(r.table == table && r.mid == mid)) ==
              WithoutTables(db, mid, MEMORIAL_TABLES[..i + 1])
            && ForeignKeys(WithoutTables(db, mid, MEMORIAL_TABLES[..i + 1]))
  {
    var table := MEMORIAL_TABLES[i];
    assert MEMORIAL_TABLES[..i + 1] == MEMORIAL_TABLES[..i] + [table];
    GrantsBeforeControls(i);
  }

  lemma GrantsBeforeControls(i: nat)
    requires i < |MEMORIAL_TABLES|
    ensures MEMORIAL_TABLES[i] !in MEMORIAL_TABLES[..i]
    ensures ConsentControls in MEMORIAL_TABLES[..i + 1] ==> ConsentGrants in MEMORIAL_TABLES[..i + 1]
  {
    assert i == 10 ==> MEMORIAL_TABLES[..i + 1][9] == ConsentGrants;
  }

  lemma EveryTable(table: Table)
    ensures table in MEMORIAL_TABLES
  {
  }

  // One more entry of a run: the earlier ones have not changed whether it needs work, nor its files.
  lemma OneMoreEntry(db: Db, entries: seq<Entry>, i: nat)
    requires ForeignKeys(db) && i < |entries|
    requires forall j, k :: 0 <= j < k < |entries| ==> entries[j].body.mid != entries[k].body.mid
    ensures ReappliedAll(db, entries[..i + 1]) == Reapplied(ReappliedAll(db, entries[..i]), entries[i])
    ensures Outstanding(db, entries[..i + 1])
            == Outstanding(db, entries[..i]) + if NeedsWork(db, entries[i].body.mid) then [entries[i].body.mid] else []
    ensures var before, mid := ReappliedAll(db, entries[..i]), entries[i].body.mid;
            && (mid in before.memorials <==> mid in db.memorials)
            && (mid in before.erasures <==> mid in db.erasures)
            && Filenames(before, mid) == Filenames(db, mid)
            && FilenamesOf(db, entries[..i + 1])
               == FilenamesOf(db, entries[..i]) + (if mid in db.memorials then Filenames(db, mid) else {})
  {
    var mid := entries[i].body.mid;
    assert entries[..i + 1] == entries[..i] + [entries[i]];
    assert entries[..i + 1][..i] == entries[..i];
    assert Ledgered(entries[..i + 1]) == Ledgered(entries[..i]) + {mid};
    ReappliedAllMeaning(db, entries[..i], mid);
    assert mid !in Ledgered(entries[..i]) by {
      assert forall e :: e in entries[..i] ==> exists j :: 0 <= j < i && entries[j] == e;
    }
  }

  // Within a valid ledger the registry check finds exactly the rows that do not stand in it.
  lemma MissingMeaning(hash: Hash, db: Db, entries: seq<Entry>)
    requires ValidLedger(hash, entries)
    ensures Missing(db, entries) == {} <==> RegistryAgrees(db, entries)
    ensures forall mid :: mid in Missing(db, entries) <==>
              mid in db.erasures && !IsLedgered(entries, mid, db.erasures[mid])
  {
    forall mid | mid in db.erasures
      ensures Contradicted(entries, mid, db.erasures[mid]) <==> !IsLedgered(entries, mid, db.erasures[mid])
    {
      forall e | e in entries && e.body.mid == mid ensures EntryFor(entries, mid) == Some(e) {
        OnlyEntryFor(hash, entries, mid, e);
      }
    }
    forall mid | mid in db.erasures
      ensures mid in Missing(db, entries) <==> !IsLedgered(entries, mid, db.erasures[mid])
    {
      assert Contradicted(entries, mid, db.erasures[mid]) <==> !IsLedgered(entries, mid, db.erasures[mid]);
    }
  }

  lemma OnlyEntryFor(hash: Hash, entries: seq<Entry>, mid: Mid, e: Entry)
    requires ValidLedger(hash, entries) && e in entries && e.body.mid == mid
    ensures EntryFor(entries, mid) == Some(e)
  {
    var found := EntryFor(entries, mid);
    var i :| 0 <= i < |entries| && entries[i] == e;
    var j :| 0 <= j < |entries| && entries[j] == found.value;
  }

  /** Two ledgers that a registry agrees with are the same up to the latest erasure it records: no other ledger passes
      for the server's own. Uses only that the hash is injective. */
  lemma RegistryFixesLedger(hash: Hash, db: Db, a: seq<Entry>, b: seq<Entry>, mid: Mid)
    requires Injective(hash) && ValidLedger(hash, a) && ValidLedger(hash, b)
    requires RegistryAgrees(db, a) && RegistryAgrees(db, b) && mid in db.erasures
    ensures var n := db.erasures[mid].sequence;
            1 <= n <= |a| && n <= |b| && a[..n] == b[..n] && a[n - 1].body.mid == mid
  {
    var row := db.erasures[mid];
    var i := EntryAt(hash, a, mid, row);
    var j := EntryAt(hash, b, mid, row);
    SameLinkSamePast(hash, a, b, row.sequence);
  }

  lemma EntryAt(hash: Hash, entries: seq<Entry>, mid: Mid, row: Erased) returns (i: nat)
    requires ValidLedger(hash, entries) && IsLedgered(entries, mid, row)
    ensures i < |entries| && i + 1 == row.sequence && entries[i].hash == row.hash && entries[i].body.mid == mid
  {
    var e :| e in entries && e.body.mid == mid && e.body.sequence == row.sequence && e.hash == row.hash;
    i :| i < |entries| && entries[i] == e;
    assert Linked(hash, entries, i);
  }

  lemma FilesSafeMeaning(db: Db, mid: Mid)
    ensures AllSafe(db, mid) <==> FilesSafe(db, mid)
  {
    forall r | r in db.rows && r.table == Media && r.mid == mid ensures r.id in Filenames(db, mid) {}
  }

  ghost predicate EntriesSafe(db: Db, entries: seq<Entry>) {
    forall e :: e in entries ==> FilesSafe(db, e.body.mid)
  }

  lemma EntriesSafeMeaning(db: Db, entries: seq<Entry>)
    ensures EntriesSafe(db, entries) <==> forall e :: e in entries ==> AllSafe(db, e.body.mid)
  {
    forall mid: Mid { FilesSafeMeaning(db, mid); }
  }

  /** The outcome of an erasure, by the checks made before anything is removed. */
  function EraseOutcome(db: Db, entries: seq<Entry>, mid: Mid, ownerId: string): Result<bool, ErasureError> {
    if Missing(db, entries) != {} then Err(RegistryContradicted(Missing(db, entries)))
    else if mid !in db.memorials then (if mid in db.erasures then Ok(false) else Err(MemorialNotFound))
    else if db.memorials[mid] != ownerId then Err(OwnerMismatch)
    else if !AllSafe(db, mid) then Err(UnsafeFilename)
    else Ok(true)
  }

  /** Each outcome exactly when its own check is the first to fail, and success exactly when none does. */
  lemma OutcomesExactly(hash: Hash, db: Db, entries: seq<Entry>, mid: Mid, ownerId: string)
    requires ValidLedger(hash, entries)
    ensures var r, agrees := EraseOutcome(db, entries, mid, ownerId), RegistryAgrees(db, entries);
            && (r.Err? && r.error.RegistryContradicted? <==> !agrees)
            && (r == Ok(false) <==> agrees && mid !in db.memorials && mid in db.erasures)
            && (r == Err(MemorialNotFound) <==> agrees && mid !in db.memorials && mid !in db.erasures)
            && (r == Err(OwnerMismatch) <==> agrees && mid in db.memorials && db.memorials[mid] != ownerId)
            && (r == Err(UnsafeFilename) <==>
                agrees && mid in db.memorials && db.memorials[mid] == ownerId && !FilesSafe(db, mid))
            && (r == Ok(true) <==>
                agrees && mid in db.memorials && db.memorials[mid] == ownerId && FilesSafe(db, mid))
  {
    MissingMeaning(hash, db, entries);
    FilesSafeMeaning(db, mid);
  }

  // The decision an erasure acts on: the one already in the ledger, else a new one.
  function Decision(hash: Hash, entries: seq<Entry>, mid: Mid, actor: string, evidence: Digest, at: int): Entry {
    if EntryFor(entries, mid).Some? then EntryFor(entries, mid).value
    else NewEntry(hash, entries, mid, actor, evidence, at)
  }

  function Recorded(entries: seq<Entry>, entry: Entry): seq<Entry> {
    if EntryFor(entries, entry.body.mid).Some? then entries else entries + [entry]
  }

  /** A crash after the decision was written and before the commit is finished by erasing again: the same decision
      is used, so the ledger does not grow, and the database ends as if there had been no crash (the event says
      that it was reapplied). */
  lemma RetryUsesTheSameDecision(hash: Hash, entries: seq<Entry>, mid: Mid, actor: string, evidence: Digest, at: int,
                                 actor2: string, evidence2: Digest, at2: int)
    ensures var first := Decision(hash, entries, mid, actor, evidence, at);
            var after := Recorded(entries, first);
            && Decision(hash, after, mid, actor2, evidence2, at2) == first
            && Recorded(after, first) == after
  {
  }

  // ---- the server ----

  class Server {
    const ledger: Ledger
    var db: Db
    var files: set<Filename>

    ghost predicate Valid()
      reads this, ledger
    {
      ledger.Valid() && ForeignKeys(db)
    }

    constructor (ledger: Ledger, db: Db, files: set<Filename>)
      requires ledger.Valid() && ForeignKeys(db)
      ensures Valid() && this.ledger == ledger && this.db == db && this.files == files
    {
      this.ledger, this.db, this.files := ledger, db, files;
    }

    method DeleteRows(mid: Mid) returns (removed: seq<nat>)
      requires Valid()
      modifies this`db
      ensures removed == Removed(old(db), mid)
      ensures db == old(db).(rows := set r | r in old(db).rows && r.mid != mid) && ForeignKeys(db)
    {
      removed := [];
      ghost var before := db;
      for i := 0 to |MEMORIAL_TABLES|
        invariant ForeignKeys(db)  // so no DELETE is refused
        invariant db == WithoutTables(before, mid, MEMORIAL_TABLES[..i])
        invariant |removed| == i && removed == Removed(before, mid)[..i]
      {
        DeleteNext(before, mid, i);
        removed := removed + [|RowsOf(db, MEMORIAL_TABLES[i], mid)|];
        db := db.(rows := set r | r in db.rows && !(r.table == MEMORIAL_TABLES[i] && r.mid == mid));
      }
      forall table: Table ensures table in MEMORIAL_TABLES { EveryTable(table); }
      assert MEMORIAL_TABLES[..|MEMORIAL_TABLES|] == MEMORIAL_TABLES;
    }

    method Unlink(names: set<Filename>)
      modifies this`files
      ensures files == old(files) - names
    {
      var todo := names;
      while todo != {}
        invariant todo <= names && files == old(files) - (names - todo)
        decreases todo
      {
        var name :| name in todo;
        files := files - {name};
        todo := todo - {name};
      }
    }

    /** Inside the caller's transaction; a refusal rolls it back. */
    method Apply(entry: Entry, reapplied: bool) returns (ok: bool)
      requires Valid()
      modifies this
      ensures Valid()
      ensures ok == AllSafe(old(db), entry.body.mid)
      ensures db == if ok then AfterErasure(old(db), entry, reapplied) else old(db)
      ensures files == if ok then old(files) - Filenames(old(db), entry.body.mid) else old(files)
    {
      var mid := entry.body.mid;
      var names := Filenames(db, mid);
      if !AllSafe(db, mid) { return false; }
      var removed := DeleteRows(mid);
      db := db.(memorials := db.memorials - {mid});
      db := db.(history := db.history + [MemorialErased(mid, entry.body.actor, entry.body.evidence, entry.body.sequence,
                                                       entry.hash, reapplied, removed)]);
      db := Registered(db, entry);
      Unlink(names);
      return true;
    }

    method Erase(mid: Mid, ownerId: string, actor: string, evidence: Digest, at: int)
      returns (r: Result<bool, ErasureError>)
      requires Valid()
      modifies this, ledger
      ensures Valid()
      ensures r.Err? && r.error.RegistryContradicted? <==> !RegistryAgrees(old(db), old(ledger.entries))
      ensures r.Err? && r.error.RegistryContradicted? ==>
                forall m :: m in r.error.missing <==>
                  m in old(db).erasures && !IsLedgered(old(ledger.entries), m, old(db).erasures[m])
      ensures r == Ok(true) <==>
              && RegistryAgrees(old(db), old(ledger.entries))
              && mid in old(db).memorials && old(db).memorials[mid] == ownerId && FilesSafe(old(db), mid)
      ensures r == Ok(false) <==>
              && RegistryAgrees(old(db), old(ledger.entries))
              && mid !in old(db).memorials && mid in old(db).erasures
      ensures r == Err(MemorialNotFound) <==>
              && RegistryAgrees(old(db), old(ledger.entries))
              && mid !in old(db).memorials && mid !in old(db).erasures
      ensures r == Err(OwnerMismatch) <==>
              && RegistryAgrees(old(db), old(ledger.entries))
              && mid in old(db).memorials && old(db).memorials[mid] != ownerId
      ensures r == EraseOutcome(old(db), old(ledger.entries), mid, ownerId)
      ensures var entry := Decision(ledger.hash, old(ledger.entries), mid, actor, evidence, at);
              && ledger.entries ==
                (if r == Ok(true) || r == Err(UnsafeFilename) then Recorded(old(ledger.entries), entry)
                                    else old(ledger.entries))
              && db ==
                (if r == Ok(true) then AfterErasure(old(db), entry, EntryFor(old(ledger.entries), mid).Some?)
                 else old(db))
              && files == old(files) - (if r == Ok(true) then Filenames(old(db), mid) else {})
    {
      OutcomesExactly(ledger.hash, db, ledger.entries, mid, ownerId);
      MissingMeaning(ledger.hash, db, ledger.entries);
      var missing := Missing(db, ledger.entries);
      if missing != {} { return Err(RegistryContradicted(missing)); }
      if mid !in db.memorials {
        if mid in db.erasures { return Ok(false); }
        return Err(MemorialNotFound);
      }
      if db.memorials[mid] != ownerId { return Err(OwnerMismatch); }
      var found := ledger.entries;
      var recorded := EntryFor(found, mid);
      var entry;
      if recorded.Some? {
        entry := recorded.value;
      } else {
        entry := ledger.Append(mid, actor, evidence, at);
      }
      var ok := Apply(entry, recorded.Some?);
      if !ok { return Err(UnsafeFilename); }
      return Ok(true);
    }

    // One entry of a real run, in a transaction of its own.
    method ReapplyOne(entry: Entry, summary: Summary) returns (ok: bool, s: Summary)
      requires Valid()
      modifies this
      ensures Valid()
      ensures ok == (entry.body.mid in old(db).memorials ==> AllSafe(old(db), entry.body.mid))
      ensures db == if ok then Reapplied(old(db), entry) else old(db)
      ensures ok ==>
                files ==
                  old(files) - (if entry.body.mid in old(db).memorials then Filenames(old(db), entry.body.mid) else {})
      ensures ok ==>
                s.erased + s.recorded ==
                  summary.erased + summary.recorded + (if NeedsWork(old(db), entry.body.mid) then 1 else 0)
      ensures ok ==> s.erased == summary.erased + (if entry.body.mid in old(db).memorials then 1 else 0)
      ensures ok ==> s.ledgerEntries == summary.ledgerEntries && s.outstanding == summary.outstanding
    {
      s := summary;
      if entry.body.mid in db.memorials {
        ok := Apply(entry, true);
        s := s.(erased := s.erased + 1);
      } else if entry.body.mid !in db.erasures {
        db := Registered(db, entry);
        s := s.(recorded := s.recorded + 1);
        ok := true;
      } else {
        ok := true;
      }
    }

    method Reapply(check: bool) returns (r: Result<Summary, ErasureError>)
      requires Valid()
      modifies this
      ensures Valid()
      ensures r.Err? && r.error.RegistryContradicted? <==> !RegistryAgrees(old(db), ledger.entries)
      ensures check ==> db == old(db) && files == old(files)
      ensures r.Ok? ==> r.value.ledgerEntries == |ledger.entries|
      ensures r.Ok? && check ==> r.value == Summary(|ledger.entries|, Outstanding(db, ledger.entries), 0, 0)
      ensures r.Ok? && !check ==> db == ReappliedAll(old(db), ledger.entries) && Clean(db, ledger.entries)
      ensures r.Ok? && !check ==> files == old(files) - FilenamesOf(old(db), ledger.entries)
      ensures r.Ok? && !check ==>
                r.value.outstanding == [] && r.value.erased + r.value.recorded == |Outstanding(old(db), ledger.entries)|
      ensures RegistryAgrees(old(db), ledger.entries) ==> (r.Ok? <==> check || EntriesSafe(old(db), ledger.entries))
    {
      MissingMeaning(ledger.hash, db, ledger.entries);
      EntriesSafeMeaning(db, ledger.entries);
      var missing := Missing(db, ledger.entries);
      if missing != {} { return Err(RegistryContradicted(missing)); }
      r := HandleEntries(check);
    }

    // Past the registry check.
    method HandleEntries(check: bool) returns (r: Result<Summary, ErasureError>)
      requires Valid()
      modifies this
      ensures Valid() && (r.Err? ==> r.error == UnsafeFilename)
      ensures check ==> db == old(db) && files == old(files)
      ensures r.Ok? ==> r.value.ledgerEntries == |ledger.entries|
      ensures r.Ok? && check ==> r.value == Summary(|ledger.entries|, Outstanding(db, ledger.entries), 0, 0)
      ensures r.Ok? && !check ==> db == ReappliedAll(old(db), ledger.entries) && Clean(db, ledger.entries)
      ensures r.Ok? && !check ==> files == old(files) - FilenamesOf(old(db), ledger.entries)
      ensures r.Ok? && !check ==>
                r.value.outstanding == [] && r.value.erased + r.value.recorded == |Outstanding(old(db), ledger.entries)|
      ensures r.Ok? <==> check || forall e :: e in ledger.entries ==> AllSafe(old(db), e.body.mid)
    {
      var summary := Summary(|ledger.entries|, [], 0, 0);
      ghost var before, entries := db, ledger.entries;
      assert entries[..0] == [];
      for i := 0 to |ledger.entries|
        invariant Valid() && ledger.entries == entries && summary.ledgerEntries == |entries|
        invariant db == if check then before else ReappliedAll(before, entries[..i])
        invariant files == if check then old(files) else old(files) - FilenamesOf(before, entries[..i])
        invariant check ==>
                  summary.outstanding == Outstanding(before, entries[..i]) && summary.erased == summary.recorded == 0
        invariant !check ==> summary.outstanding == []
        invariant !check ==> summary.erased + summary.recorded == |Outstanding(before, entries[..i])|
        invariant !check ==> forall j :: 0 <= j < i ==> AllSafe(before, entries[j].body.mid)
      {
        var entry := ledger.entries[i];
        OneMoreEntry(before, entries, i);
        if check {
          if NeedsWork(db, entry.body.mid) {
            summary := summary.(outstanding := summary.outstanding + [entry.body.mid]);
          }
        } else {
          var ok;
          ok, summary := ReapplyOne(entry, summary);
          if !ok {
            assert entry in entries && !AllSafe(before, entry.body.mid);
            return Err(UnsafeFilename);
          }
        }
      }
      assert entries[..|entries|] == entries;
      if !check { ReappliedAllIsClean(before, entries); }
      return Ok(summary);
    }
  }
}
