/** What can be left in a grant's scope when its request turns COMPLETE, and what became of the deleted objects, told
    over whole runs (remembrance-consent/app/consent/cascade.py, `_remaining`, `finish` and `delete_artifacts`). */
module CascadeCompletion {
  import opened Wrappers
  import opened CascadeStore
  import opened CascadeRuns

  // The tables that the final check counts, in its order.
  datatype Table = TokenTable | DeliveryTable | AudioTable | ModelTable

  function KindOf(table: Table): Kind {
    if table.AudioTable? then AudioArtifact else VoiceModel
  }

  function IdsIn(db: Db, table: Table): set<nat> {
    match table
    case TokenTable => db.tokens.Keys
    case DeliveryTable => db.deliveries.Keys
    case AudioTable => Ids(db, AudioArtifact)
    case ModelTable => Ids(db, VoiceModel)
  }

  function LeftIn(db: Db, g: GrantId, table: Table): set<nat> {
    match table
    case TokenTable => LiveTokens(db, g)
    case DeliveryTable => DueDeliveries(db, g)
    case AudioTable => Live(db, g, AudioArtifact)
    case ModelTable => Live(db, g, VoiceModel)
  }

  // ---- the life of one row ----

  /** Whether a row is the grant's, by the tables' columns. */
  ghost predicate Belongs(db: Db, g: GrantId, table: Table, x: nat) {
    match table
    case TokenTable => TokenOf(db, g, x)
    case DeliveryTable => DeliveryOf(db, g, x)
    case _ => ArtifactOf(db, g, Ref(KindOf(table), x))
  }

  predicate Alive(db: Db, table: Table, x: nat) {
    match table
    case TokenTable => x in db.tokens && !db.tokens[x].revoked
    case DeliveryTable => x in db.deliveries && db.deliveries[x].status.Scheduled?
    case _ => Ref(KindOf(table), x) in db.artifacts && !db.artifacts[Ref(KindOf(table), x)].deleted
  }

  lemma LeftMeaning(db: Db, g: GrantId, table: Table, x: nat)
    ensures x in LeftIn(db, g, table) <==> Belongs(db, g, table, x) && Alive(db, table, x)
  {
    LiveMeaning(db, g, KindOf(table));
    if x in db.deliveries { DeliveryScopeMeaning(db, g, x); }
    if Ref(KindOf(table), x) in db.artifacts { ScopeMeaning(db, g, Ref(KindOf(table), x)); }
  }

  predicate Inserts(step: Step, table: Table, x: nat) {
    match table
    case TokenTable => step.AddToken? && step.id == x
    case DeliveryTable => step.AddDelivery? && step.id == x
    case _ => step.AddArtifact? && step.ref == Ref(KindOf(table), x)
  }

  // The only steps that undo a row: revoking its grant's tokens, settling or cancelling it, committing its tombstone.
  predicate Undoes(s: State, step: Step, table: Table, x: nat)
    requires Enabled(s, step)
  {
    match table
    case TokenTable =>
      && x in s.db.tokens
      && ((step.Revoke? && s.db.tokens[x].grant == Some(step.grant))
          || (step.RevokeTokens? && s.db.tokens[x].grant == Some(s.runs[step.run].grant)))
    case DeliveryTable =>
      (step.SettleDelivery? && step.id == x) || (step.CancelNext? && s.runs[step.run].pc.todo[0] == x)
    case _ =>
      && step.CommitTombstone?
      && Ref(s.runs[step.run].pc.kind, s.runs[step.run].pc.id) == Ref(KindOf(table), x)
  }

  /** The step that inserted a row, if no later step undid it. */
  function Standing(steps: seq<Step>, table: Table, x: nat): Option<nat>
    requires Replay(steps).Some?
  {
    if steps == [] then None
    else
      var n := |steps| - 1;
      if Inserts(steps[n], table, x) then Some(n)
      else if Undoes(Replay(steps[..n]).value, steps[n], table, x) then None
      else Standing(steps[..n], table, x)
  }

  // ---- prefixes of a run ----

  lemma FrontPrefix(steps: seq<Step>, n: nat)
    requires n < |steps|
    ensures steps[..|steps| - 1][..n] == steps[..n]
  {
  }

  lemma {:induction false} PrefixReplays(steps: seq<Step>, n: nat)
    requires Replay(steps).Some? && n <= |steps|
    ensures Replay(steps[..n]).Some?
  {
    if n == |steps| {
      assert steps[..n] == steps;
    } else {
      FrontPrefix(steps, n);
      PrefixReplays(steps[..|steps| - 1], n);
    }
  }

  lemma StepKeepsRows(s: State, step: Step, table: Table)
    requires Enabled(s, step)
    ensures IdsIn(s.db, table) <= IdsIn(Do(s, step).db, table)
  {
    forall r | r in s.db.artifacts ensures r in Do(s, step).db.artifacts {}
  }

  lemma InsertAddsRow(s: State, step: Step, table: Table, x: nat)
    requires Enabled(s, step) && Inserts(step, table, x)
    ensures x in IdsIn(Do(s, step).db, table)
  {
    if step.AddArtifact? { assert step.ref in Do(s, step).db.artifacts; }
  }

  lemma {:induction false} RowsStay(steps: seq<Step>, n: nat, table: Table)
    requires Replay(steps).Some? && n <= |steps| && Replay(steps[..n]).Some?
    ensures IdsIn(Replay(steps[..n]).value.db, table) <= IdsIn(Replay(steps).value.db, table)
  {
    if n == |steps| {
      assert steps[..n] == steps;
    } else {
      FrontPrefix(steps, n);
      RowsStay(steps[..|steps| - 1], n, table);
      StepKeepsRows(Replay(steps[..|steps| - 1]).value, steps[|steps| - 1], table);
    }
  }

  lemma InsertedIsThere(steps: seq<Step>, table: Table, x: nat, j: nat)
    requires Replay(steps).Some? && j < |steps| && Inserts(steps[j], table, x)
    ensures x in IdsIn(Replay(steps).value.db, table)
  {
    PrefixReplays(steps, j + 1);
    assert steps[..j + 1][..j] == steps[..j];
    InsertAddsRow(Replay(steps[..j]).value, steps[j], table, x);
    RowsStay(steps, j + 1, table);
  }

  // ---- every row's life, step by step ----

  lemma TokenLife(s: State, step: Step, x: nat)
    requires Enabled(s, step)
    ensures Alive(Do(s, step).db, TokenTable, x) <==>
      Inserts(step, TokenTable, x) || (Alive(s.db, TokenTable, x) && !Undoes(s, step, TokenTable, x))
  {
  }

  lemma DeliveryLife(s: State, step: Step, x: nat)
    requires Enabled(s, step)
    ensures Alive(Do(s, step).db, DeliveryTable, x) <==>
      Inserts(step, DeliveryTable, x) || (Alive(s.db, DeliveryTable, x) && !Undoes(s, step, DeliveryTable, x))
  {
  }

  lemma ArtifactLife(s: State, step: Step, table: Table, x: nat)
    requires Enabled(s, step) && (table.AudioTable? || table.ModelTable?)
    ensures Alive(Do(s, step).db, table, x) <==>
      Inserts(step, table, x) || (Alive(s.db, table, x) && !Undoes(s, step, table, x))
  {
  }

  lemma StepLife(s: State, step: Step, table: Table, x: nat)
    requires Enabled(s, step)
    ensures Alive(Do(s, step).db, table, x) <==>
      Inserts(step, table, x) || (Alive(s.db, table, x) && !Undoes(s, step, table, x))
  {
    match table
    case TokenTable => TokenLife(s, step, x);
    case DeliveryTable => DeliveryLife(s, step, x);
    case _ => ArtifactLife(s, step, table, x);
  }

  /** A row is alive exactly when some step inserted it and no later step undid it. */
  lemma {:induction false} LifeStory(steps: seq<Step>, table: Table, x: nat)
    requires Replay(steps).Some?
    ensures Alive(Replay(steps).value.db, table, x) <==> Standing(steps, table, x).Some?
  {
    if steps != [] {
      var n := |steps| - 1;
      LifeStory(steps[..n], table, x);
      StepLife(Replay(steps[..n]).value, steps[n], table, x);
    }
  }

  lemma {:induction false} StandingWasInserted(steps: seq<Step>, table: Table, x: nat)
    requires Replay(steps).Some? && Standing(steps, table, x).Some?
    ensures var j := Standing(steps, table, x).value; j < |steps| && Inserts(steps[j], table, x)
  {
    if !Inserts(steps[|steps| - 1], table, x) { StandingWasInserted(steps[..|steps| - 1], table, x); }
  }

  // ---- a row's scope is settled when it is inserted ----

  lemma ArtifactKeepsLinks(s: State, step: Step, r: Ref)
    requires Enabled(s, step) && r in s.db.artifacts
    ensures var db := Do(s, step).db;
            && r in db.artifacts && db.artifacts[r].grant == s.db.artifacts[r].grant
            && db.artifacts[r].model == s.db.artifacts[r].model
  {
  }

  lemma ArtifactScopeStays(s: State, step: Step, g: GrantId, r: Ref)
    requires Inv(s) && Enabled(s, step) && r in s.db.artifacts
    ensures r in Do(s, step).db.artifacts && InScope(Do(s, step).db, g, r) == InScope(s.db, g, r)
  {
    assert RowOk(s, r);
    ArtifactKeepsLinks(s, step, r);
    if s.db.artifacts[r].model.Some? { ArtifactKeepsLinks(s, step, Ref(VoiceModel, s.db.artifacts[r].model.value)); }
  }

  lemma DeliveryKeepsLinks(s: State, step: Step, d: nat)
    requires Enabled(s, step) && d in s.db.deliveries
    ensures var db := Do(s, step).db;
            && d in db.deliveries && db.deliveries[d].grant == s.db.deliveries[d].grant
            && db.deliveries[d].audio == s.db.deliveries[d].audio
  {
  }

  lemma DeliveryScopeStays(s: State, step: Step, g: GrantId, d: nat)
    requires Inv(s) && Enabled(s, step) && d in s.db.deliveries
    ensures d in Do(s, step).db.deliveries && DeliveryInScope(Do(s, step).db, g, d) == DeliveryInScope(s.db, g, d)
  {
    DeliveryKeepsLinks(s, step, d);
    if s.db.deliveries[d].audio.Some? {
      ArtifactScopeStays(s, step, g, Ref(AudioArtifact, s.db.deliveries[d].audio.value));
    }
  }

  lemma StepKeepsScope(s: State, step: Step, g: GrantId, table: Table, x: nat)
    requires Inv(s) && Enabled(s, step) && x in IdsIn(s.db, table)
    ensures Belongs(Do(s, step).db, g, table, x) == Belongs(s.db, g, table, x)
  {
    match table
    case TokenTable =>
    case DeliveryTable =>
      DeliveryScopeStays(s, step, g, x);
      DeliveryScopeMeaning(s.db, g, x);
      DeliveryScopeMeaning(Do(s, step).db, g, x);
    case _ =>
      ArtifactScopeStays(s, step, g, Ref(KindOf(table), x));
      ScopeMeaning(s.db, g, Ref(KindOf(table), x));
      ScopeMeaning(Do(s, step).db, g, Ref(KindOf(table), x));
  }

  /** Whether a row is in a grant's scope never changes once the row is there. */
  lemma {:induction false} ScopeIsSettled(steps: seq<Step>, n: nat, g: GrantId, table: Table, x: nat)
    requires Replay(steps).Some? && n <= |steps| && Replay(steps[..n]).Some?
    requires x in IdsIn(Replay(steps[..n]).value.db, table)
    ensures Belongs(Replay(steps).value.db, g, table, x) == Belongs(Replay(steps[..n]).value.db, g, table, x)
  {
    if n == |steps| {
      assert steps[..n] == steps;
    } else {
      var front := steps[..|steps| - 1];
      FrontPrefix(steps, n);
      ScopeIsSettled(front, n, g, table, x);
      RowsStay(front, n, table);
      RunKeepsInv(front);
      StepKeepsScope(Replay(front).value, steps[|steps| - 1], g, table, x);
    }
  }

  // ---- the moment at which a run counted a table ----

  function CountOf(c: Counted, table: Table): Option<set<nat>> {
    match table
    case TokenTable => c.tokens
    case DeliveryTable => c.deliveries
    case AudioTable => c.audio
    case ModelTable => c.models
  }

  function NextTable(c: Counted): Table {
    if c.tokens.None? then TokenTable
    else if c.deliveries.None? then DeliveryTable
    else if c.audio.None? then AudioTable
    else ModelTable
  }

  predicate Counts(s: State, step: Step, u: RunId, table: Table) {
    step == CountNext(u) && u in s.runs && s.runs[u].pc.Counting? && NextTable(s.runs[u].pc.counted) == table
  }

  /** The last step at which run u counted a table. */
  function CountedAt(steps: seq<Step>, u: RunId, table: Table): Option<nat>
    requires Replay(steps).Some?
  {
    if steps == [] then None
    else
      var n := |steps| - 1;
      if Counts(Replay(steps[..n]).value, steps[n], u, table) then Some(n) else CountedAt(steps[..n], u, table)
  }

  ghost predicate HasCounted(s: State, u: RunId, table: Table) {
    u in s.runs && s.runs[u].pc.Counting? && CountOf(s.runs[u].pc.counted, table).Some?
  }

  // What a step leaves counted: the table it counts, or what was counted before.
  lemma CountAppears(s: State, step: Step, u: RunId, table: Table)
    requires Enabled(s, step) && HasCounted(Do(s, step), u, table)
    ensures u in s.runs && s.runs[u].grant == Do(s, step).runs[u].grant
    ensures Counts(s, step, u, table) ==>
      && CountOf(Do(s, step).runs[u].pc.counted, table).value == IdsIn(s.db, table)
      && LeftIn(s.db, s.runs[u].grant, table) == {}
    ensures !Counts(s, step, u, table) ==>
      && HasCounted(s, u, table)
      && CountOf(Do(s, step).runs[u].pc.counted, table) == CountOf(s.runs[u].pc.counted, table)
  {
  }

  /** The count a run holds of a table was taken at its `CountedAt` step: it is every id the table had then, and
      nothing of the grant was left in the table then. */
  lemma {:induction false} CountedIsTheTable(steps: seq<Step>, u: RunId, table: Table)
    requires Replay(steps).Some? && HasCounted(Replay(steps).value, u, table)
    ensures var at := CountedAt(steps, u, table);
            && at.Some? && at.value < |steps| && Replay(steps[..at.value]).Some?
            && Counts(Replay(steps[..at.value]).value, steps[at.value], u, table)
            && var run, db := Replay(steps).value.runs[u], Replay(steps[..at.value]).value.db;
            && CountOf(run.pc.counted, table).value == IdsIn(db, table)
            && LeftIn(db, run.grant, table) == {}
  {
    var n := |steps| - 1;
    var s := Replay(steps[..n]).value;
    CountAppears(s, steps[n], u, table);
    if !Counts(s, steps[n], u, table) {
      CountedIsTheTable(steps[..n], u, table);
      FrontPrefix(steps, CountedAt(steps, u, table).value);
    }
  }

  predicate Precedes(a: Table, b: Table) {
    (a.TokenTable? && !b.TokenTable?) || (a.DeliveryTable? && (b.AudioTable? || b.ModelTable?))
    || (a.AudioTable? && b.ModelTable?)
  }

  lemma {:induction false} CountedInOrder(steps: seq<Step>, u: RunId, a: Table, b: Table)
    requires Replay(steps).Some? && HasCounted(Replay(steps).value, u, b) && Precedes(a, b)
    ensures CountedAt(steps, u, a).Some? && CountedAt(steps, u, b).Some?
    ensures CountedAt(steps, u, a).value < CountedAt(steps, u, b).value
  {
    var n := |steps| - 1;
    var s := Replay(steps[..n]).value;
    CountAppears(s, steps[n], u, b);
    if Counts(s, steps[n], u, b) {
      CountedIsTheTable(steps[..n], u, a);
    } else {
      CountedInOrder(steps[..n], u, a, b);
      RunKeepsInv(steps[..n]);
      assert RunOk(s, s.runs[u]);
    }
  }

  // ---- main results ----

  /** The `Finish` step that turns a request COMPLETE leaves exactly those rows of the grant, in each table, that a
      step after that table's count inserted and no later step undid. */
  lemma CompleteLeavesExactlyArrivals(steps: seq<Step>, step: Step, g: GrantId, table: Table, x: nat)
    requires Replay(steps).Some? && Enabled(Replay(steps).value, step) && TurnsComplete(Replay(steps).value, step, g)
    ensures step.Finish? && CountedAt(steps, step.run, table).Some?
    ensures var s := Replay(steps).value;
            Belongs(Do(s, step).db, g, table, x) && Alive(Do(s, step).db, table, x) <==>
              && Belongs(s.db, g, table, x)
              && Standing(steps, table, x).Some?
              && Standing(steps, table, x).value > CountedAt(steps, step.run, table).value
  {
    var s := Replay(steps).value;
    LeftMeaning(Do(s, step).db, g, table, x);
    CompleteOnlyInFinish(steps, step, g);
    CountedIsTheTable(steps, step.run, table);
    FinishLeaves(s, step, g, table);
    LeftMeaning(s.db, g, table, x);
    LifeStory(steps, table, x);
    if x in LeftIn(s.db, g, table) { LeftArrivedLate(steps, step, g, table, x); }
  }

  lemma FinishLeaves(s: State, step: Step, g: GrantId, table: Table)
    requires Enabled(s, step) && step.Finish?
    ensures LeftIn(Do(s, step).db, g, table) == LeftIn(s.db, g, table)
  {
    RequestWriteScope(s.db, Do(s, step).db, g);
  }

  // A row left at `Finish` was not there when its table was counted.
  lemma LeftWasNotCounted(steps: seq<Step>, step: Step, g: GrantId, table: Table, x: nat)
    requires Replay(steps).Some? && Enabled(Replay(steps).value, step) && TurnsComplete(Replay(steps).value, step, g)
    requires x in LeftIn(Replay(steps).value.db, g, table)
    ensures step.Finish? && CountedAt(steps, step.run, table).Some?
    ensures var i := CountedAt(steps, step.run, table).value;
            && i < |steps| && Replay(steps[..i]).Some? && steps[i].CountNext?
            && x !in IdsIn(Replay(steps[..i]).value.db, table)
  {
    CompleteOnlyInFinish(steps, step, g);
    CountedIsTheTable(steps, step.run, table);
  }

  lemma InsertedLater(steps: seq<Step>, table: Table, x: nat, i: nat, j: nat)
    requires i < |steps| && j < |steps| && Replay(steps[..i]).Some? && steps[i].CountNext?
    requires Inserts(steps[j], table, x) && x !in IdsIn(Replay(steps[..i]).value.db, table)
    ensures j > i
  {
    if j < i {
      assert steps[..i][j] == steps[j];
      InsertedIsThere(steps[..i], table, x, j);
    }
  }

  lemma LeftArrivedLate(steps: seq<Step>, step: Step, g: GrantId, table: Table, x: nat)
    requires Replay(steps).Some? && Enabled(Replay(steps).value, step) && TurnsComplete(Replay(steps).value, step, g)
    requires x in LeftIn(Replay(steps).value.db, g, table) && Standing(steps, table, x).Some?
    ensures step.Finish? && CountedAt(steps, step.run, table).Some?
    ensures Standing(steps, table, x).value > CountedAt(steps, step.run, table).value
  {
    LeftWasNotCounted(steps, step, g, table, x);
    StandingWasInserted(steps, table, x);
    InsertedLater(steps, table, x, CountedAt(steps, step.run, table).value, Standing(steps, table, x).value);
  }

  predicate IsArrival(step: Step) {
    step.AddToken? || step.AddDelivery? || step.AddArtifact?
  }

  ghost predicate NoArrivalsSince(steps: seq<Step>, i: nat) {
    forall j :: i < j < |steps| ==> !IsArrival(steps[j])
  }

  lemma NothingLeftInTable(steps: seq<Step>, step: Step, g: GrantId, table: Table)
    requires Replay(steps).Some? && Enabled(Replay(steps).value, step) && TurnsComplete(Replay(steps).value, step, g)
    requires step.Finish? && CountedAt(steps, step.run, table).Some?
    requires NoArrivalsSince(steps, CountedAt(steps, step.run, table).value)
    ensures LeftIn(Do(Replay(steps).value, step).db, g, table) == {}
  {
    forall x ensures x !in LeftIn(Do(Replay(steps).value, step).db, g, table) {
      CompleteLeavesExactlyArrivals(steps, step, g, table, x);
      LeftMeaning(Do(Replay(steps).value, step).db, g, table, x);
      if Standing(steps, table, x).Some? { StandingWasInserted(steps, table, x); }
    }
  }

  lemma LaterCount(steps: seq<Step>, u: RunId, table: Table)
    requires Replay(steps).Some? && HasCounted(Replay(steps).value, u, table)
    ensures CountedAt(steps, u, TokenTable).Some? && CountedAt(steps, u, table).Some?
    ensures CountedAt(steps, u, TokenTable).value <= CountedAt(steps, u, table).value
  {
    if table.TokenTable? { CountedIsTheTable(steps, u, table); } else { CountedInOrder(steps, u, TokenTable, table); }
  }

  /** If no token, delivery or artifact is inserted after the run's first count, nothing is left under COMPLETE. */
  lemma NoArrivalsNothingLeft(steps: seq<Step>, step: Step, g: GrantId)
    requires Replay(steps).Some? && Enabled(Replay(steps).value, step) && TurnsComplete(Replay(steps).value, step, g)
    ensures step.Finish? && CountedAt(steps, step.run, TokenTable).Some?
    ensures NoArrivalsSince(steps, CountedAt(steps, step.run, TokenTable).value) ==>
      NothingLive(Do(Replay(steps).value, step).db, g)
  {
    CompleteOnlyInFinish(steps, step, g);
    LaterCount(steps, step.run, TokenTable);
    if NoArrivalsSince(steps, CountedAt(steps, step.run, TokenTable).value) {
      forall table ensures LeftIn(Do(Replay(steps).value, step).db, g, table) == {} {
        LaterCount(steps, step.run, table);
        NothingLeftInTable(steps, step, g, table);
      }
      EmptyTables(Do(Replay(steps).value, step).db, g);
      NothingLeftMeaning(Do(Replay(steps).value, step).db, g);
    }
  }

  lemma EmptyTables(db: Db, g: GrantId)
    requires forall table :: LeftIn(db, g, table) == {}
    ensures NothingLeft(db, g)
  {
    assert LeftIn(db, g, TokenTable) == {} && LeftIn(db, g, DeliveryTable) == {};
    assert LeftIn(db, g, AudioTable) == {} && LeftIn(db, g, ModelTable) == {};
  }

  // ---- the objects of tombstoned rows ----

  // A row keeps its key until its tombstone, which hands the key to its event.
  ghost predicate KeyHandedOn(db: Db, r: Ref, k: Key) {
    && r in db.artifacts
    && (if db.artifacts[r].deleted then ModelDeleted(r, Some(k)) in db.events else db.artifacts[r].key == Some(k))
  }

  lemma StepHandsOn(s: State, step: Step, r: Ref, k: Key)
    requires Enabled(s, step) && KeyHandedOn(s.db, r, k)
    ensures KeyHandedOn(Do(s, step).db, r, k)
  {
    assert s.db.events <= Do(s, step).db.events;
  }

  lemma {:induction false} RunHandsOn(steps: seq<Step>, n: nat, r: Ref, k: Key)
    requires Replay(steps).Some? && n <= |steps| && Replay(steps[..n]).Some?
    requires KeyHandedOn(Replay(steps[..n]).value.db, r, k)
    ensures KeyHandedOn(Replay(steps).value.db, r, k)
  {
    if n == |steps| {
      assert steps[..n] == steps;
    } else {
      FrontPrefix(steps, n);
      RunHandsOn(steps[..|steps| - 1], n, r, k);
      StepHandsOn(Replay(steps[..|steps| - 1]).value, steps[|steps| - 1], r, k);
    }
  }

  /** An object whose row had its key at some moment of the run and is tombstoned at the end is gone: its key is in
      no store, the row's deletion event names it, and no row points at it. */
  lemma TombstonedObjectIsGone(steps: seq<Step>, n: nat, r: Ref, k: Key)
    requires Replay(steps).Some? && n <= |steps| && Replay(steps[..n]).Some?
    requires r in Replay(steps[..n]).value.db.artifacts && Replay(steps[..n]).value.db.artifacts[r].key == Some(k)
    requires r in Replay(steps).value.db.artifacts && Replay(steps).value.db.artifacts[r].deleted
    ensures var s := Replay(steps).value;
            && k !in s.objects && ModelDeleted(r, Some(k)) in s.db.events
            && forall q :: q in s.db.artifacts ==> s.db.artifacts[q].key != Some(k)
  {
    RunKeepsInv(steps[..n]);
    assert RowOk(Replay(steps[..n]).value, r);
    RunHandsOn(steps, n, r, k);
    RunKeepsInv(steps);
    var s := Replay(steps).value;
    var i :| 0 <= i < |s.db.events| && s.db.events[i] == ModelDeleted(r, Some(k));
    assert EventOk(s, s.db.events[i]);
  }

  // ---- nothing is undone that a revocation does not reach ----

  predicate IsRevoked(db: Db, g: GrantId) {
    g in db.revoked && db.revoked[g]
  }

  ghost predicate Reached(db: Db, table: Table, x: nat) {
    exists g :: IsRevoked(db, g) && Belongs(db, g, table, x)
  }

  predicate IsUndone(db: Db, table: Table, x: nat) {
    match table
    case TokenTable => x in db.tokens && db.tokens[x].revoked
    case DeliveryTable => x in db.deliveries && db.deliveries[x].status.Cancelled?
    case _ => Ref(KindOf(table), x) in db.artifacts && db.artifacts[Ref(KindOf(table), x)].deleted
  }

  function TableOf(kind: Kind): Table {
    if kind.AudioArtifact? then AudioTable else ModelTable
  }

  // What a run has listed, or holds, is its grant's.
  ghost predicate ListedRightly(db: Db, g: GrantId, pc: Pc) {
    && (pc.Cancelling? ==> forall d :: d in pc.todo ==> Belongs(db, g, DeliveryTable, d))
    && (pc.Deleting? || pc.Holding? ==> forall id :: id in pc.todo ==> Belongs(db, g, TableOf(pc.kind), id))
    && (pc.Holding? ==> Belongs(db, g, TableOf(pc.kind), pc.id))
  }

  ghost predicate WorksRightly(s: State, u: RunId)
    requires u in s.runs
  {
    IsRevoked(s.db, s.runs[u].grant) && ListedRightly(s.db, s.runs[u].grant, s.runs[u].pc)
  }

  ghost predicate AllRight(s: State) {
    && (forall u :: u in s.runs ==> WorksRightly(s, u))
    && (forall table, x :: IsUndone(s.db, table, x) ==> Reached(s.db, table, x))
  }

  lemma RevokedStays(s: State, step: Step, g: GrantId)
    requires Enabled(s, step) && IsRevoked(s.db, g)
    ensures IsRevoked(Do(s, step).db, g)
  {
  }

  lemma BelongsIsThere(db: Db, g: GrantId, table: Table, x: nat)
    requires Belongs(db, g, table, x)
    ensures x in IdsIn(db, table)
  {
  }

  lemma StepKeepsBelonging(s: State, step: Step, g: GrantId, table: Table, x: nat)
    requires Inv(s) && Enabled(s, step) && Belongs(s.db, g, table, x)
    ensures Belongs(Do(s, step).db, g, table, x)
  {
    BelongsIsThere(s.db, g, table, x);
    StepKeepsScope(s, step, g, table, x);
  }

  lemma StepKeepsReached(s: State, step: Step, table: Table, x: nat)
    requires Inv(s) && Enabled(s, step) && Reached(s.db, table, x)
    ensures Reached(Do(s, step).db, table, x)
  {
    var g :| IsRevoked(s.db, g) && Belongs(s.db, g, table, x);
    RevokedStays(s, step, g);
    StepKeepsBelonging(s, step, g, table, x);
  }

  // A list made before the step is still right after it.
  lemma StepKeepsListed(s: State, step: Step, g: GrantId, pc: Pc)
    requires Inv(s) && Enabled(s, step) && ListedRightly(s.db, g, pc)
    ensures ListedRightly(Do(s, step).db, g, pc)
  {
    if pc.Cancelling? {
      forall d | d in pc.todo ensures Belongs(Do(s, step).db, g, DeliveryTable, d) {
        StepKeepsBelonging(s, step, g, DeliveryTable, d);
      }
    }
    if pc.Deleting? || pc.Holding? {
      forall id | id in pc.todo ensures Belongs(Do(s, step).db, g, TableOf(pc.kind), id) {
        StepKeepsBelonging(s, step, g, TableOf(pc.kind), id);
      }
    }
    if pc.Holding? { StepKeepsBelonging(s, step, g, TableOf(pc.kind), pc.id); }
  }

  // Where a run's own step leaves it, its list is right on the tables as they were.
  lemma OwnStepListsRightly(s: State, step: Step, u: RunId)
    requires Enabled(s, step) && u in Do(s, step).runs
    requires u in s.runs ==> WorksRightly(s, u)
    ensures IsRevoked(s.db, Do(s, step).runs[u].grant)
    ensures ListedRightly(s.db, Do(s, step).runs[u].grant, Do(s, step).runs[u].pc)
  {
    if step.ListDeliveries? && step.run == u { DueAreListed(s, step.todo, s.runs[u].grant); }
    if step.ListArtifacts? && step.run == u {
      LiveAreListed(s, step.todo, s.runs[u].grant, NextKind(s.runs[u].pc));
    }
  }

  lemma DueAreListed(s: State, todo: seq<nat>, g: GrantId)
    requires Listing(todo, DueDeliveries(s.db, g))
    ensures forall d :: d in todo ==> Belongs(s.db, g, DeliveryTable, d)
  {
    ListingIsExact(todo, DueDeliveries(s.db, g));
    forall d | d in todo ensures Belongs(s.db, g, DeliveryTable, d) { DeliveryScopeMeaning(s.db, g, d); }
  }

  lemma LiveAreListed(s: State, todo: seq<nat>, g: GrantId, kind: Kind)
    requires Listing(todo, Live(s.db, g, kind))
    ensures forall id :: id in todo ==> Belongs(s.db, g, TableOf(kind), id)
  {
    ListingIsExact(todo, Live(s.db, g, kind));
    LiveMeaning(s.db, g, kind);
    forall id | id in todo ensures Belongs(s.db, g, TableOf(kind), id) { ScopeMeaning(s.db, g, Ref(kind, id)); }
  }

  // As many places as ids, and every id has one: no other value has.
  lemma {:induction false} ListingIsExact(todo: seq<nat>, ids: set<nat>)
    requires Listing(todo, ids)
    ensures forall id :: id in todo ==> id in ids
  {
    if todo != [] {
      var last, front := todo[|todo| - 1], todo[..|todo| - 1];
      assert todo == front + [last];
      if last in ids {
        assert last !in front ==> Listing(front, ids - {last});
        if last in front { FewerPlaces(front, ids); } else { ListingIsExact(front, ids - {last}); }
      } else {
        FewerPlaces(front, ids);
      }
    }
  }

  lemma {:induction false} FewerPlaces(places: seq<nat>, ids: set<nat>)
    requires forall id :: id in ids ==> id in places
    ensures |ids| <= |places|
  {
    if places != [] {
      var last, front := places[|places| - 1], places[..|places| - 1];
      assert places == front + [last];
      FewerPlaces(front, ids - {last});
    }
  }

  lemma NewlyUndone(s: State, step: Step, table: Table, x: nat)
    requires AllRight(s) && Inv(s) && Enabled(s, step)
    requires IsUndone(Do(s, step).db, table, x) && !IsUndone(s.db, table, x)
    ensures Reached(Do(s, step).db, table, x)
  {
    match table
    case TokenTable => NewlyRevoked(s, step, x);
    case DeliveryTable =>
      NewlyCancelled(s, step, x);
      StepKeepsReached(s, step, table, x);
    case _ =>
      NewlyDeleted(s, step, table, x);
      StepKeepsReached(s, step, table, x);
  }

  lemma NewlyCancelled(s: State, step: Step, x: nat)
    requires AllRight(s) && Enabled(s, step)
    requires IsUndone(Do(s, step).db, DeliveryTable, x) && !IsUndone(s.db, DeliveryTable, x)
    ensures Reached(s.db, DeliveryTable, x)
  {
    assert step.CancelNext? && x == s.runs[step.run].pc.todo[0];
    assert WorksRightly(s, step.run);
  }

  lemma NewlyDeleted(s: State, step: Step, table: Table, x: nat)
    requires AllRight(s) && Enabled(s, step) && (table.AudioTable? || table.ModelTable?)
    requires IsUndone(Do(s, step).db, table, x) && !IsUndone(s.db, table, x)
    ensures Reached(s.db, table, x)
  {
    assert step.CommitTombstone? && Ref(s.runs[step.run].pc.kind, s.runs[step.run].pc.id) == Ref(KindOf(table), x);
    assert WorksRightly(s, step.run) && TableOf(s.runs[step.run].pc.kind) == table;
  }

  lemma NewlyRevoked(s: State, step: Step, x: nat)
    requires AllRight(s) && Enabled(s, step)
    requires IsUndone(Do(s, step).db, TokenTable, x) && !IsUndone(s.db, TokenTable, x)
    ensures Reached(Do(s, step).db, TokenTable, x)
  {
    assert step.Revoke? || step.RevokeTokens?;
    var g := if step.Revoke? then step.grant else s.runs[step.run].grant;
    assert step.RevokeTokens? ==> WorksRightly(s, step.run);
    assert IsRevoked(Do(s, step).db, g) && Belongs(Do(s, step).db, g, TokenTable, x);
  }

  lemma StepKeepsAllRight(s: State, step: Step)
    requires AllRight(s) && Inv(s) && Enabled(s, step)
    ensures AllRight(Do(s, step))
  {
    var t := Do(s, step);
    forall u | u in t.runs
      ensures WorksRightly(t, u)
    {
      OwnStepListsRightly(s, step, u);
      RevokedStays(s, step, t.runs[u].grant);
      StepKeepsListed(s, step, t.runs[u].grant, t.runs[u].pc);
    }
    forall table, x | IsUndone(t.db, table, x)
      ensures Reached(t.db, table, x)
    {
      if IsUndone(s.db, table, x) { StepKeepsReached(s, step, table, x); } else { NewlyUndone(s, step, table, x); }
    }
  }

  lemma {:induction false} RunKeepsAllRight(steps: seq<Step>)
    requires Replay(steps).Some?
    ensures AllRight(Replay(steps).value)
  {
    if steps != [] {
      var front := steps[..|steps| - 1];
      RunKeepsInv(front);
      RunKeepsAllRight(front);
      StepKeepsAllRight(Replay(front).value, steps[|steps| - 1]);
    }
  }

  /** Whatever the interleaving: a token is revoked, a delivery cancelled or an artifact deleted only if it belongs to
      a grant that is revoked. */
  lemma OnlyRevokedGrantsAreUndone(steps: seq<Step>, table: Table, x: nat)
    requires Replay(steps).Some? && IsUndone(Replay(steps).value.db, table, x)
    ensures Reached(Replay(steps).value.db, table, x)
  {
    RunKeepsAllRight(steps);
  }
}
