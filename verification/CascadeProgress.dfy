/** From every reachable state a run whose rows no other run has locked can be taken to its end, and what it does then
    is what the one worker of `CascadeWorker` does (remembrance-consent/app/consent/cascade.py, `run_cascade`). */
module CascadeProgress {
  import opened Wrappers
  import opened CascadeStore
  import opened CascadeWorker
  import opened CascadeRuns

  // No other run is inside the transaction that deletes one of the grant's artifacts.
  ghost predicate RowsFree(s: State, g: GrantId) {
    forall r :: r in s.db.artifacts && InScope(s.db, g, r) ==> !Locked(s, r)
  }

  // The state s with run u at work on these tables and objects.
  function With(s: State, u: RunId, run: Run, db: Db, objects: set<Key>): State {
    s.(db := db, objects := objects, runs := s.runs[u := run])
  }

  lemma OwnStep(steps: seq<Step>, s: State, u: RunId, run: Run, db: Db, objects: set<Key>, step: Step)
    returns (steps': seq<Step>)
    requires Replay(steps) == Some(With(s, u, run, db, objects)) && Enabled(With(s, u, run, db, objects), step)
    ensures steps' == steps + [step] && Replay(steps') == Some(Do(With(s, u, run, db, objects), step))
  {
    ReplayOneMore(steps, step);
    steps' := steps + [step];
  }

  lemma Overwrite(s: State, u: RunId, a: Run, b: Run)
    ensures s.runs[u := a][u := b] == s.runs[u := b]
  {
  }

  // ---- the claim and the tokens ----

  lemma Start(steps: seq<Step>, s: State, u: RunId, g: GrantId, now: int) returns (steps': seq<Step>)
    requires Replay(steps) == Some(s) && Enabled(s, Claim(u, g, now))
    ensures Replay(steps') == Some(With(s, u, Run(g, Report(|LiveTokens(s.db, g)|, 0, 0, 0), TokensRevoked),
                                        RevokeTokensTx(ClaimTx(s.db, g, now), g), s.objects))
  {
    ReplayOneMore(steps, Claim(u, g, now));
    RequestWriteScope(s.db, ClaimTx(s.db, g, now), g);
    var run := Run(g, Report(0, 0, 0, 0), Claimed);
    assert Do(s, Claim(u, g, now)) == With(s, u, run, ClaimTx(s.db, g, now), s.objects);
    steps' := OwnStep(steps + [Claim(u, g, now)], s, u, run, ClaimTx(s.db, g, now), s.objects, RevokeTokens(u));
    Overwrite(s, u, run, Run(g, Report(|LiveTokens(s.db, g)|, 0, 0, 0), TokensRevoked));
  }

  // ---- the deliveries ----

  function Cancelled(g: GrantId, report: Report, ds: seq<nat>, i: nat): Run
    requires i <= |ds|
  {
    Run(g, report.(deliveries := i), Cancelling(ds[i..]))
  }

  lemma CancelNextOf(s: State, u: RunId, g: GrantId, report: Report, db: Db, ds: seq<nat>, i: nat)
    requires i < |ds| && Lists(ds, DueDeliveries(db, g))
    ensures var t := With(s, u, Cancelled(g, report, ds, i), CancelAll(db, ds[..i]), s.objects);
            && Enabled(t, CancelNext(u))
            && Do(t, CancelNext(u)) ==
              With(s, u, Cancelled(g, report, ds, i + 1), CancelAll(db, ds[..i + 1]), s.objects)
  {
    assert ds[i] in ds;
    StillDue(db, ds, i);
    assert ds[..i + 1][..i] == ds[..i];
    assert ds[i..][0] == ds[i] && ds[i..][1..] == ds[i + 1..];
    var run := Cancelled(g, report, ds, i);
    var next := Cancelled(g, report, ds, i + 1);
    Overwrite(s, u, run, next);
  }

  lemma {:induction false} CancelRest(
      steps: seq<Step>, s: State, u: RunId, g: GrantId, report: Report, db: Db, ds: seq<nat>, i: nat)
    returns (steps': seq<Step>)
    requires i <= |ds| && Lists(ds, DueDeliveries(db, g))
    requires Replay(steps) == Some(With(s, u, Cancelled(g, report, ds, i), CancelAll(db, ds[..i]), s.objects))
    ensures Replay(steps') == Some(With(s, u, Cancelled(g, report, ds, |ds|), CancelAll(db, ds), s.objects))
    decreases |ds| - i
  {
    if i == |ds| {
      assert ds[..i] == ds;
      steps' := steps;
    } else {
      CancelNextOf(s, u, g, report, db, ds, i);
      steps' := OwnStep(steps, s, u, Cancelled(g, report, ds, i), CancelAll(db, ds[..i]), s.objects, CancelNext(u));
      steps' := CancelRest(steps', s, u, g, report, db, ds, i + 1);
    }
  }

  // ---- the artifacts ----

  function Deleted(report: Report, kind: Kind, n: nat): Report {
    if kind.AudioArtifact? then report.(audio := n) else report.(models := n)
  }

  function Sweeping(g: GrantId, report: Report, kind: Kind, ids: seq<nat>, i: nat): Run
    requires i <= |ids|
  {
    Run(g, Deleted(report, kind, i), Deleting(kind, ids[i..]))
  }

  // The listed artifacts are live and nobody else holds them.
  ghost predicate Ready(s: State, u: RunId, db: Db, kind: Kind, ids: seq<nat>) {
    && Distinct(ids) && AllRows(db, kind, ids)
    && forall i, v :: 0 <= i < |ids| && v in s.runs && v != u && s.runs[v].pc.Holding? ==>
         Ref(s.runs[v].pc.kind, s.runs[v].pc.id) != Ref(kind, ids[i])
  }

  function HoldingNext(db: Db, g: GrantId, report: Report, kind: Kind, ids: seq<nat>, i: nat, gone: bool): Run
    requires i < |ids|
  {
    Run(g, Deleted(report, kind, i), Holding(kind, ids[i], ids[i + 1..], gone))
  }

  lemma LockNextOf(
      s: State, u: RunId, g: GrantId, report: Report, db: Db, objects: set<Key>, kind: Kind, ids: seq<nat>, i: nat)
    requires i < |ids| && Ready(s, u, db, kind, ids)
    ensures var t := With(s, u, Sweeping(g, report, kind, ids, i), DeleteAll(db, kind, ids[..i]), objects);
            && Enabled(t, LockNext(u))
            && Do(t, LockNext(u)) ==
               With(s, u, HoldingNext(db, g, report, kind, ids, i, KeyOf(db, Ref(kind, ids[i])) == {}),
                    DeleteAll(db, kind, ids[..i]), objects)
  {
    RowStillLive(db, kind, ids, i);
    assert ids[i..][0] == ids[i] && ids[i..][1..] == ids[i + 1..];
    var t := With(s, u, Sweeping(g, report, kind, ids, i), DeleteAll(db, kind, ids[..i]), objects);
    assert forall v :: v in t.runs && t.runs[v].pc.Holding? ==> v != u && t.runs[v] == s.runs[v];
    assert !Locked(t, Ref(kind, ids[i]));
    var next := HoldingNext(db, g, report, kind, ids, i, KeyOf(db, Ref(kind, ids[i])) == {});
    assert t.runs[u := next] == s.runs[u := next];
  }

  lemma DeleteObjectOf(
      s: State, u: RunId, g: GrantId, report: Report, db: Db, objects: set<Key>, kind: Kind, ids: seq<nat>, i: nat)
    requires i < |ids| && Ready(s, u, db, kind, ids)
    ensures var t := With(s, u, HoldingNext(db, g, report, kind, ids, i, false), DeleteAll(db, kind, ids[..i]),
                          objects);
            && Enabled(t, DeleteObject(u))
            && Do(t, DeleteObject(u)) ==
               With(s, u, HoldingNext(db, g, report, kind, ids, i, true), DeleteAll(db, kind, ids[..i]),
                    objects - KeyOf(db, Ref(kind, ids[i])))
  {
    RowStillLive(db, kind, ids, i);
    var run := HoldingNext(db, g, report, kind, ids, i, false);
    var next := HoldingNext(db, g, report, kind, ids, i, true);
    Overwrite(s, u, run, next);
  }

  lemma CommitTombstoneOf(
      s: State, u: RunId, g: GrantId, report: Report, db: Db, objects: set<Key>, kind: Kind, ids: seq<nat>, i: nat)
    requires i < |ids|
    ensures var t := With(s, u, HoldingNext(db, g, report, kind, ids, i, true), DeleteAll(db, kind, ids[..i]), objects);
            && Enabled(t, CommitTombstone(u))
            && Do(t, CommitTombstone(u)) ==
               With(s, u, Sweeping(g, report, kind, ids, i + 1), DeleteAll(db, kind, ids[..i + 1]), objects)
  {
    assert ids[..i + 1][..i] == ids[..i];
    var run := HoldingNext(db, g, report, kind, ids, i, true);
    var next := Sweeping(g, report, kind, ids, i + 1);
    Overwrite(s, u, run, next);
  }

  lemma DeleteNext(
      steps: seq<Step>, s: State, u: RunId, g: GrantId, report: Report, db: Db, objects: set<Key>, kind: Kind,
      ids: seq<nat>, i: nat)
    returns (steps': seq<Step>)
    requires i < |ids| && Ready(s, u, db, kind, ids)
    requires Replay(steps) ==
             Some(With(s, u, Sweeping(g, report, kind, ids, i), DeleteAll(db, kind, ids[..i]), objects))
    ensures Replay(steps') ==
            Some(With(s, u, Sweeping(g, report, kind, ids, i + 1), DeleteAll(db, kind, ids[..i + 1]),
                      objects - KeyOf(db, Ref(kind, ids[i]))))
  {
    var key := KeyOf(db, Ref(kind, ids[i]));
    var before := DeleteAll(db, kind, ids[..i]);
    LockNextOf(s, u, g, report, db, objects, kind, ids, i);
    steps' := OwnStep(steps, s, u, Sweeping(g, report, kind, ids, i), before, objects, LockNext(u));
    if key != {} {
      DeleteObjectOf(s, u, g, report, db, objects, kind, ids, i);
      steps' := OwnStep(steps', s, u, HoldingNext(db, g, report, kind, ids, i, false), before, objects,
                        DeleteObject(u));
    } else {
      assert objects - key == objects;
    }
    CommitTombstoneOf(s, u, g, report, db, objects - key, kind, ids, i);
    steps' := OwnStep(
      steps', s, u, HoldingNext(db, g, report, kind, ids, i, true), before, objects - key, CommitTombstone(u));
  }

  lemma {:induction false} DeleteRest(
      steps: seq<Step>, s: State, u: RunId, g: GrantId, report: Report, db: Db, objects: set<Key>, kind: Kind,
      ids: seq<nat>, i: nat)
    returns (steps': seq<Step>)
    requires i <= |ids| && Ready(s, u, db, kind, ids)
    requires Replay(steps) ==
             Some(With(s, u, Sweeping(g, report, kind, ids, i), DeleteAll(db, kind, ids[..i]),
                       objects - KeysOf(db, kind, ids[..i])))
    ensures Replay(steps') ==
            Some(With(s, u, Sweeping(g, report, kind, ids, |ids|), DeleteAll(db, kind, ids),
                      objects - KeysOf(db, kind, ids)))
    decreases |ids| - i
  {
    if i == |ids| {
      assert ids[..i] == ids;
      steps' := steps;
    } else {
      assert ids[..i + 1][..i] == ids[..i];
      assert objects - KeysOf(db, kind, ids[..i]) - KeyOf(db, Ref(kind, ids[i])) ==
               objects - KeysOf(db, kind, ids[..i + 1]);
      steps' := DeleteNext(steps, s, u, g, report, db, objects - KeysOf(db, kind, ids[..i]), kind, ids, i);
      steps' := DeleteRest(steps', s, u, g, report, db, objects, kind, ids, i + 1);
    }
  }

  // ---- the counts ----

  lemma CountAll(steps: seq<Step>, s: State, u: RunId, g: GrantId, report: Report, db: Db, objects: set<Key>)
    returns (steps': seq<Step>, c: Counted)
    requires NothingLeft(db, g)
    requires Replay(steps) == Some(With(s, u, Run(g, report, Deleting(VoiceModel, [])), db, objects))
    ensures c.models.Some? && Replay(steps') == Some(With(s, u, Run(g, report, Counting(c)), db, objects))
  {
    steps' := OwnStep(steps, s, u, Run(g, report, Deleting(VoiceModel, [])), db, objects, CountNext(u));
    c := NOT_COUNTED;
    Overwrite(s, u, Run(g, report, Deleting(VoiceModel, [])), Run(g, report, Counting(c)));
    steps', c := CountTable(steps', s, u, g, report, db, objects, c);
    steps', c := CountTable(steps', s, u, g, report, db, objects, c);
    steps', c := CountTable(steps', s, u, g, report, db, objects, c);
    steps', c := CountTable(steps', s, u, g, report, db, objects, c);
  }

  lemma CountTable(
      steps: seq<Step>, s: State, u: RunId, g: GrantId, report: Report, db: Db, objects: set<Key>, c: Counted)
    returns (steps': seq<Step>, c': Counted)
    requires NothingLeft(db, g) && c.models.None?
    requires Replay(steps) == Some(With(s, u, Run(g, report, Counting(c)), db, objects))
    ensures c' == AfterCount(db, c) && Replay(steps') == Some(With(s, u, Run(g, report, Counting(c')), db, objects))
  {
    c' := AfterCount(db, c);
    Overwrite(s, u, Run(g, report, Counting(c)), Run(g, report, Counting(c')));
    steps' := OwnStep(steps, s, u, Run(g, report, Counting(c)), db, objects, CountNext(u));
  }

  // ---- id order ----

  lemma GreatestOf(ids: set<nat>) returns (greatest: nat)
    requires ids != {}
    ensures greatest in ids && forall id :: id in ids ==> id <= greatest
  {
    var some :| some in ids;
    greatest := some;
    assert forall id :: id in ids ==> id == some || id in ids - {some};
    if ids != {some} {
      var other := GreatestOf(ids - {some});
      if other > some { greatest := other; }
    }
  }

  lemma OrderedIds(ids: set<nat>) returns (listed: seq<nat>)
    ensures Lists(listed, ids)
  {
    listed := [];
    if ids != {} {
      var greatest := GreatestOf(ids);
      var front := OrderedIds(ids - {greatest});
      listed := front + [greatest];
      assert forall i :: 0 <= i < |front| ==> front[i] in front;
      assert forall id :: id in ids ==> id in front || id == greatest;
    }
  }

  // ---- a whole run ----

  function AfterDeliveries(db: Db, g: GrantId, now: int, ds: seq<nat>): Db {
    CancelAll(RevokeTokensTx(ClaimTx(db, g, now), g), ds)
  }

  function AfterAudio(db: Db, g: GrantId, now: int, ds: seq<nat>, as_: seq<nat>): Db {
    DeleteAll(AfterDeliveries(db, g, now, ds), AudioArtifact, as_)
  }

  function AfterModels(db: Db, g: GrantId, now: int, ds: seq<nat>, as_: seq<nat>, ms: seq<nat>): Db {
    DeleteAll(AfterAudio(db, g, now, ds, as_), VoiceModel, ms)
  }

  // The ids the three SELECTs return.
  ghost predicate Listed(db: Db, g: GrantId, ds: seq<nat>, as_: seq<nat>, ms: seq<nat>) {
    && Lists(ds, DueDeliveries(db, g))
    && Lists(as_, Live(db, g, AudioArtifact))
    && Lists(ms, Live(db, g, VoiceModel))
  }

  lemma ScopeOnTheWay(db: Db, g: GrantId, now: int, ds: seq<nat>, as_: seq<nat>, ms: seq<nat>)
    requires Listed(db, g, ds, as_, ms)
    ensures DueDeliveries(RevokeTokensTx(ClaimTx(db, g, now), g), g) == DueDeliveries(db, g)
    ensures forall k :: Live(AfterDeliveries(db, g, now, ds), g, k) == Live(db, g, k)
    ensures AfterDeliveries(db, g, now, ds).artifacts == db.artifacts
    ensures Live(AfterAudio(db, g, now, ds, as_), g, VoiceModel) == Live(db, g, VoiceModel)
    ensures NothingLeft(AfterModels(db, g, now, ds, as_, ms), g)
    ensures AfterModels(db, g, now, ds, as_, ms).events ==
            db.events + (CancelEvents(ds) + DeleteEvents(db, AudioArtifact, as_) + DeleteEvents(db, VoiceModel, ms))
  {
    var claimed := ClaimTx(db, g, now);
    RequestWriteScope(db, claimed, g);
    RevokeTokensScope(claimed, g, g);
    Prepared(db, g, now, ds);
    var ready := AfterDeliveries(db, g, now, ds);
    assert as_[..|as_|] == as_ && ms[..|ms|] == ms;
    AudioPart(db, ready, g, ds, as_, |as_|);
    forall id { ModelsUntouched(db, ready, as_, id); }
    ModelPart(db, AfterAudio(db, g, now, ds, as_), g, CancelEvents(ds) + DeleteEvents(db, AudioArtifact, as_), ms,
              |ms|);
  }

  lemma ObjectsOnTheWay(db: Db, g: GrantId, now: int, ds: seq<nat>, as_: seq<nat>, ms: seq<nat>)
    requires Listed(db, g, ds, as_, ms)
    ensures KeysOf(AfterDeliveries(db, g, now, ds), AudioArtifact, as_)
            + KeysOf(AfterAudio(db, g, now, ds, as_), VoiceModel, ms) == ScopeKeys(db, g)
    ensures AfterModels(db, g, now, ds, as_, ms).artifacts == Cleared(db, g)
  {
    ScopeOnTheWay(db, g, now, ds, as_, ms);
    NothingSwept(db, g);
    assert as_[..|as_|] == as_ && ms[..|ms|] == ms;
    SweptMore(db, AfterDeliveries(db, g, now, ds), g, AudioArtifact, as_, |as_|);
    SweptMore(db, AfterAudio(db, g, now, ds, as_), g, VoiceModel, ms, |ms|);
    AllSwept(db, AfterModels(db, g, now, ds, as_, ms), g);
  }

  lemma FreeRowsAreReady(s: State, u: RunId, g: GrantId, db: Db, kind: Kind, ids: seq<nat>)
    requires RowsFree(s, g) && Lists(ids, Live(db, g, kind)) && Live(db, g, kind) == Live(s.db, g, kind)
    ensures Ready(s, u, db, kind, ids)
  {
    LiveListed(db, g, kind, ids);
    LiveMeaning(s.db, g, kind);
    forall i, v | 0 <= i < |ids| && v in s.runs && v != u && s.runs[v].pc.Holding?
      ensures Ref(s.runs[v].pc.kind, s.runs[v].pc.id) != Ref(kind, ids[i])
    {
      assert ids[i] in ids;
      assert !Locked(s, Ref(kind, ids[i]));
    }
  }

  lemma ThroughDeliveries(steps: seq<Step>, s: State, u: RunId, g: GrantId, now: int, ds: seq<nat>)
    returns (steps': seq<Step>)
    requires Replay(steps) == Some(s) && Enabled(s, Claim(u, g, now))
    requires Lists(ds, DueDeliveries(RevokeTokensTx(ClaimTx(s.db, g, now), g), g))
    ensures Replay(steps') ==
            Some(With(s, u, Run(g, Report(|LiveTokens(s.db, g)|, |ds|, 0, 0), Cancelling([])),
                      AfterDeliveries(s.db, g, now, ds), s.objects))
  {
    var report := Report(|LiveTokens(s.db, g)|, 0, 0, 0);
    var db := RevokeTokensTx(ClaimTx(s.db, g, now), g);
    steps' := Start(steps, s, u, g, now);
    steps' := OwnStep(steps', s, u, Run(g, report, TokensRevoked), db, s.objects, ListDeliveries(u, ds));
    Overwrite(s, u, Run(g, report, TokensRevoked), Run(g, report, Cancelling(ds)));
    assert ds[0..] == ds && ds[..0] == [] && ds[|ds|..] == [];
    steps' := CancelRest(steps', s, u, g, report, db, ds, 0);
  }

  lemma ThroughArtifacts(
      steps: seq<Step>, s: State, u: RunId, g: GrantId, report: Report, pc: Pc, db: Db, objects: set<Key>,
      ids: seq<nat>)
    returns (steps': seq<Step>)
    requires pc == Cancelling([]) || pc == Deleting(AudioArtifact, [])
    requires Deleted(report, NextKind(pc), 0) == report
    requires Ready(s, u, db, NextKind(pc), ids) && Lists(ids, Live(db, g, NextKind(pc)))
    requires Replay(steps) == Some(With(s, u, Run(g, report, pc), db, objects))
    ensures Replay(steps') ==
            Some(With(s, u, Run(g, Deleted(report, NextKind(pc), |ids|), Deleting(NextKind(pc), [])),
                      DeleteAll(db, NextKind(pc), ids), objects - KeysOf(db, NextKind(pc), ids)))
  {
    steps' := OwnStep(steps, s, u, Run(g, report, pc), db, objects, ListArtifacts(u, ids));
    Overwrite(s, u, Run(g, report, pc), Run(g, report, Deleting(NextKind(pc), ids)));
    assert ids[0..] == ids && ids[..0] == [] && ids[|ids|..] == [] && objects - {} == objects;
    steps' := DeleteRest(steps', s, u, g, report, db, objects, NextKind(pc), ids, 0);
  }

  lemma ThroughFinish(
      steps: seq<Step>, s: State, u: RunId, g: GrantId, now: int, report: Report, db: Db, objects: set<Key>)
    returns (steps': seq<Step>)
    requires NothingLeft(db, g) && g in db.requests && u !in s.runs
    requires Replay(steps) == Some(With(s, u, Run(g, report, Deleting(VoiceModel, [])), db, objects))
    ensures Replay(steps') == Some(s.(db := CompleteTx(db, g, report, now), objects := objects))
  {
    var c;
    steps', c := CountAll(steps, s, u, g, report, db, objects);
    steps' := OwnStep(steps', s, u, Run(g, report, Counting(c)), db, objects, Finish(u, now));
    assert s.runs[u := Run(g, report, Counting(c))] - {u} == s.runs;
  }

  /** Whatever happened before, and whatever other runs are under way: unless one of them holds a row of the grant, a
      new run can be taken to COMPLETE. It then leaves the rows, the objects, the report and the audit trail that
      `Cascade.Run` promises of the one worker, and the other runs as they were. */
  lemma FreeRunCanFinish(steps: seq<Step>, s: State, u: RunId, g: GrantId, now: int)
    returns (steps': seq<Step>, trail: seq<Event>)
    requires Replay(steps) == Some(s) && Enabled(s, Claim(u, g, now)) && RowsFree(s, g)
    ensures Replay(steps').Some?
    ensures var t := Replay(steps').value;
            && t.runs == s.runs
            && g in t.db.requests && t.db.requests[g].status.Complete?
            && Accomplished(s.db, t.db, s.objects, t.objects, g)
            && Undone(s.db, g, trail)
            && t.db.events == s.db.events + trail
                              + [CascadeCompleted(g, t.db.requests[g].attempts, FullReport(s.db, g))]
  {
    var ds := OrderedIds(DueDeliveries(s.db, g));
    var as_ := OrderedIds(Live(s.db, g, AudioArtifact));
    var ms := OrderedIds(Live(s.db, g, VoiceModel));
    ScopeOnTheWay(s.db, g, now, ds, as_, ms);
    ObjectsOnTheWay(s.db, g, now, ds, as_, ms);
    UndoneBy(s.db, g, ds, as_, ms);
    trail := CancelEvents(ds) + DeleteEvents(s.db, AudioArtifact, as_) + DeleteEvents(s.db, VoiceModel, ms);
    steps' := Execute(steps, s, u, g, now, ds, as_, ms);
    RequestWriteScope(AfterModels(s.db, g, now, ds, as_, ms), Replay(steps').value.db, g);
    RowsOnTheWay(s.db, g, now, ds, as_, ms);
    Accomplishes(s.db, Replay(steps').value.db, s.objects, Replay(steps').value.objects, g);
  }

  lemma RowsOnTheWay(db: Db, g: GrantId, now: int, ds: seq<nat>, as_: seq<nat>, ms: seq<nat>)
    requires Lists(ds, DueDeliveries(db, g))
    ensures AfterModels(db, g, now, ds, as_, ms).tokens == RevokeTokensTx(db, g).tokens
    ensures AfterModels(db, g, now, ds, as_, ms).deliveries == CancelledIn(db, g)
  {
    PreparedRows(db, g, now, ds);
    DeleteAllRow(AfterDeliveries(db, g, now, ds), AudioArtifact, as_, Ref(AudioArtifact, 0));
    DeleteAllRow(AfterAudio(db, g, now, ds, as_), VoiceModel, ms, Ref(VoiceModel, 0));
  }

  lemma Execute(steps: seq<Step>, s: State, u: RunId, g: GrantId, now: int, ds: seq<nat>, as_: seq<nat>, ms: seq<nat>)
    returns (steps': seq<Step>)
    requires Replay(steps) == Some(s) && Enabled(s, Claim(u, g, now)) && RowsFree(s, g)
    requires Listed(s.db, g, ds, as_, ms)
    ensures g in AfterModels(s.db, g, now, ds, as_, ms).requests
    ensures Replay(steps') ==
            Some(s.(db := CompleteTx(AfterModels(s.db, g, now, ds, as_, ms), g, FullReport(s.db, g), now),
                    objects := s.objects - ScopeKeys(s.db, g)))
  {
    ScopeOnTheWay(s.db, g, now, ds, as_, ms);
    ObjectsOnTheWay(s.db, g, now, ds, as_, ms);
    var ready, silent := AfterDeliveries(s.db, g, now, ds), AfterAudio(s.db, g, now, ds, as_);
    var report := Report(|LiveTokens(s.db, g)|, |ds|, 0, 0);
    steps' := ThroughDeliveries(steps, s, u, g, now, ds);
    FreeRowsAreReady(s, u, g, ready, AudioArtifact, as_);
    steps' := ThroughArtifacts(steps', s, u, g, report, Cancelling([]), ready, s.objects, as_);
    FreeRowsAreReady(s, u, g, silent, VoiceModel, ms);
    var held := s.objects - KeysOf(ready, AudioArtifact, as_);
    steps' := ThroughArtifacts(
      steps', s, u, g, report.(audio := |as_|), Deleting(AudioArtifact, []), silent, held, ms);
    RequestsOnTheWay(s.db, g, now, ds, as_, ms);
    assert held - KeysOf(silent, VoiceModel, ms) == s.objects - ScopeKeys(s.db, g);
    steps' := ThroughFinish(steps', s, u, g, now, FullReport(s.db, g), AfterModels(s.db, g, now, ds, as_, ms),
                            s.objects - ScopeKeys(s.db, g));
  }

  lemma RequestsOnTheWay(db: Db, g: GrantId, now: int, ds: seq<nat>, as_: seq<nat>, ms: seq<nat>)
    ensures AfterModels(db, g, now, ds, as_, ms).requests == ClaimTx(db, g, now).requests
  {
    CancelAllScope(RevokeTokensTx(ClaimTx(db, g, now), g), ds, g);
    DeleteAllRow(AfterDeliveries(db, g, now, ds), AudioArtifact, as_, Ref(AudioArtifact, 0));
    DeleteAllRow(AfterAudio(db, g, now, ds, as_), VoiceModel, ms, Ref(VoiceModel, 0));
  }
}
