/** Concurrent appenders to the audit chains (remembrance-consent/app/consent/audit.py, `append_event`). An appender
    reads a head, which may be stale by the time it inserts; only the unique (profile, previous_hash) key protects
    the chain. The advisory lock is not needed for any of this. */
module AuditAppend {
  import opened Wrappers
  import opened Collections
  import opened Digests
  import opened AuditChain

  type TxId = nat

  // What the caller supplies.
  datatype Fields = Fields(eventType: string, actor: string, profile: Pid, grant: Option<string>, payload: string)

  // A transaction sees the committed rows and its own; `prepared` is an event built but not inserted yet.
  datatype Tx = Tx(rows: seq<Event>, prepared: Option<Material>)

  datatype State = State(committed: seq<Event>,  // in the order of their commits
                         open: map<TxId, Tx>, nextId: nat)

  const START := State([], map[], 1)

  datatype Step =
    | Begin(tx: TxId)
    | ReadHead(tx: TxId, fields: Fields, head: Option<Event>, clock: int)
    | Insert(tx: TxId)
    | Commit(tx: TxId)
    | Abort(tx: TxId)   // also: the insert violated the unique key

  /** The row with the greatest id of a profile. */
  predicate IsHead(rows: seq<Event>, p: Pid, head: Option<Event>) {
    match head
    case None => forall e :: e in rows ==> e.material.profile != p
    case Some(h) =>
      h in rows && h.material.profile == p && forall e :: e in rows && e.material.profile == p ==> e.id <= h.id
  }

  function Built(fields: Fields, head: Option<Event>, clock: int): Material {
    Material(fields.eventType, fields.actor, fields.profile, fields.grant, fields.payload,
             if head.Some? then head.value.hash else ZeroHash,
             if head.Some? && clock < head.value.material.createdAt then head.value.material.createdAt else clock)
  }

  predicate SameKey(e: Event, m: Material) {
    e.material.profile == m.profile && e.material.previous == m.previous
  }

  predicate KeyFree(s: State, m: Material) {
    && (forall e :: e in s.committed ==> !SameKey(e, m))
    && (forall t :: t in s.open ==> forall e :: e in s.open[t].rows ==> !SameKey(e, m))
  }

  predicate Enabled(s: State, step: Step) {
    match step
    case Begin(t) => t !in s.open
    case ReadHead(t, fields, head, _) =>
      t in s.open && s.open[t].prepared.None? && IsHead(s.committed + s.open[t].rows, fields.profile, head)
    case Insert(t) => t in s.open && s.open[t].prepared.Some? && KeyFree(s, s.open[t].prepared.value)
    case Commit(t) => t in s.open && s.open[t].prepared.None?
    case Abort(t) => t in s.open
  }

  function Do(hash: Hash, s: State, step: Step): State
    requires Enabled(s, step)
  {
    match step
    case Begin(t) => s.(open := s.open[t := Tx([], None)])
    case ReadHead(t, fields, head, clock) =>
      s.(open := s.open[t := s.open[t].(prepared := Some(Built(fields, head, clock)))])
    case Insert(t) =>
      var m := s.open[t].prepared.value;
      s.(open := s.open[t := Tx(s.open[t].rows + [Event(s.nextId, m, hash(m))], None)], nextId := s.nextId + 1)
    case Commit(t) => s.(committed := s.committed + s.open[t].rows, open := s.open - {t})
    case Abort(t) => s.(open := s.open - {t})
  }

  function Replay(hash: Hash, steps: seq<Step>): Option<State> {
    if steps == [] then Some(START)
    else
      var before := Replay(hash, steps[..|steps| - 1]);
      if before.Some? && Enabled(before.value, steps[|steps| - 1])
      then Some(Do(hash, before.value, steps[|steps| - 1])) else None
  }

  // ---- chains of whole logs ----

  function Of(events: seq<Event>, p: Pid): seq<Event> {
    Chain(events, |events|, p)
  }

  lemma {:induction false} ChainOfPrefix(a: seq<Event>, b: seq<Event>, n: nat, p: Pid)
    requires n <= |a|
    ensures Chain(a + b, n, p) == Chain(a, n, p)
  {
    if n > 0 { ChainOfPrefix(a, b, n - 1, p); }
  }

  lemma {:induction false} OfConcat(a: seq<Event>, b: seq<Event>, p: Pid)
    ensures Of(a + b, p) == Of(a, p) + Of(b, p)
  {
    if b == [] {
      assert a + b == a;
    } else {
      var n := |b| - 1;
      assert a + b == (a + b[..n]) + [b[n]] && b == b[..n] + [b[n]];
      ChainOfPrefix(a + b[..n], [b[n]], |a| + n, p);
      ChainOfPrefix(b[..n], [b[n]], n, p);
      OfConcat(a, b[..n], p);
    }
  }

  lemma {:induction false} OfMembers(events: seq<Event>, p: Pid)
    ensures forall e :: e in Of(events, p) <==> e in events && e.material.profile == p
  {
    if events != [] {
      var n := |events| - 1;
      assert events == events[..n] + [events[n]];
      ChainOfPrefix(events[..n], [events[n]], n, p);
      OfMembers(events[..n], p);
    }
  }

  predicate Ascending(c: seq<Event>) {
    forall i, j :: 0 <= i < j < |c| ==> c[i].id < c[j].id
  }

  // ---- the invariant ----

  ghost predicate Sound(hash: Hash, c: seq<Event>, nextId: nat) {
    ValidChain(hash, c) && Ascending(c) && forall e :: e in c ==> e.id < nextId
  }

  function HashAt(c: seq<Event>, k: nat): Digest
    requires k <= |c|
  {
    if k == 0 then ZeroHash else c[k - 1].hash
  }

  // Built from the head of c as it was when it had k events.
  predicate BuiltAt(c: seq<Event>, m: Material, k: nat) {
    && k <= |c| && m.previous == HashAt(c, k)
    && (k == |c| && k > 0 ==> c[k - 1].material.createdAt <= m.createdAt)
  }

  ghost predicate BuiltFrom(c: seq<Event>, m: Material) {
    exists k: nat :: BuiltAt(c, m, k)
  }

  function Seen(s: State, t: TxId, p: Pid): seq<Event>
    requires t in s.open
  {
    Of(s.committed, p) + Of(s.open[t].rows, p)
  }

  ghost predicate ViewSound(hash: Hash, seen: seq<Event>, prepared: Option<Material>, p: Pid, nextId: nat) {
    && Sound(hash, seen, nextId)
    && (prepared.Some? && prepared.value.profile == p ==> BuiltFrom(seen, prepared.value))
  }

  ghost predicate TxSound(hash: Hash, s: State, t: TxId, p: Pid)
    requires t in s.open
  {
    ViewSound(hash, Seen(s, t, p), s.open[t].prepared, p, s.nextId)
  }

  // Two transactions never both hold uncommitted rows of one profile.
  ghost predicate Alone(s: State, t: TxId, p: Pid)
    requires t in s.open
  {
    Of(s.open[t].rows, p) != [] ==> forall u :: u in s.open && u != t ==> Of(s.open[u].rows, p) == []
  }

  ghost predicate Inv(hash: Hash, s: State) {
    && (forall p: Pid :: Sound(hash, Of(s.committed, p), s.nextId))
    && (forall t, p: Pid :: t in s.open ==> TxSound(hash, s, t, p))
    && (forall t, p: Pid :: t in s.open ==> Alone(s, t, p))
  }

  // ---- one chain ----

  lemma HeadIsLast(rows: seq<Event>, p: Pid, head: Option<Event>)
    requires IsHead(rows, p, head) && Ascending(Of(rows, p))
    ensures head == if Of(rows, p) == [] then None else Some(Of(rows, p)[|Of(rows, p)| - 1])
  {
    OfMembers(rows, p);
    var c := Of(rows, p);
    if c != [] {
      assert c[|c| - 1] in c;
      assert head.Some?;
      var i :| 0 <= i < |c| && c[i] == head.value;
    }
  }

  // The unique key leaves only one place to insert: after the current last event.
  lemma FreeKeyIsTheTail(hash: Hash, c: seq<Event>, m: Material, nextId: nat)
    requires Sound(hash, c, nextId) && BuiltFrom(c, m) && (forall e :: e in c ==> e.material.previous != m.previous)
    ensures m.previous == Head(c) && Sound(hash, c + [Event(nextId, m, hash(m))], nextId + 1)
  {
    var k: nat :| BuiltAt(c, m, k);
    forall j | 0 <= j < |c| ensures HashAt(c, j) != m.previous {
      assert LinkOk(hash, c, j) && c[j] in c;
    }
    var e := Event(nextId, m, hash(m));
    ValidChainExtends(hash, c, e);
  }

  // ---- each step keeps the invariant ----

  lemma BeginKeepsInv(hash: Hash, s: State, step: Step)
    requires Inv(hash, s) && Enabled(s, step) && step.Begin?
    ensures Inv(hash, Do(hash, s, step))
  {
    var t := Do(hash, s, step);
    forall u, p: Pid | u in t.open ensures TxSound(hash, t, u, p) && Alone(t, u, p) {
      if u == step.tx {
        assert Seen(t, u, p) == Of(s.committed, p);
      } else {
        assert TxSound(hash, s, u, p) && Alone(s, u, p);
      }
    }
  }

  lemma ReadHeadKeepsInv(hash: Hash, s: State, step: Step)
    requires Inv(hash, s) && Enabled(s, step) && step.ReadHead?
    ensures Inv(hash, Do(hash, s, step))
  {
    var t := Do(hash, s, step);
    forall u, p: Pid | u in t.open ensures TxSound(hash, t, u, p) && Alone(t, u, p) {
      assert TxSound(hash, s, u, p) && Alone(s, u, p);
      assert Seen(t, u, p) == Seen(s, u, p);
      if u == step.tx && p == step.fields.profile {
        var c := Seen(s, u, p);
        OfConcat(s.committed, s.open[u].rows, p);
        HeadIsLast(s.committed + s.open[u].rows, p, step.head);
        assert BuiltAt(c, Built(step.fields, step.head, step.clock), |c|);
      }
    }
  }

  lemma InsertedRow(hash: Hash, s: State, t: TxId)
    requires Inv(hash, s) && Enabled(s, Insert(t))
    ensures var m := s.open[t].prepared.value;
            && m.previous == Head(Seen(s, t, m.profile))
            && Sound(hash, Seen(s, t, m.profile) + [Event(s.nextId, m, hash(m))], s.nextId + 1)
            && forall u :: u in s.open && u != t ==> Of(s.open[u].rows, m.profile) == []
  {
    var m := s.open[t].prepared.value;
    var p := m.profile;
    assert TxSound(hash, s, t, p) && Alone(s, t, p);
    OfMembers(s.committed, p);
    OfMembers(s.open[t].rows, p);
    FreeKeyIsTheTail(hash, Seen(s, t, p), m, s.nextId);
    forall u | u in s.open && u != t ensures Of(s.open[u].rows, p) == [] {
      if Of(s.open[u].rows, p) != [] {
        assert Alone(s, u, p);
        assert Seen(s, t, p) == Of(s.committed, p);
        OfMembers(s.open[u].rows, p);
        FirstOwnRow(hash, s, u, p);
        assert false;
      }
    }
  }

  // The first uncommitted row of a transaction follows the committed chain.
  lemma FirstOwnRow(hash: Hash, s: State, u: TxId, p: Pid)
    requires u in s.open && TxSound(hash, s, u, p) && Of(s.open[u].rows, p) != []
    ensures exists e ::
              e in s.open[u].rows && e.material.profile == p && e.material.previous == Head(Of(s.committed, p))
  {
    var c := Of(s.committed, p);
    var first := Of(s.open[u].rows, p)[0];
    OfMembers(s.open[u].rows, p);
    assert LinkOk(hash, Seen(s, u, p), |c|);
    assert first in Of(s.open[u].rows, p) && Seen(s, u, p)[|c|] == first;
  }

  function OwnInsert(tx: TxId, u: TxId, e: Event, p: Pid): seq<Event> {
    if u == tx && p == e.material.profile then [e] else []
  }

  lemma InsertSeen(hash: Hash, s: State, tx: TxId, u: TxId, p: Pid)
    requires Enabled(s, Insert(tx)) && u in s.open
    ensures var m, t := s.open[tx].prepared.value, Do(hash, s, Insert(tx));
            var e := Event(s.nextId, m, hash(m));
            && Of(t.open[u].rows, p) == Of(s.open[u].rows, p) + OwnInsert(tx, u, e, p)
            && Seen(t, u, p) == Seen(s, u, p) + OwnInsert(tx, u, e, p)
  {
    var m := s.open[tx].prepared.value;
    var e := Event(s.nextId, m, hash(m));
    OfConcat(s.open[tx].rows, [e], p);
    OfOne(e, p);
  }

  lemma SoundLater(hash: Hash, c: seq<Event>, nextId: nat)
    requires Sound(hash, c, nextId)
    ensures Sound(hash, c, nextId + 1)
  {
  }

  lemma InsertKeepsTx(hash: Hash, s: State, tx: TxId, u: TxId, p: Pid)
    requires Inv(hash, s) && Enabled(s, Insert(tx)) && u in s.open
    ensures TxSound(hash, Do(hash, s, Insert(tx)), u, p)
  {
    InsertedRow(hash, s, tx);
    InsertSeen(hash, s, tx, u, p);
    assert TxSound(hash, s, u, p);
    SoundLater(hash, Seen(s, u, p), s.nextId);
    if u != tx || p != s.open[tx].prepared.value.profile {
      assert Seen(Do(hash, s, Insert(tx)), u, p) == Seen(s, u, p);
    }
  }

  lemma InsertKeepsAlone(hash: Hash, s: State, tx: TxId, u: TxId, p: Pid)
    requires Inv(hash, s) && Enabled(s, Insert(tx)) && u in s.open
    ensures Alone(Do(hash, s, Insert(tx)), u, p)
  {
    InsertedRow(hash, s, tx);
    assert Alone(s, u, p);
    var t := Do(hash, s, Insert(tx));
    forall v | v in t.open && v != u && Of(t.open[u].rows, p) != [] ensures Of(t.open[v].rows, p) == [] {
      InsertSeen(hash, s, tx, u, p);
      InsertSeen(hash, s, tx, v, p);
    }
  }

  lemma InsertKeepsInv(hash: Hash, s: State, step: Step)
    requires Inv(hash, s) && Enabled(s, step) && step.Insert?
    ensures Inv(hash, Do(hash, s, step))
  {
    var t := Do(hash, s, step);
    forall u, p: Pid | u in t.open ensures TxSound(hash, t, u, p) && Alone(t, u, p) {
      InsertKeepsTx(hash, s, step.tx, u, p);
      InsertKeepsAlone(hash, s, step.tx, u, p);
    }
    forall p: Pid ensures Sound(hash, Of(t.committed, p), t.nextId) {
      SoundLater(hash, Of(s.committed, p), s.nextId);
    }
  }

  lemma OfOne(e: Event, p: Pid)
    ensures Of([e], p) == if e.material.profile == p then [e] else []
  {
    assert Chain([e], 0, p) == [];
  }

  lemma CommitKeepsInv(hash: Hash, s: State, step: Step)
    requires Inv(hash, s) && Enabled(s, step) && step.Commit?
    ensures Inv(hash, Do(hash, s, step))
  {
    var t := Do(hash, s, step);
    forall p: Pid ensures Sound(hash, Of(t.committed, p), t.nextId) {
      assert TxSound(hash, s, step.tx, p);
      OfConcat(s.committed, s.open[step.tx].rows, p);
    }
    forall u, p: Pid | u in t.open ensures TxSound(hash, t, u, p) && Alone(t, u, p) {
      OtherSeesCommit(hash, s, step.tx, u, p);
    }
  }

  lemma CommitSeen(hash: Hash, s: State, c: TxId, u: TxId, p: Pid)
    requires Enabled(s, Commit(c)) && u in s.open && u != c
    ensures var t := Do(hash, s, Commit(c));
            && t.open[u] == s.open[u] && Of(t.committed, p) == Seen(s, c, p)
            && Seen(t, u, p) == Seen(s, c, p) + Of(s.open[u].rows, p)
  {
    OfConcat(s.committed, s.open[c].rows, p);
  }

  // A commit leaves a profile alone or extends what another transaction without rows of it sees.
  lemma OtherSeesCommit(hash: Hash, s: State, c: TxId, u: TxId, p: Pid)
    requires Inv(hash, s) && Enabled(s, Commit(c)) && u in s.open && u != c
    ensures TxSound(hash, Do(hash, s, Commit(c)), u, p) && Alone(Do(hash, s, Commit(c)), u, p)
  {
    assert TxSound(hash, s, u, p) && TxSound(hash, s, c, p) && Alone(s, c, p) && Alone(s, u, p);
    AloneAfterCommit(hash, s, c, u, p);
    SeesCommit(hash, s, c, u, p);
  }

  lemma SeesCommit(hash: Hash, s: State, c: TxId, u: TxId, p: Pid)
    requires Enabled(s, Commit(c)) && u in s.open && u != c
    requires TxSound(hash, s, u, p) && TxSound(hash, s, c, p) && Alone(s, c, p)
    ensures TxSound(hash, Do(hash, s, Commit(c)), u, p)
  {
    CommitSeen(hash, s, c, u, p);
    var own := Of(s.open[c].rows, p);
    if own == [] {
      assert Seen(s, c, p) + Of(s.open[u].rows, p) == Seen(s, u, p);
    } else {
      NothingOwn(s, c, u, p);
      ViewExtends(hash, Seen(s, u, p), own, s.open[u].prepared, p, s.nextId);
    }
  }

  lemma AloneAfterCommit(hash: Hash, s: State, c: TxId, u: TxId, p: Pid)
    requires Enabled(s, Commit(c)) && u in s.open && u != c && Alone(s, u, p)
    ensures Alone(Do(hash, s, Commit(c)), u, p)
  {
  }

  lemma ViewExtends(hash: Hash, c: seq<Event>, more: seq<Event>, prepared: Option<Material>, p: Pid, nextId: nat)
    requires ViewSound(hash, c, prepared, p, nextId) && Sound(hash, c + more, nextId) && more != []
    ensures ViewSound(hash, c + more, prepared, p, nextId)
  {
    if prepared.Some? && prepared.value.profile == p { StillBuiltFrom(c, more, prepared.value); }
  }

  lemma NothingOwn(s: State, c: TxId, u: TxId, p: Pid)
    requires c in s.open && u in s.open && Of(s.open[u].rows, p) == []
    ensures Seen(s, c, p) + Of(s.open[u].rows, p) == Seen(s, c, p) == Seen(s, u, p) + Of(s.open[c].rows, p)
  {
  }

  lemma StillBuiltFrom(c: seq<Event>, more: seq<Event>, m: Material)
    requires BuiltFrom(c, m) && more != []
    ensures BuiltFrom(c + more, m)
  {
    var k: nat :| BuiltAt(c, m, k);
    assert HashAt(c + more, k) == HashAt(c, k);
    assert BuiltAt(c + more, m, k);
  }

  lemma AbortKeepsInv(hash: Hash, s: State, step: Step)
    requires Inv(hash, s) && Enabled(s, step) && step.Abort?
    ensures Inv(hash, Do(hash, s, step))
  {
    var t := Do(hash, s, step);
    forall u, p: Pid | u in t.open ensures TxSound(hash, t, u, p) && Alone(t, u, p) {
      assert TxSound(hash, s, u, p) && Alone(s, u, p);
    }
  }

  lemma {:induction false} RunKeepsInv(hash: Hash, steps: seq<Step>)
    requires Replay(hash, steps).Some?
    ensures Inv(hash, Replay(hash, steps).value)
  {
    if steps == [] {
      assert forall p: Pid :: Of(START.committed, p) == [];
    } else {
      var before, step := steps[..|steps| - 1], steps[|steps| - 1];
      RunKeepsInv(hash, before);
      var s := Replay(hash, before).value;
      match step
      case Begin(_) => BeginKeepsInv(hash, s, step);
      case ReadHead(_, _, _, _) => ReadHeadKeepsInv(hash, s, step);
      case Insert(_) => InsertKeepsInv(hash, s, step);
      case Commit(_) => CommitKeepsInv(hash, s, step);
      case Abort(_) => AbortKeepsInv(hash, s, step);
    }
  }

  // ---- main results ----

  /** A listing of the table in id order, as the verifier reads it. */
  ghost predicate InIdOrder(listing: seq<Event>, rows: seq<Event>) {
    Ascending(listing) && forall e :: e in listing <==> e in rows
  }

  lemma {:induction false} AscendingOf(events: seq<Event>, p: Pid)
    requires Ascending(events)
    ensures Ascending(Of(events, p))
  {
    if events != [] {
      var n := |events| - 1;
      assert events == events[..n] + [events[n]];
      ChainOfPrefix(events[..n], [events[n]], n, p);
      AscendingOf(events[..n], p);
      OfMembers(events[..n], p);
    }
  }

  lemma {:induction false} SameMembersSameOrder(a: seq<Event>, b: seq<Event>)
    requires Ascending(a) && Ascending(b) && forall e :: e in a <==> e in b
    ensures a == b
  {
    if a == [] {
      EmptyOrNot(b);
    } else {
      var n := |a| - 1;
      assert a[n] in a && a[n] in b;
      var m := |b| - 1;
      assert b[m] in b && b[m] in a;
      assert a[n] == b[m];
      forall e | e in a[..n] ensures e in b[..m] { assert e in b; }
      forall e | e in b[..m] ensures e in a[..n] { assert e in a; }
      SameMembersSameOrder(a[..n], b[..m]);
    }
  }

  /** Whatever the interleaving of the appenders, the stale heads and the clocks: the committed events of each profile
      form one unforked path from genesis with non-decreasing times, and the table passes verification. */
  lemma AppendersCannotFork(hash: Hash, steps: seq<Step>, listing: seq<Event>)
    requires Replay(hash, steps).Some? && InIdOrder(listing, Replay(hash, steps).value.committed)
    ensures forall p: Pid ::
              Of(listing, p) == Of(Replay(hash, steps).value.committed, p) && ValidChain(hash, Of(listing, p))
    ensures Errors(hash, Anchors(map[], []), listing) == []
  {
    RunKeepsInv(hash, steps);
    var s := Replay(hash, steps).value;
    forall p: Pid
      ensures Of(listing, p) == Of(s.committed, p) && ValidChain(hash, Of(listing, p))
      ensures ProfileOk(hash, Anchors(map[], []), listing, p)
    {
      AscendingOf(listing, p);
      OfMembers(listing, p);
      OfMembers(s.committed, p);
      assert Sound(hash, Of(s.committed, p), s.nextId);
      SameMembersSameOrder(Of(listing, p), Of(s.committed, p));
    }
    AcceptedExactlyWhen(hash, Anchors(map[], []), listing);
  }

  lemma {:induction false} CommittedOnlyGrows(hash: Hash, steps: seq<Step>, n: nat)
    requires Replay(hash, steps).Some? && n <= |steps|
    ensures Replay(hash, steps[..n]).Some?
    ensures Replay(hash, steps[..n]).value.committed <= Replay(hash, steps).value.committed
  {
    if n == |steps| {
      assert steps[..n] == steps;
    } else {
      assert steps[..|steps| - 1][..n] == steps[..n];
      CommittedOnlyGrows(hash, steps[..|steps| - 1], n);
    }
  }

  lemma ProjectionGrows(a: seq<Event>, b: seq<Event>, p: Pid)
    requires a <= b
    ensures Of(a, p) <= Of(b, p)
  {
    assert b == a + b[|a|..];
    OfConcat(a, b[|a|..], p);
  }

  // Listings of the table at two moments of a run.
  lemma ListingsGrow(hash: Hash, steps: seq<Step>, n: nat, earlier: seq<Event>, later: seq<Event>)
    requires Replay(hash, steps).Some? && n <= |steps| && Replay(hash, steps[..n]).Some?
    requires InIdOrder(earlier, Replay(hash, steps[..n]).value.committed)
    requires InIdOrder(later, Replay(hash, steps).value.committed)
    ensures Extends(earlier, later)
  {
    CommittedOnlyGrows(hash, steps, n);
    AppendersCannotFork(hash, steps[..n], earlier);
    AppendersCannotFork(hash, steps, later);
    forall p: Pid ensures Chain(earlier, |earlier|, p) <= Chain(later, |later|, p) {
      ProjectionGrows(Replay(hash, steps[..n]).value.committed, Replay(hash, steps).value.committed, p);
      assert Of(earlier, p) <= Of(later, p);
    }
  }

  /** The anchors that a verification hands out at any moment of a run are honoured at every later moment. */
  lemma AnchorsOfARunStayAccepted(
      hash: Hash, steps: seq<Step>, n: nat, earlier: seq<Event>, later: seq<Event>, anchors: Anchors)
    requires Replay(hash, steps).Some? && n <= |steps| && Replay(hash, steps[..n]).Some?
    requires InIdOrder(earlier, Replay(hash, steps[..n]).value.committed)
    requires InIdOrder(later, Replay(hash, steps).value.committed)
    requires anchors.Valid() && OwnAnchors(anchors, earlier)
    ensures Errors(hash, anchors, later) == []
  {
    AppendersCannotFork(hash, steps, later);
    ListingsGrow(hash, steps, n, earlier, later);
    OwnAnchorsStayAccepted(hash, anchors, earlier, later);
  }
}
