/** From every reachable state an appender that meets no uncommitted rows of its profile can commit, and its event
    extends the profile's chain (remembrance-consent/app/consent/audit.py, `append_event`). */
module AuditProgress {
  import opened Wrappers
  import opened Digests
  import opened AuditChain
  import opened AuditAppend

  // Hashes are distinct and never the zeros that stand before a chain.
  ghost predicate Ideal(hash: Hash) {
    Injective(hash) && forall m :: hash(m) != ZeroHash
  }

  lemma {:induction false} HashesDiffer(hash: Hash, c: seq<Event>, j: nat, n: nat)
    requires Ideal(hash) && ValidChain(hash, c) && j < n <= |c|
    ensures HashAt(c, j) != HashAt(c, n)
  {
    assert LinkOk(hash, c, n - 1);
    if j > 0 {
      assert LinkOk(hash, c, j - 1);
      HashesDiffer(hash, c, j - 1, n - 1);
    }
  }

  // No event names the last one of its own valid chain as its predecessor.
  lemma TailIsFree(hash: Hash, c: seq<Event>)
    requires Ideal(hash) && ValidChain(hash, c)
    ensures forall e :: e in c ==> e.material.previous != Head(c)
  {
    forall e | e in c
      ensures e.material.previous != Head(c)
    {
      var j :| 0 <= j < |c| && c[j] == e;
      assert LinkOk(hash, c, j) && HashAt(c, j) == e.material.previous;
      HashesDiffer(hash, c, j, |c|);
    }
  }

  function LastOf(c: seq<Event>): Option<Event> {
    if c == [] then None else Some(c[|c| - 1])
  }

  lemma LastIsHead(hash: Hash, s: State, p: Pid)
    requires Inv(hash, s)
    ensures IsHead(s.committed, p, LastOf(Of(s.committed, p)))
  {
    var c := Of(s.committed, p);
    OfMembers(s.committed, p);
    assert Sound(hash, c, s.nextId);
    forall e | e in s.committed && e.material.profile == p
      ensures c != [] && e.id <= c[|c| - 1].id
    {
      assert e in c;
      var i :| 0 <= i < |c| && c[i] == e;
    }
    if c != [] { assert c[|c| - 1] in c; }
  }

  // No open transaction has rows of the profile.
  ghost predicate Quiet(s: State, p: Pid) {
    forall u, e :: u in s.open && e in s.open[u].rows ==> e.material.profile != p
  }

  lemma KeyIsFree(hash: Hash, s: State, m: Material)
    requires Ideal(hash) && Inv(hash, s) && Quiet(s, m.profile) && m.previous == Head(Of(s.committed, m.profile))
    ensures KeyFree(s, m)
  {
    var c := Of(s.committed, m.profile);
    assert Sound(hash, c, s.nextId);
    TailIsFree(hash, c);
    OfMembers(s.committed, m.profile);
  }

  lemma NextStep(hash: Hash, steps: seq<Step>, s: State, step: Step, next: State) returns (steps': seq<Step>)
    requires Replay(hash, steps) == Some(s) && Enabled(s, step) && Do(hash, s, step) == next
    ensures steps' == steps + [step] && Replay(hash, steps') == Some(next)
  {
    steps' := steps + [step];
    assert steps'[..|steps'| - 1] == steps;
  }

  // The event an appender that sees everything adds: on the last one, with its clock or the last one's time.
  function NextEvent(hash: Hash, s: State, fields: Fields, clock: int): Event {
    var m := Built(fields, LastOf(Of(s.committed, fields.profile)), clock);
    Event(s.nextId, m, hash(m))
  }

  /** Whatever happened before and is under way: unless another transaction holds uncommitted rows of the profile, an
      append can be taken to its commit, and the profile's chain is longer by its event. */
  lemma FreeAppendFinishes(hash: Hash, steps: seq<Step>, s: State, t: TxId, fields: Fields, clock: int)
    returns (steps': seq<Step>)
    requires Ideal(hash) && Replay(hash, steps) == Some(s) && t !in s.open && Quiet(s, fields.profile)
    ensures var e := NextEvent(hash, s, fields, clock);
            && Replay(hash, steps') == Some(State(s.committed + [e], s.open, s.nextId + 1))
            && Of(s.committed + [e], fields.profile) == Of(s.committed, fields.profile) + [e]
            && e.material.previous == Head(Of(s.committed, fields.profile)) && e.material.createdAt >= clock
  {
    var p, head := fields.profile, LastOf(Of(s.committed, fields.profile));
    var m, e := Built(fields, head, clock), NextEvent(hash, s, fields, clock);
    RunKeepsInv(hash, steps);
    LastIsHead(hash, s, p);
    KeyIsFree(hash, s, m);
    steps' := Attempt(hash, steps, s, t, fields, head, clock);
    OfConcat(s.committed, [e], p);
    assert Chain([e], 0, p) == [] && e.material.profile == p;
    assert Of([e], p) == [e];
  }

  lemma Attempt(hash: Hash, steps: seq<Step>, s: State, t: TxId, fields: Fields, head: Option<Event>, clock: int)
    returns (steps': seq<Step>)
    requires Replay(hash, steps) == Some(s) && t !in s.open
    requires IsHead(s.committed, fields.profile, head) && KeyFree(s, Built(fields, head, clock))
    ensures var m := Built(fields, head, clock);
            Replay(hash, steps') == Some(State(s.committed + [Event(s.nextId, m, hash(m))], s.open, s.nextId + 1))
  {
    var m := Built(fields, head, clock);
    var e := Event(s.nextId, m, hash(m));
    var begun := s.(open := s.open[t := Tx([], None)]);
    var built := s.(open := s.open[t := Tx([], Some(m))]);
    var added := State(s.committed, s.open[t := Tx([e], None)], s.nextId + 1);
    assert s.committed + [] == s.committed;
    steps' := NextStep(hash, steps, s, Begin(t), begun);
    assert s.open[t := Tx([], None)][t := Tx([], Some(m))] == s.open[t := Tx([], Some(m))];
    steps' := NextStep(hash, steps', begun, ReadHead(t, fields, head, clock), built);
    assert [] + [e] == [e] && s.open[t := Tx([], Some(m))][t := Tx([e], None)] == s.open[t := Tx([e], None)];
    steps' := NextStep(hash, steps', built, Insert(t), added);
    assert s.open[t := Tx([e], None)] - {t} == s.open;
    steps' := NextStep(hash, steps', added, Commit(t), State(s.committed + [e], s.open, s.nextId + 1));
  }
}
