/** The reviewed-sharing history of each memorial and its verification (remembrance/consent.py). */
module ConsentHistory {
  import opened Wrappers
  import opened Digests

  type Mid = string
  type Gid = string

  // The event kinds this module writes, with the payload fields that matter; erasure and succession write others.
  datatype What =
    | GrantRecorded(audience: string, activation: string)
    | GrantVerified
    | GrantRevoked
    | DeathConfirmed
    | DeathCleared
    | Authorized
    | Denied(reason: string)
    | Other(kind: string)

  datatype Body = Body(mid: Mid, sequence: int, what: What, actor: string, grant: Option<Gid>, createdAt: int,
      previous: Digest)

  datatype Event = Event(body: Body, hash: Digest)

  type Hash = Body -> Digest

  datatype Head = Head(sequence: int, hash: Digest)

  datatype HistoryError =
    | InvalidHead(mid: Mid)
    | FailedVerification(mid: Mid, sequence: int)
    | DiffersFromCheckpoint(mid: Mid)
    | MissingEvents

  // ---- one memorial's history ----

  function Of(rows: seq<Event>, n: nat, mid: Mid): seq<Event>
    requires n <= |rows|
  {
    if n == 0 then [] else Of(rows, n - 1, mid) + if rows[n - 1].body.mid == mid then [rows[n - 1]] else []
  }

  function LastHash(c: seq<Event>): Digest {
    if c == [] then ZeroHash else c[|c| - 1].hash
  }

  predicate Follows(hash: Hash, c: seq<Event>, e: Event) {
    e.body.sequence == |c| + 1 && e.body.previous == LastHash(c) && e.hash == hash(e.body)
  }

  predicate LinkOk(hash: Hash, c: seq<Event>, k: nat)
    requires k < |c|
  {
    && c[k].body.sequence == k + 1
    && c[k].body.previous == (if k == 0 then ZeroHash else c[k - 1].hash)
    && c[k].hash == hash(c[k].body)
  }

  ghost predicate ValidHistory(hash: Hash, c: seq<Event>) {
    forall k :: 0 <= k < |c| ==> LinkOk(hash, c, k)
  }

  predicate Reached(c: seq<Event>, head: Head) {
    1 <= head.sequence <= |c|
  }

  predicate MatchesWhenReached(c: seq<Event>, head: Head) {
    Reached(c, head) ==> c[head.sequence - 1].hash == head.hash
  }

  lemma ValidExtends(hash: Hash, c: seq<Event>, e: Event)
    ensures ValidHistory(hash, c + [e]) <==> ValidHistory(hash, c) && Follows(hash, c, e)
  {
    var d := c + [e];
    assert LinkOk(hash, d, |c|) <==> Follows(hash, c, e);
    forall k | 0 <= k < |c| ensures LinkOk(hash, d, k) <==> LinkOk(hash, c, k) {
      assert d[k] == c[k];
    }
    if ValidHistory(hash, d) {
      forall k | 0 <= k < |c| ensures LinkOk(hash, c, k) { assert LinkOk(hash, d, k); }
    }
  }

  lemma PrefixOfValid(hash: Hash, c: seq<Event>, d: seq<Event>)
    requires c <= d && ValidHistory(hash, d)
    ensures ValidHistory(hash, c)
  {
    forall k | 0 <= k < |c| ensures LinkOk(hash, c, k) {
      assert LinkOk(hash, d, k) && d[k] == c[k];
    }
  }

  lemma {:induction false} OfGrows(rows: seq<Event>, m: nat, n: nat, mid: Mid)
    requires m <= n <= |rows|
    ensures Of(rows, m, mid) <= Of(rows, n, mid)
  {
    if m < n { OfGrows(rows, m, n - 1, mid); }
  }

  // ---- the whole history against a checkpoint ----

  ghost predicate HistoryOk(hash: Hash, expected: map<Mid, Head>, rows: seq<Event>, mid: Mid) {
    var c := Of(rows, |rows|, mid);
    ValidHistory(hash, c)
    && (mid in expected ==> Reached(c, expected[mid]) && c[expected[mid].sequence - 1].hash == expected[mid].hash)
  }

  // What the loop knows of one memorial after n rows.
  ghost predicate SoFar(
      hash: Hash, expected: map<Mid, Head>, c: seq<Event>, heads: map<Mid, Head>, matched: set<Mid>, mid: Mid) {
    && ValidHistory(hash, c)
    && (mid in heads <==> c != [])
    && (c != [] ==> heads[mid] == Head(|c|, LastHash(c)))
    && (mid in matched <==> mid in expected && Reached(c, expected[mid]))
    && (mid in expected ==> MatchesWhenReached(c, expected[mid]))
  }

  method CheckRow(
      hash: Hash, expected: map<Mid, Head>, heads: map<Mid, Head>, matched: set<Mid>, row: Event, ghost c: seq<Event>)
    returns (error: Option<HistoryError>, heads': map<Mid, Head>, matched': set<Mid>)
    requires SoFar(hash, expected, c, heads, matched, row.body.mid)
    ensures error.None? <==> ValidHistory(hash, c + [row])
                             && (row.body.mid in expected ==> MatchesWhenReached(c + [row], expected[row.body.mid]))
    ensures error.Some? ==>
              error.value == if !ValidHistory(hash, c + [row]) then FailedVerification(row.body.mid, row.body.sequence)
                                           else DiffersFromCheckpoint(row.body.mid)
    ensures error.None? ==> SoFar(hash, expected, c + [row], heads', matched', row.body.mid)
    ensures heads' - {row.body.mid} == heads - {row.body.mid} && matched' - {row.body.mid} == matched - {row.body.mid}
  {
    heads', matched' := heads, matched;
    var mid := row.body.mid;
    var previous := if mid in heads then heads[mid] else Head(0, ZeroHash);
    ValidExtends(hash, c, row);
    if row.body.sequence != previous.sequence + 1 || row.body.previous != previous.hash || row.hash != hash(row.body) {
      error := Some(FailedVerification(mid, row.body.sequence));
      return;
    }
    heads' := heads[mid := Head(row.body.sequence, row.hash)];
    if mid in expected && row.body.sequence == expected[mid].sequence {
      if row.hash != expected[mid].hash {
        error := Some(DiffersFromCheckpoint(mid));
        return;
      }
      matched' := matched + {mid};
    }
    error := None;
  }

  /** What each error says of the history. */
  ghost predicate Refuses(hash: Hash, expected: map<Mid, Head>, rows: seq<Event>, error: HistoryError) {
    match error
    case InvalidHead(mid) => mid in expected && expected[mid].sequence < 1
    case FailedVerification(mid, sequence) =>
      !ValidHistory(hash, Of(rows, |rows|, mid)) && exists n ::
        0 <= n < |rows| && rows[n].body.mid == mid && rows[n].body.sequence == sequence
    case DiffersFromCheckpoint(mid) => mid in expected && !MatchesWhenReached(Of(rows, |rows|, mid), expected[mid])
    case MissingEvents =>
      && (forall mid: Mid :: ValidHistory(hash, Of(rows, |rows|, mid)))
      && (exists mid :: mid in expected && !Reached(Of(rows, |rows|, mid), expected[mid]))
  }

  method VerifyHistory(hash: Hash, rows: seq<Event>, checkpoint: Option<map<Mid, Head>>)
    returns (r: Result<map<Mid, Head>, HistoryError>)
    ensures var expected := if checkpoint.Some? then checkpoint.value else map[];
            r.Ok? <==> (forall mid :: mid in expected ==> expected[mid].sequence >= 1)
                       && (forall mid: Mid :: HistoryOk(hash, expected, rows, mid))
    ensures r.Err? ==> Refuses(hash, if checkpoint.Some? then checkpoint.value else map[], rows, r.error)
    ensures r.Ok? ==> forall mid: Mid ::
              if mid in r.value then Of(rows, |rows|, mid) != []
                                     && r.value[mid] == Head(|Of(rows, |rows|, mid)|, LastHash(Of(rows, |rows|, mid)))
              else Of(rows, |rows|, mid) == []
  {
    var expected := if checkpoint.Some? then checkpoint.value else map[];
    if bad :| bad in expected && expected[bad].sequence < 1 {
      return Err(InvalidHead(bad));
    }
    var heads: map<Mid, Head>, matched: set<Mid> := map[], {};
    for n := 0 to |rows|
      invariant AllSoFar(hash, expected, rows, n, heads, matched)
    {
      assert SoFar(hash, expected, Of(rows, n, rows[n].body.mid), heads, matched, rows[n].body.mid);
      var error, newHeads, newMatched := CheckRow(hash, expected, heads, matched, rows[n],
                                                  Of(rows, n, rows[n].body.mid));
      if error.Some? {
        RefusedForGood(hash, expected, rows, n);
        return Err(error.value);
      }
      OthersUnchanged(hash, expected, rows, n, heads, matched, newHeads, newMatched);
      heads, matched := newHeads, newMatched;
    }
    AcceptedWhenMatched(hash, expected, rows, heads, matched);
    if expected.Keys != matched {
      return Err(MissingEvents);
    }
    return Ok(heads);
  }

  ghost predicate AllSoFar(
      hash: Hash, expected: map<Mid, Head>, rows: seq<Event>, n: nat, heads: map<Mid, Head>, matched: set<Mid>)
    requires n <= |rows|
  {
    forall mid: Mid :: SoFar(hash, expected, Of(rows, n, mid), heads, matched, mid)
  }

  lemma AcceptedWhenMatched(
      hash: Hash, expected: map<Mid, Head>, rows: seq<Event>, heads: map<Mid, Head>, matched: set<Mid>)
    requires AllSoFar(hash, expected, rows, |rows|, heads, matched)
    requires forall mid :: mid in expected ==> expected[mid].sequence >= 1
    ensures expected.Keys == matched <==> forall mid: Mid :: HistoryOk(hash, expected, rows, mid)
    ensures expected.Keys != matched ==> Refuses(hash, expected, rows, MissingEvents)
    ensures forall mid: Mid ::
              if mid in heads then Of(rows, |rows|, mid) != []
                                   && heads[mid] == Head(|Of(rows, |rows|, mid)|, LastHash(Of(rows, |rows|, mid)))
              else Of(rows, |rows|, mid) == []
  {
    forall mid: Mid
      ensures mid in matched ==> mid in expected
      ensures HistoryOk(hash, expected, rows, mid) <==> mid !in expected || mid in matched
    {
      assert SoFar(hash, expected, Of(rows, |rows|, mid), heads, matched, mid);
    }
    forall mid: Mid
      ensures if mid in heads then Of(rows, |rows|, mid) != []
                                   && heads[mid] == Head(|Of(rows, |rows|, mid)|, LastHash(Of(rows, |rows|, mid)))
              else Of(rows, |rows|, mid) == []
    {
      assert SoFar(hash, expected, Of(rows, |rows|, mid), heads, matched, mid);
    }
  }

  // A row that is refused makes the whole history unacceptable.
  lemma RefusedForGood(hash: Hash, expected: map<Mid, Head>, rows: seq<Event>, n: nat)
    requires n < |rows|
    requires var mid := rows[n].body.mid;
             var c := Of(rows, n + 1, mid);
             !ValidHistory(hash, c) || (mid in expected && !MatchesWhenReached(c, expected[mid]))
    ensures !HistoryOk(hash, expected, rows, rows[n].body.mid)
    ensures var mid := rows[n].body.mid;
            if !ValidHistory(hash, Of(rows, n + 1, mid)) then !ValidHistory(hash, Of(rows, |rows|, mid))
            else mid in expected && !MatchesWhenReached(Of(rows, |rows|, mid), expected[mid])
  {
    var mid := rows[n].body.mid;
    OfGrows(rows, n + 1, |rows|, mid);
    if ValidHistory(hash, Of(rows, |rows|, mid)) {
      PrefixOfValid(hash, Of(rows, n + 1, mid), Of(rows, |rows|, mid));
    }
  }

  lemma OthersUnchanged(
      hash: Hash, expected: map<Mid, Head>, rows: seq<Event>, n: nat, heads: map<Mid, Head>, matched: set<Mid>,
                        heads': map<Mid, Head>, matched': set<Mid>)
    requires n < |rows|
    requires AllSoFar(hash, expected, rows, n, heads, matched)
    requires SoFar(hash, expected, Of(rows, n + 1, rows[n].body.mid), heads', matched', rows[n].body.mid)
    requires heads' - {rows[n].body.mid} == heads - {rows[n].body.mid}
    requires matched' - {rows[n].body.mid} == matched - {rows[n].body.mid}
    ensures AllSoFar(hash, expected, rows, n + 1, heads', matched')
  {
    var m := n + 1;
    forall mid: Mid ensures SoFar(hash, expected, Of(rows, m, mid), heads', matched', mid) {
      if mid != rows[n].body.mid {
        assert Of(rows, n + 1, mid) == Of(rows, n, mid);
        assert SoFar(hash, expected, Of(rows, n, mid), heads, matched, mid);
        assert mid in heads' - {rows[n].body.mid} <==> mid in heads - {rows[n].body.mid};
        assert mid in heads ==> (heads' - {rows[n].body.mid})[mid] == (heads - {rows[n].body.mid})[mid];
        assert mid in matched' - {rows[n].body.mid} <==> mid in matched - {rows[n].body.mid};
      }
    }
  }

  // ---- what a checkpoint pins down ----

  function Bodies(c: seq<Event>): seq<Body> {
    seq(|c|, k requires 0 <= k < |c| => c[k].body)
  }

  function PreviousOf(b: Body): Digest {
    b.previous
  }

  lemma ValidIsChained(hash: Hash, c: seq<Event>)
    requires ValidHistory(hash, c)
    ensures Chained(hash, PreviousOf, Bodies(c)) && forall k :: 0 <= k < |c| ==> c[k].hash == hash(Bodies(c)[k])
  {
    forall k | 0 <= k < |c| ensures c[k].hash == hash(Bodies(c)[k]) { assert LinkOk(hash, c, k); }
    forall k | 0 < k < |c| ensures PreviousOf(Bodies(c)[k]) == hash(Bodies(c)[k - 1]) {
      assert LinkOk(hash, c, k) && LinkOk(hash, c, k - 1);
    }
  }

  lemma SameHeadSamePast(hash: Hash, c: seq<Event>, d: seq<Event>, n: nat)
    requires Injective(hash) && ValidHistory(hash, c) && ValidHistory(hash, d)
    requires 1 <= n <= |c| && n <= |d| && c[n - 1].hash == d[n - 1].hash
    ensures c[..n] == d[..n]
  {
    ValidIsChained(hash, c);
    ValidIsChained(hash, d);
    SameDigestSamePast(hash, PreviousOf, Bodies(c), Bodies(d), n);
    forall k | 0 <= k < n ensures c[k] == d[k] { assert Bodies(c)[..n][k] == Bodies(d)[..n][k]; }
  }

  /** Two histories accepted against the same checkpoint hold the same events up to each checkpointed one. */
  lemma CheckpointFixesHistory(hash: Hash, expected: map<Mid, Head>, a: seq<Event>, b: seq<Event>, mid: Mid)
    requires Injective(hash)
    requires mid in expected && HistoryOk(hash, expected, a, mid) && HistoryOk(hash, expected, b, mid)
    ensures var n := expected[mid].sequence;
            && n <= |Of(a, |a|, mid)| && n <= |Of(b, |b|, mid)|
            && Of(a, |a|, mid)[..n] == Of(b, |b|, mid)[..n]
  {
    SameHeadSamePast(hash, Of(a, |a|, mid), Of(b, |b|, mid), expected[mid].sequence);
  }

  /** The heads an accepted history returns are a checkpoint that every accepted continuation of it satisfies. */
  lemma OwnCheckpointStaysAccepted(hash: Hash, heads: map<Mid, Head>, rows: seq<Event>, later: seq<Event>, mid: Mid)
    requires mid in heads ==> Of(rows, |rows|, mid) != []
                              && heads[mid] == Head(|Of(rows, |rows|, mid)|, LastHash(Of(rows, |rows|, mid)))
    requires HistoryOk(hash, map[], later, mid) && Of(rows, |rows|, mid) <= Of(later, |later|, mid)
    ensures HistoryOk(hash, heads, later, mid)
  {
  }
}
