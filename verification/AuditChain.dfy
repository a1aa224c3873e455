/** Verification of the audit hash chains (remembrance-consent/app/consent/audit.py). */
module AuditChain {
  import opened Wrappers
  import opened Digests

  type Pid = string

  // The columns an event's hash commits to.
  datatype Material = Material(eventType: string, actor: string, profile: Pid, grant: Option<string>, payload: string,
                               previous: Digest, createdAt: int)

  datatype Event = Event(id: nat, material: Material, hash: Digest)

  // SHA-256 of the canonical encoding. Only its injectivity is ever used, and only where a lemma asks for it.
  type Hash = Material -> Digest

  datatype Anchor = Anchor(length: int, head: Digest)

  datatype Kind = BadGenesis | BrokenLink | HashMismatch | TimestampRegression | AnchorMismatch | AnchorMissing

  datatype ChainError = ChainError(profile: Pid, eventId: Option<nat>, kind: Kind)

  datatype Summary = Summary(length: nat, head: Digest, headId: Option<nat>, last: Option<int>)

  datatype Report = Report(chains: map<Pid, Summary>, errors: seq<ChainError>)

  // ---- one profile's chain ----

  /** The events of one profile among the first n of a log, in order. */
  function Chain(events: seq<Event>, n: nat, p: Pid): seq<Event>
    requires n <= |events|
  {
    if n == 0 then []
    else Chain(events, n - 1, p) + if events[n - 1].material.profile == p then [events[n - 1]] else []
  }

  function Head(c: seq<Event>): Digest {
    if c == [] then ZeroHash else c[|c| - 1].hash
  }

  /** Event k of a chain names its predecessor (I1, I2), hashes to its own hash (I3) and is not older than it (I4). */
  predicate LinkOk(hash: Hash, c: seq<Event>, k: nat)
    requires k < |c|
  {
    && c[k].material.previous == (if k == 0 then ZeroHash else c[k - 1].hash)
    && hash(c[k].material) == c[k].hash
    && (k > 0 ==> c[k - 1].material.createdAt <= c[k].material.createdAt)
  }

  ghost predicate ValidChain(hash: Hash, c: seq<Event>) {
    forall k :: 0 <= k < |c| ==> LinkOk(hash, c, k)
  }

  /** I5: the chain still has the anchored head at the anchored length. Lengths below 1 anchor nothing. */
  predicate Anchored(c: seq<Event>, a: Anchor) {
    a.length >= 1 ==> a.length <= |c| && c[a.length - 1].hash == a.head
  }

  // ---- the errors of a log, event by event ----

  // A dictionary, with the order in which it lists its keys.
  datatype Anchors = Anchors(at: map<Pid, Anchor>, order: seq<Pid>) {
    ghost predicate Valid() {
      forall p: Pid :: p in order <==> p in at
    }
  }

  function AnchorOf(anchors: Anchors, p: Pid): Option<Anchor> {
    if p in anchors.at then Some(anchors.at[p]) else None
  }

  function ErrorIf(wrong: bool, e: Event, kind: Kind): seq<ChainError> {
    if wrong then [ChainError(e.material.profile, Some(e.id), kind)] else []
  }

  /** What is wrong with an event that follows chain c. */
  function EventErrors(hash: Hash, anchor: Option<Anchor>, c: seq<Event>, e: Event): seq<ChainError> {
    ErrorIf(e.material.previous != Head(c), e, if c == [] then BadGenesis else BrokenLink)
    + ErrorIf(hash(e.material) != e.hash, e, HashMismatch)
    + ErrorIf(c != [] && e.material.createdAt < c[|c| - 1].material.createdAt, e, TimestampRegression)
    + ErrorIf(anchor.Some? && |c| + 1 == anchor.value.length && e.hash != anchor.value.head, e, AnchorMismatch)
  }

  function ErrorsAt(hash: Hash, anchors: Anchors, events: seq<Event>, i: nat): seq<ChainError>
    requires i < |events|
  {
    var p := events[i].material.profile;
    EventErrors(hash, AnchorOf(anchors, p), Chain(events, i, p), events[i])
  }

  function Flatten(parts: seq<seq<ChainError>>): seq<ChainError> {
    if parts == [] then [] else Flatten(parts[..|parts| - 1]) + parts[|parts| - 1]
  }

  function LogErrors(hash: Hash, anchors: Anchors, events: seq<Event>): seq<seq<ChainError>> {
    seq(|events|, i requires 0 <= i < |events| => ErrorsAt(hash, anchors, events, i))
  }

  /** The anchor saw more events than the log holds. */
  predicate TooShort(anchors: Anchors, events: seq<Event>, p: Pid) {
    AnchorOf(anchors, p).Some? && |Chain(events, |events|, p)| < AnchorOf(anchors, p).value.length
  }

  function MissingErrors(anchors: Anchors, events: seq<Event>): seq<seq<ChainError>> {
    seq(|anchors.order|, i requires 0 <= i < |anchors.order| => MissingAt(anchors, events, anchors.order[i]))
  }

  function MissingAt(anchors: Anchors, events: seq<Event>, p: Pid): seq<ChainError> {
    if TooShort(anchors, events, p) then [ChainError(p, None, AnchorMissing)] else []
  }

  function Errors(hash: Hash, anchors: Anchors, events: seq<Event>): seq<ChainError> {
    Flatten(LogErrors(hash, anchors, events)) + Flatten(MissingErrors(anchors, events))
  }

  predicate Summarizes(s: Summary, c: seq<Event>) {
    && s.length == |c| && s.head == Head(c)
    && (c == [] ==> s.last.None? && s.headId.None?)
    && (c != [] ==> s.last == Some(c[|c| - 1].material.createdAt) && s.headId == Some(c[|c| - 1].id))
  }

  ghost predicate SummarizesAll(chains: map<Pid, Summary>, events: seq<Event>, n: nat)
    requires n <= |events|
  {
    forall p: Pid :: if p in chains then Chain(events, n, p) != [] && Summarizes(chains[p], Chain(events, n, p))
                     else Chain(events, n, p) == []
  }

  // ---- the single pass ----

  method CheckEvent(hash: Hash, anchor: Option<Anchor>, chain: Summary, e: Event, ghost c: seq<Event>)
    returns (next: Summary, errors: seq<ChainError>)
    requires Summarizes(chain, c)
    ensures Summarizes(next, c + [e])
    ensures errors == EventErrors(hash, anchor, c, e)
  {
    errors := [];
    if e.material.previous != chain.head {
      var kind := if chain.length == 0 then BadGenesis else BrokenLink;
      errors := errors + [ChainError(e.material.profile, Some(e.id), kind)];
    }
    if hash(e.material) != e.hash {
      errors := errors + [ChainError(e.material.profile, Some(e.id), HashMismatch)];
    }
    if chain.last.Some? && e.material.createdAt < chain.last.value {
      errors := errors + [ChainError(e.material.profile, Some(e.id), TimestampRegression)];
    }
    next := Summary(chain.length + 1, e.hash, Some(e.id), Some(e.material.createdAt));
    if anchor.Some? && next.length == anchor.value.length && e.hash != anchor.value.head {
      errors := errors + [ChainError(e.material.profile, Some(e.id), AnchorMismatch)];
    }
  }

  method VerifyChain(hash: Hash, events: seq<Event>, anchors: Anchors) returns (report: Report)
    requires anchors.Valid()
    ensures report.errors == Errors(hash, anchors, events)
    ensures SummarizesAll(report.chains, events, |events|)
  {
    var chains: map<Pid, Summary> := map[];
    var errors: seq<ChainError> := [];
    ghost var parts := LogErrors(hash, anchors, events);
    for n := 0 to |events|
      invariant errors == Flatten(parts[..n])
      invariant SummarizesAll(chains, events, n)
    {
      var found;
      chains, found := AdvanceChain(hash, anchors, events, n, chains);
      FlattenStep(parts, n);
      errors := errors + found;
    }
    assert parts[..|events|] == parts;
    var missing := CheckLengths(anchors, events, chains);
    return Report(chains, errors + missing);
  }

  method AdvanceChain(hash: Hash, anchors: Anchors, events: seq<Event>, n: nat, chains: map<Pid, Summary>)
    returns (next: map<Pid, Summary>, errors: seq<ChainError>)
    requires n < |events| && SummarizesAll(chains, events, n)
    ensures SummarizesAll(next, events, n + 1)
    ensures errors == ErrorsAt(hash, anchors, events, n)
  {
    var e := events[n];
    var p := e.material.profile;
    var chain := if p in chains then chains[p] else Summary(0, ZeroHash, None, None);
    var summary;
    summary, errors := CheckEvent(hash, AnchorOf(anchors, p), chain, e, Chain(events, n, p));
    next := chains[p := summary];
    forall q: Pid | q != p ensures Chain(events, n + 1, q) == Chain(events, n, q) {}
  }

  method CheckLengths(anchors: Anchors, events: seq<Event>, chains: map<Pid, Summary>)
    returns (missing: seq<ChainError>)
    requires anchors.Valid() && SummarizesAll(chains, events, |events|)
    ensures missing == Flatten(MissingErrors(anchors, events))
  {
    missing := [];
    ghost var parts := MissingErrors(anchors, events);
    for n := 0 to |anchors.order|
      invariant missing == Flatten(parts[..n])
    {
      var found := CheckLength(anchors, events, chains, anchors.order[n]);
      FlattenStep(parts, n);
      missing := missing + found;
    }
    assert parts[..|anchors.order|] == parts;
  }

  method CheckLength(anchors: Anchors, events: seq<Event>, chains: map<Pid, Summary>, p: Pid)
    returns (missing: seq<ChainError>)
    requires p in anchors.at && SummarizesAll(chains, events, |events|)
    ensures missing == MissingAt(anchors, events, p)
  {
    var length := if p in chains then chains[p].length else 0;
    if length < anchors.at[p].length {
      return [ChainError(p, None, AnchorMissing)];
    }
    return [];
  }

  lemma FlattenStep(parts: seq<seq<ChainError>>, n: nat)
    requires n < |parts|
    ensures Flatten(parts[..n + 1]) == Flatten(parts[..n]) + parts[n]
  {
    assert parts[..n + 1][..n] == parts[..n];
  }

  // ---- no error exactly when every chain is valid and anchored ----

  lemma ValidChainExtends(hash: Hash, c: seq<Event>, e: Event)
    ensures ValidChain(hash, c + [e]) <==> ValidChain(hash, c) && LinkOk(hash, c + [e], |c|)
  {
    var d := c + [e];
    forall k | 0 <= k < |c| ensures LinkOk(hash, d, k) <==> LinkOk(hash, c, k) {
      assert d[k] == c[k];
    }
    if ValidChain(hash, d) {
      forall k | 0 <= k < |c| ensures LinkOk(hash, c, k) { assert LinkOk(hash, d, k); }
    }
  }

  // An anchor can only be violated where the log reaches its length, or by never reaching it.
  predicate AnchoredSoFar(c: seq<Event>, a: Option<Anchor>) {
    a.Some? && 1 <= a.value.length <= |c| ==> c[a.value.length - 1].hash == a.value.head
  }

  ghost predicate Good(hash: Hash, c: seq<Event>, a: Option<Anchor>) {
    ValidChain(hash, c) && AnchoredSoFar(c, a)
  }

  lemma NoEventErrors(hash: Hash, anchor: Option<Anchor>, c: seq<Event>, e: Event)
    ensures Good(hash, c + [e], anchor) <==> Good(hash, c, anchor) && EventErrors(hash, anchor, c, e) == []
  {
    ValidChainExtends(hash, c, e);
    var d := c + [e];
    assert forall k :: 0 <= k < |c| ==> d[k] == c[k];
  }

  predicate CleanAt(hash: Hash, anchors: Anchors, events: seq<Event>, i: nat, p: Pid)
    requires i < |events|
  {
    events[i].material.profile == p ==> ErrorsAt(hash, anchors, events, i) == []
  }

  lemma {:induction false} GoodExactlyWhen(hash: Hash, anchors: Anchors, events: seq<Event>, n: nat, p: Pid)
    requires n <= |events|
    ensures Good(hash, Chain(events, n, p), AnchorOf(anchors, p))
            <==> forall i :: 0 <= i < n ==> CleanAt(hash, anchors, events, i, p)
  {
    if n > 0 {
      GoodExactlyWhen(hash, anchors, events, n - 1, p);
      GoodStep(hash, anchors, events, n, p);
    }
  }

  lemma GoodStep(hash: Hash, anchors: Anchors, events: seq<Event>, n: nat, p: Pid)
    requires 0 < n <= |events|
    ensures Good(hash, Chain(events, n, p), AnchorOf(anchors, p))
            <==> Good(hash, Chain(events, n - 1, p), AnchorOf(anchors, p)) && CleanAt(hash, anchors, events, n - 1, p)
  {
    if events[n - 1].material.profile == p {
      NoEventErrors(hash, AnchorOf(anchors, p), Chain(events, n - 1, p), events[n - 1]);
    } else {
      assert Chain(events, n, p) == Chain(events, n - 1, p);
    }
  }

  lemma {:induction false} FlattenEmpty(parts: seq<seq<ChainError>>)
    ensures Flatten(parts) == [] <==> forall i :: 0 <= i < |parts| ==> parts[i] == []
  {
    if parts != [] {
      FlattenEmpty(parts[..|parts| - 1]);
    }
  }

  ghost predicate ProfileOk(hash: Hash, anchors: Anchors, events: seq<Event>, p: Pid) {
    && ValidChain(hash, Chain(events, |events|, p))
    && (p in anchors.at ==> Anchored(Chain(events, |events|, p), anchors.at[p]))
  }

  lemma AcceptsProfile(hash: Hash, anchors: Anchors, events: seq<Event>, p: Pid)
    ensures ProfileOk(hash, anchors, events, p)
            <==> Good(hash, Chain(events, |events|, p), AnchorOf(anchors, p)) && !TooShort(anchors, events, p)
  {
  }

  /** A log, however its chains are interleaved, is accepted exactly when every profile's own events satisfy I1 to
      I4 and, if it is anchored at a length of at least 1, its anchored head is found where it was seen. */
  lemma AcceptedExactlyWhen(hash: Hash, anchors: Anchors, events: seq<Event>)
    requires anchors.Valid()
    ensures Errors(hash, anchors, events) == [] <==> forall p: Pid :: ProfileOk(hash, anchors, events, p)
  {
    FlattenEmpty(LogErrors(hash, anchors, events));
    FlattenEmpty(MissingErrors(anchors, events));
    if Errors(hash, anchors, events) == [] {
      forall p: Pid ensures ProfileOk(hash, anchors, events, p) {
        NoErrorsNoFault(hash, anchors, events, p);
      }
    }
    if forall p: Pid :: ProfileOk(hash, anchors, events, p) {
      NoFaultNoErrors(hash, anchors, events);
    }
  }

  lemma NoErrorsNoFault(hash: Hash, anchors: Anchors, events: seq<Event>, p: Pid)
    requires anchors.Valid()
    requires forall i :: 0 <= i < |events| ==> LogErrors(hash, anchors, events)[i] == []
    requires forall i :: 0 <= i < |anchors.order| ==> MissingErrors(anchors, events)[i] == []
    ensures ProfileOk(hash, anchors, events, p)
  {
    forall i | 0 <= i < |events| ensures CleanAt(hash, anchors, events, i, p) {
      assert LogErrors(hash, anchors, events)[i] == ErrorsAt(hash, anchors, events, i);
    }
    GoodExactlyWhen(hash, anchors, events, |events|, p);
    if p in anchors.order {
      var i :| 0 <= i < |anchors.order| && anchors.order[i] == p;
      assert MissingErrors(anchors, events)[i] == MissingAt(anchors, events, p);
    }
    AcceptsProfile(hash, anchors, events, p);
  }

  lemma NoFaultNoErrors(hash: Hash, anchors: Anchors, events: seq<Event>)
    requires anchors.Valid()
    requires forall p: Pid :: ProfileOk(hash, anchors, events, p)
    ensures forall i :: 0 <= i < |events| ==> LogErrors(hash, anchors, events)[i] == []
    ensures forall i :: 0 <= i < |anchors.order| ==> MissingErrors(anchors, events)[i] == []
  {
    forall i | 0 <= i < |events| ensures LogErrors(hash, anchors, events)[i] == [] {
      var p := events[i].material.profile;
      assert ProfileOk(hash, anchors, events, p);
      AcceptsProfile(hash, anchors, events, p);
      GoodExactlyWhen(hash, anchors, events, |events|, p);
      assert CleanAt(hash, anchors, events, i, p);
    }
    forall i | 0 <= i < |anchors.order| ensures MissingErrors(anchors, events)[i] == [] {
      assert ProfileOk(hash, anchors, events, anchors.order[i]);
      AcceptsProfile(hash, anchors, events, anchors.order[i]);
    }
  }

  // ---- what an anchor pins down ----

  /** The first n events of two chains have the same hashed columns and the same hashes. */
  ghost predicate Agree(c: seq<Event>, d: seq<Event>, n: int) {
    n <= |c| && n <= |d| && forall k :: 0 <= k < n ==> c[k].material == d[k].material && c[k].hash == d[k].hash
  }

  function Materials(c: seq<Event>): seq<Material> {
    seq(|c|, k requires 0 <= k < |c| => c[k].material)
  }

  function PreviousOf(m: Material): Digest {
    m.previous
  }

  lemma ValidIsChained(hash: Hash, c: seq<Event>)
    requires ValidChain(hash, c)
    ensures Chained(hash, PreviousOf, Materials(c)) && forall k :: 0 <= k < |c| ==> c[k].hash == hash(Materials(c)[k])
  {
    forall k | 0 <= k < |c| ensures c[k].hash == hash(Materials(c)[k]) { assert LinkOk(hash, c, k); }
    forall k | 0 < k < |c| ensures PreviousOf(Materials(c)[k]) == hash(Materials(c)[k - 1]) {
      assert LinkOk(hash, c, k) && LinkOk(hash, c, k - 1);
    }
  }

  lemma AcceptedChain(hash: Hash, anchors: Anchors, a: seq<Event>, p: Pid)
    requires anchors.Valid() && p in anchors.at && anchors.at[p].length >= 1 && Errors(hash, anchors, a) == []
    ensures Pinned(hash, Chain(a, |a|, p), anchors.at[p])
  {
    AcceptedExactlyWhen(hash, anchors, a);
    assert ProfileOk(hash, anchors, a, p);
  }

  /** Two logs accepted against the same anchor agree on every hashed column of the events it covers: below an anchor
      nothing can be rewritten, inserted, removed, reordered or truncated without an error. */
  lemma AnchorFixesHistory(hash: Hash, anchors: Anchors, a: seq<Event>, b: seq<Event>, p: Pid)
    requires Injective(hash) && anchors.Valid() && p in anchors.at && anchors.at[p].length >= 1
    requires Errors(hash, anchors, a) == [] && Errors(hash, anchors, b) == []
    ensures Agree(Chain(a, |a|, p), Chain(b, |b|, p), anchors.at[p].length)
  {
    AcceptedChain(hash, anchors, a, p);
    AcceptedChain(hash, anchors, b, p);
    SameAnchorSamePast(hash, Chain(a, |a|, p), Chain(b, |b|, p), anchors.at[p]);
  }

  ghost predicate Pinned(hash: Hash, c: seq<Event>, a: Anchor) {
    ValidChain(hash, c) && 1 <= a.length <= |c| && c[a.length - 1].hash == a.head
  }

  lemma SameAnchorSamePast(hash: Hash, c: seq<Event>, d: seq<Event>, a: Anchor)
    requires Injective(hash) && Pinned(hash, c, a) && Pinned(hash, d, a)
    ensures Agree(c, d, a.length)
  {
    ValidIsChained(hash, c);
    ValidIsChained(hash, d);
    SameDigestSamePast(hash, PreviousOf, Materials(c), Materials(d), a.length);
    forall k | 0 <= k < a.length ensures c[k].material == d[k].material && c[k].hash == d[k].hash {
      assert Materials(c)[..a.length][k] == Materials(d)[..a.length][k];
    }
  }

  // ---- anchors taken from a report ----

  /** The anchors an accepted log hands out. */
  ghost predicate OwnAnchors(anchors: Anchors, events: seq<Event>) {
    forall p :: p in anchors.at ==>
      anchors.at[p] == Anchor(|Chain(events, |events|, p)|, Head(Chain(events, |events|, p)))
  }

  function ReportAnchors(chains: map<Pid, Summary>): map<Pid, Anchor> {
    map p | p in chains :: Anchor(chains[p].length, chains[p].head)
  }

  /** The anchors a verification reports are the log's own. */
  lemma ReportedAnchorsAreOwn(chains: map<Pid, Summary>, events: seq<Event>, order: seq<Pid>)
    requires SummarizesAll(chains, events, |events|)
    ensures OwnAnchors(Anchors(ReportAnchors(chains), order), events)
  {
  }

  ghost predicate Extends(events: seq<Event>, later: seq<Event>) {
    forall p: Pid :: Chain(events, |events|, p) <= Chain(later, |later|, p)
  }

  /** They keep accepting every accepted log that extends its chains, however many events were added. */
  lemma OwnAnchorsStayAccepted(hash: Hash, anchors: Anchors, events: seq<Event>, later: seq<Event>)
    requires anchors.Valid() && OwnAnchors(anchors, events) && Extends(events, later)
    requires Errors(hash, Anchors(map[], []), later) == []
    ensures Errors(hash, anchors, later) == []
  {
    AcceptedExactlyWhen(hash, Anchors(map[], []), later);
    forall p: Pid ensures ProfileOk(hash, anchors, later, p) {
      assert ProfileOk(hash, Anchors(map[], []), later, p);
      if p in anchors.at {
        OwnAnchorHolds(Chain(events, |events|, p), Chain(later, |later|, p), anchors.at[p]);
      }
    }
    AcceptedExactlyWhen(hash, anchors, later);
  }

  lemma OwnAnchorHolds(c: seq<Event>, d: seq<Event>, a: Anchor)
    requires c <= d && a == Anchor(|c|, Head(c))
    ensures Anchored(d, a)
  {
  }

  // ---- edits that leave the stored hashes alone ----

  /** b is a with some events' type, actor, grant or payload changed and everything else as stored. */
  predicate EditOf(a: Event, b: Event) {
    b == a.(material := a.material.(eventType := b.material.eventType, actor := b.material.actor,
                                    grant := b.material.grant, payload := b.material.payload))
  }

  ghost predicate EditsOf(a: seq<Event>, b: seq<Event>) {
    |a| == |b| && forall i :: 0 <= i < |a| ==> EditOf(a[i], b[i])
  }

  /** One mismatch for each changed event, in order. */
  function MismatchAt(a: seq<Event>, b: seq<Event>, i: nat): seq<ChainError>
    requires i < |a| == |b|
  {
    ErrorIf(a[i] != b[i], b[i], HashMismatch)
  }

  function Mismatches(a: seq<Event>, b: seq<Event>): seq<seq<ChainError>>
    requires |a| == |b|
  {
    seq(|a|, i requires 0 <= i < |a| => MismatchAt(a, b, i))
  }

  function Changed(a: seq<Event>, b: seq<Event>): set<nat>
    requires |a| == |b|
  {
    set i: nat | i < |a| && a[i] != b[i]
  }

  lemma {:induction false} MismatchesMeaning(a: seq<Event>, b: seq<Event>)
    requires |a| == |b|
    ensures |Flatten(Mismatches(a, b))| == |Changed(a, b)|
    ensures forall e :: e in Flatten(Mismatches(a, b)) ==> e.kind == HashMismatch
  {
    if a != [] {
      var n := |a| - 1;
      MismatchesMeaning(a[..n], b[..n]);
      assert Mismatches(a, b)[..n] == Mismatches(a[..n], b[..n]);
      assert Changed(a, b) == Changed(a[..n], b[..n]) + if a[n] != b[n] then {n} else {};
    }
  }

  lemma {:induction false} EditedChain(a: seq<Event>, b: seq<Event>, n: nat, p: Pid)
    requires EditsOf(a, b) && n <= |a|
    ensures EditsOf(Chain(a, n, p), Chain(b, n, p))
  {
    if n > 0 {
      EditedChain(a, b, n - 1, p);
      assert EditOf(a[n - 1], b[n - 1]);
    }
  }

  lemma EditedEventErrors(hash: Hash, anchor: Option<Anchor>, c: seq<Event>, d: seq<Event>, e: Event, f: Event)
    requires Injective(hash) && EditsOf(c, d) && EditOf(e, f) && EventErrors(hash, anchor, c, e) == []
    ensures EventErrors(hash, anchor, d, f) == ErrorIf(e != f, f, HashMismatch)
  {
  }

  lemma EditedErrorsAt(hash: Hash, anchors: Anchors, a: seq<Event>, b: seq<Event>, i: nat)
    requires Injective(hash) && EditsOf(a, b) && i < |a| && ErrorsAt(hash, anchors, a, i) == []
    ensures ErrorsAt(hash, anchors, b, i) == MismatchAt(a, b, i)
  {
    var p := a[i].material.profile;
    assert EditOf(a[i], b[i]);
    EditedChain(a, b, i, p);
    EditedEventErrors(hash, AnchorOf(anchors, p), Chain(a, i, p), Chain(b, i, p), a[i], b[i]);
  }

  /** Editing the type, actor, grant or payload of k events of an accepted log, the stored hashes untouched, gives
      exactly k errors: one HashMismatch for each edited event, in order. One tampered row does not fail every
      later row. */
  lemma EditsAreEachReportedOnce(hash: Hash, anchors: Anchors, a: seq<Event>, b: seq<Event>)
    requires Injective(hash) && anchors.Valid() && EditsOf(a, b) && Errors(hash, anchors, a) == []
    ensures Errors(hash, anchors, b) == Flatten(Mismatches(a, b))
    ensures |Errors(hash, anchors, b)| == |Changed(a, b)|
    ensures forall e :: e in Errors(hash, anchors, b) ==> e.kind == HashMismatch
  {
    var parts := LogErrors(hash, anchors, a);
    FlattenEmpty(parts);
    forall i | 0 <= i < |a| ensures LogErrors(hash, anchors, b)[i] == Mismatches(a, b)[i] {
      assert parts[i] == ErrorsAt(hash, anchors, a, i);
      EditedErrorsAt(hash, anchors, a, b, i);
    }
    assert LogErrors(hash, anchors, b) == Mismatches(a, b);
    MismatchesMeaning(a, b);
    FlattenEmpty(MissingErrors(anchors, a));
    FlattenEmpty(MissingErrors(anchors, b));
    forall i | 0 <= i < |anchors.order| ensures MissingErrors(anchors, b)[i] == [] {
      EditedChain(a, b, |a|, anchors.order[i]);
      assert MissingErrors(anchors, a)[i] == MissingAt(anchors, a, anchors.order[i]);
    }
  }
}
