/** The in-process rate limiter (remembrance-consent/app/ratelimit.py), with times as reals. */
module RateLimit {
  import opened Wrappers

  const MAX_KEYS: nat := 100_000

  datatype Decision = Decision(allowed: bool, retryAfter: real)

  // The emission interval T and the tolerance T * (burst - 1).
  datatype Limits = Limits(interval: real, tolerance: real) {
    predicate Valid() {
      interval > 0.0 && tolerance >= 0.0
    }
  }

  type Tats = map<string, real>

  // ---- one hit ----

  function Max(x: real, y: real): real {
    if x < y then y else x
  }

  /** The theoretical arrival time of a key at a moment: never before that moment. */
  function TatAt(tats: Tats, key: string, now: real): real {
    if key in tats then Max(tats[key], now) else now
  }

  function AllowAt(l: Limits, tats: Tats, key: string, now: real): real {
    TatAt(tats, key, now) - l.tolerance
  }

  function Decide(l: Limits, tats: Tats, key: string, now: real): Decision {
    if now < AllowAt(l, tats, key, now) then Decision(false, AllowAt(l, tats, key, now) - now) else Decision(true, 0.0)
  }

  /** The map after a hit when nothing is ever forgotten. */
  function AfterHit(l: Limits, tats: Tats, key: string, now: real): Tats {
    if Decide(l, tats, key, now).allowed then tats[key := TatAt(tats, key, now) + l.interval] else tats
  }

  function Pruned(tats: Tats, now: real): Tats {
    map k | k in tats && tats[k] > now :: tats[k]
  }

  // ---- runs ----

  datatype Hit = Hit(key: string, time: real)

  /** The times a clock shows never go back. */
  predicate Ordered(hits: seq<Hit>) {
    forall i, j :: 0 <= i < j < |hits| ==> hits[i].time <= hits[j].time
  }

  function Unpruned(l: Limits, hits: seq<Hit>): Tats {
    if hits == [] then map[]
    else AfterHit(l, Unpruned(l, hits[..|hits| - 1]), hits[|hits| - 1].key, hits[|hits| - 1].time)
  }

  function DecisionOf(l: Limits, hits: seq<Hit>): Decision
    requires hits != []
  {
    Decide(l, Unpruned(l, hits[..|hits| - 1]), hits[|hits| - 1].key, hits[|hits| - 1].time)
  }

  // ---- pruning is invisible ----

  /** Two maps that no hit from this moment on can tell apart. */
  ghost predicate SameFrom(a: Tats, b: Tats, now: real) {
    forall key: string, t: real :: t >= now ==> TatAt(a, key, t) == TatAt(b, key, t)
  }

  lemma PruningIsInvisible(tats: Tats, now: real)
    ensures SameFrom(Pruned(tats, now), tats, now)
  {
  }

  lemma SameAfterHit(l: Limits, a: Tats, b: Tats, key: string, now: real)
    requires SameFrom(a, b, now)
    ensures Decide(l, a, key, now) == Decide(l, b, key, now)
    ensures SameFrom(AfterHit(l, a, key, now), AfterHit(l, b, key, now), now)
  {
    assert TatAt(a, key, now) == TatAt(b, key, now);
    forall k: string, t: real | t >= now
      ensures TatAt(AfterHit(l, a, key, now), k, t) == TatAt(AfterHit(l, b, key, now), k, t)
    {
      assert TatAt(a, k, t) == TatAt(b, k, t);
    }
  }

  /** Whatever was pruned, the map decides from the last hit on as if it had forgotten nothing. */
  ghost predicate Mirrors(l: Limits, tats: Tats, history: seq<Hit>) {
    if history == [] then tats == map[] else SameFrom(tats, Unpruned(l, history), history[|history| - 1].time)
  }

  lemma HitMirrors(l: Limits, tats: Tats, history: seq<Hit>, key: string, now: real)
    requires Mirrors(l, tats, history) && (history != [] ==> history[|history| - 1].time <= now)
    ensures Decide(l, tats, key, now) == DecisionOf(l, history + [Hit(key, now)])
    ensures Mirrors(l, AfterHit(l, tats, key, now), history + [Hit(key, now)])
  {
    var more := history + [Hit(key, now)];
    assert more[..|more| - 1] == history;
    assert SameFrom(tats, Unpruned(l, history), now);
    SameAfterHit(l, tats, Unpruned(l, history), key, now);
  }

  lemma PrunedMirrors(l: Limits, tats: Tats, history: seq<Hit>, now: real)
    requires history != [] && Mirrors(l, tats, history) && history[|history| - 1].time == now
    ensures Mirrors(l, Pruned(tats, now), history)
  {
  }

  class InMemoryGCRA {
    const limits: Limits
    var tat: Tats
    ghost var history: seq<Hit>

    ghost predicate Valid()
      reads this
    {
      limits.Valid() && Ordered(history) && Mirrors(limits, tat, history)
    }

    constructor (limits: Limits)
      requires limits.Valid()
      ensures Valid() && this.limits == limits && history == []
    {
      this.limits := limits;
      tat := map[];
      history := [];
    }

    method HitKey(key: string, now: real) returns (d: Decision)
      requires Valid() && (history != [] ==> history[|history| - 1].time <= now)
      modifies this
      ensures Valid() && history == old(history) + [Hit(key, now)]
      ensures d == DecisionOf(limits, history)
      ensures d.allowed ==>
                tat == AfterHit(limits, old(tat), key, now) || tat == Pruned(AfterHit(limits, old(tat), key, now), now)
      ensures !d.allowed ==> tat == old(tat) && d.retryAfter > 0.0
    {
      HitMirrors(limits, tat, history, key, now);
      history := history + [Hit(key, now)];
      var arrival := TatAt(tat, key, now);
      var allowAt := arrival - limits.tolerance;
      if now < allowAt {
        return Decision(false, allowAt - now);
      }
      tat := tat[key := arrival + limits.interval];
      if |tat| > MAX_KEYS {
        PrunedMirrors(limits, tat, history, now);
        tat := Pruned(tat, now);
      }
      return Decision(true, 0.0);
    }
  }

  method Parameters(ratePerMinute: int, burst: int) returns (r: Option<Limits>)
    ensures r.Some? <==> ratePerMinute >= 1 && burst >= 1
    ensures r.Some? ==> r.value.Valid() && r.value.interval * ratePerMinute as real == 60.0
    ensures r.Some? ==> r.value.tolerance == r.value.interval * (burst - 1) as real
  {
    if ratePerMinute < 1 || burst < 1 { return None; }
    var interval := 60.0 / ratePerMinute as real;
    return Some(Limits(interval, interval * (burst - 1) as real));
  }

  // ---- the bound ----

  /** How many hits of a key were allowed at times between from and to, among all hits. */
  function AllowedIn(l: Limits, hits: seq<Hit>, key: string, from: real, to: real): nat {
    if hits == [] then 0
    else
      var last := hits[|hits| - 1];
      AllowedIn(l, hits[..|hits| - 1], key, from, to)
      + if last.key == key && from <= last.time <= to && DecisionOf(l, hits).allowed then 1 else 0
  }

  // Every allowed hit moves the arrival time on by one interval.
  lemma {:induction false} ArrivalMovesOn(l: Limits, hits: seq<Hit>, key: string, from: real, to: real)
    requires l.Valid()
    ensures var n := AllowedIn(l, hits, key, from, to);
            n >= 1 ==> key in Unpruned(l, hits) && Unpruned(l, hits)[key] >= from + Times(n, l.interval)
  {
    if hits != [] { ArrivalMovesOn(l, hits[..|hits| - 1], key, from, to); }
  }

  function Times(n: nat, x: real): real {
    if n == 0 then 0.0 else Times(n - 1, x) + x
  }

  lemma {:induction false} TimesIsProduct(n: nat, x: real)
    ensures Times(n, x) == n as real * x
  {
    if n > 0 { TimesIsProduct(n - 1, x); }
  }

  // n hits keep the bound of a window of this length.
  predicate Fits(l: Limits, n: nat, length: real) {
    (n - 1) as real * l.interval <= length + l.tolerance
  }

  lemma FitsInTimes(l: Limits, n: nat, length: real)
    requires n >= 1
    ensures Fits(l, n, length) <==> Times(n - 1, l.interval) <= length + l.tolerance
  {
    TimesIsProduct(n - 1, l.interval);
  }

  /** The limit: n hits allowed in a window of length W satisfy (n - 1) * T <= W + T * (burst - 1), the last term being
      the tolerance. It holds for any clock, even one that goes back; only pruning needs time not to. */
  lemma WindowBound(l: Limits, hits: seq<Hit>, key: string, from: real, to: real)
    requires l.Valid() && from <= to
    ensures var n := AllowedIn(l, hits, key, from, to); n >= 1 ==> Fits(l, n, to - from)
  {
    SpreadBound(l, hits, key, from, to);
    var n := AllowedIn(l, hits, key, from, to);
    if n > 0 { FitsInTimes(l, n, to - from); }
  }

  lemma {:induction false} SpreadBound(l: Limits, hits: seq<Hit>, key: string, from: real, to: real)
    requires l.Valid() && from <= to
    ensures var n := AllowedIn(l, hits, key, from, to);
            n > 0 ==> Times(n - 1, l.interval) <= (to - from) + l.tolerance
  {
    if hits != [] {
      var before := hits[..|hits| - 1];
      SpreadBound(l, before, key, from, to);
      ArrivalMovesOn(l, before, key, from, to);
    }
  }

  // ---- no hit is refused without need ----

  // A key's arrival time is the latest that its own allowed hits account for: some window up to now is filled to it.
  lemma {:induction false} ArrivalIsEarned(l: Limits, hits: seq<Hit>, key: string, to: real) returns (from: real)
    requires l.Valid() && Ordered(hits) && key in Unpruned(l, hits)
    requires hits != [] ==> hits[|hits| - 1].time <= to
    ensures hits != [] && from <= hits[|hits| - 1].time
    ensures Unpruned(l, hits)[key] == from + Times(AllowedIn(l, hits, key, from, to), l.interval)
  {
    var front, last := hits[..|hits| - 1], hits[|hits| - 1];
    if last.key == key && DecisionOf(l, hits).allowed {
      if key in Unpruned(l, front) && Unpruned(l, front)[key] >= last.time {
        from := ArrivalIsEarned(l, front, key, to);
      } else {
        from := last.time;
        EarnedByLast(l, hits, key, to);
      }
    } else {
      from := ArrivalIsEarned(l, front, key, to);
    }
  }

  // An allowed hit that finds its key idle starts a window of its own.
  lemma EarnedByLast(l: Limits, hits: seq<Hit>, key: string, to: real)
    requires l.Valid() && hits != [] && hits[|hits| - 1].key == key && hits[|hits| - 1].time <= to
    requires DecisionOf(l, hits).allowed
    requires var before, now := Unpruned(l, hits[..|hits| - 1]), hits[|hits| - 1].time;
             key in before ==> before[key] < now
    ensures key in Unpruned(l, hits)
    ensures var now := hits[|hits| - 1].time;
            Unpruned(l, hits)[key] == now + Times(AllowedIn(l, hits, key, now, to), l.interval)
  {
    var front, now := hits[..|hits| - 1], hits[|hits| - 1].time;
    ArrivalMovesOn(l, front, key, now, to);
    TimesGrows(AllowedIn(l, front, key, now, to), l.interval);
  }

  lemma {:induction false} TimesGrows(n: nat, x: real)
    requires x > 0.0
    ensures Times(n, x) >= 0.0 && (n > 0 ==> Times(n, x) > 0.0)
  {
    if n > 0 { TimesGrows(n - 1, x); }
  }

  // One more hit at `now` would still respect the bound of the window that starts at `from`.
  ghost predicate HasRoom(l: Limits, hits: seq<Hit>, key: string, from: real, now: real) {
    Fits(l, AllowedIn(l, hits, key, from, now) + 1, now - from)
  }

  lemma AllowedHasRoom(l: Limits, hits: seq<Hit>, key: string, from: real, now: real)
    requires l.Valid() && from <= now && Decide(l, Unpruned(l, hits), key, now).allowed
    ensures HasRoom(l, hits, key, from, now)
  {
    ArrivalMovesOn(l, hits, key, from, now);
    FitsInTimes(l, AllowedIn(l, hits, key, from, now) + 1, now - from);
  }

  lemma RefusedLacksRoom(l: Limits, hits: seq<Hit>, key: string, now: real) returns (from: real)
    requires l.Valid() && Ordered(hits) && (hits != [] ==> hits[|hits| - 1].time <= now)
    requires !Decide(l, Unpruned(l, hits), key, now).allowed
    ensures from <= now && !HasRoom(l, hits, key, from, now)
  {
    from := ArrivalIsEarned(l, hits, key, now);
    FitsInTimes(l, AllowedIn(l, hits, key, from, now) + 1, now - from);
  }

  /** A hit is allowed exactly when it keeps the bound of `WindowBound` in every window that ends at it: nothing is
      let through that breaks it, and nothing is refused that keeps it. */
  lemma AllowedExactlyWhenRoom(l: Limits, hits: seq<Hit>, key: string, now: real)
    requires l.Valid() && Ordered(hits + [Hit(key, now)])
    ensures DecisionOf(l, hits + [Hit(key, now)]).allowed <==>
            forall from: real :: from <= now ==> HasRoom(l, hits, key, from, now)
  {
    var more := hits + [Hit(key, now)];
    assert more[..|hits|] == hits;
    assert forall i :: 0 <= i < |hits| ==> more[i] == hits[i];
    if DecisionOf(l, more).allowed {
      forall from: real | from <= now
        ensures HasRoom(l, hits, key, from, now)
      {
        AllowedHasRoom(l, hits, key, from, now);
      }
    } else {
      var from := RefusedLacksRoom(l, hits, key, now);
    }
  }

  function Copies(hit: Hit, n: nat): seq<Hit> {
    if n == 0 then [] else Copies(hit, n - 1) + [hit]
  }

  lemma {:induction false} TimesInOrder(m: nat, n: nat, x: real)
    requires x > 0.0 && m < n
    ensures Times(m, x) < Times(n, x)
  {
    if m < n - 1 { TimesInOrder(m, n - 1, x); }
  }

  function AtMost(n: nat, most: nat): nat {
    if n < most then n else most
  }

  // Whether the arrival time of n hits in one burst is still within the tolerance.
  lemma BurstTolerance(l: Limits, burst: nat, n: nat)
    requires l.Valid() && burst >= 1 && l.tolerance == Times(burst - 1, l.interval)
    ensures Times(AtMost(n, burst), l.interval) <= l.tolerance <==> n < burst
    ensures Times(AtMost(n, burst), l.interval) >= 0.0
  {
    TimesGrows(AtMost(n, burst), l.interval);
    if n < burst - 1 { TimesInOrder(n, burst - 1, l.interval); }
    if n >= burst { TimesInOrder(burst - 1, burst, l.interval); }
  }

  function AfterBurst(l: Limits, tats: Tats, hit: Hit, n: nat): Tats {
    if n == 0 then tats else AfterHit(l, AfterBurst(l, tats, hit, n - 1), hit.key, hit.time)
  }

  lemma {:induction false} BurstOfHits(l: Limits, hits: seq<Hit>, hit: Hit, n: nat)
    ensures Unpruned(l, hits + Copies(hit, n)) == AfterBurst(l, Unpruned(l, hits), hit, n)
  {
    if n == 0 {
      assert hits + Copies(hit, 0) == hits;
    } else {
      var more := hits + Copies(hit, n);
      assert more[..|more| - 1] == hits + Copies(hit, n - 1);
      BurstOfHits(l, hits, hit, n - 1);
    }
  }

  lemma {:induction false} ArrivalInBurst(l: Limits, burst: nat, tats: Tats, hit: Hit, n: nat)
    requires l.Valid() && burst >= 1 && l.tolerance == Times(burst - 1, l.interval) && hit.key !in tats
    ensures TatAt(AfterBurst(l, tats, hit, n), hit.key, hit.time) == hit.time + Times(AtMost(n, burst), l.interval)
  {
    if n > 0 {
      ArrivalInBurst(l, burst, tats, hit, n - 1);
      OneMoreOfBurst(l, burst, AfterBurst(l, tats, hit, n - 1), hit, n - 1);
    }
  }

  lemma OneMoreOfBurst(l: Limits, burst: nat, tats: Tats, hit: Hit, n: nat)
    requires l.Valid() && burst >= 1 && l.tolerance == Times(burst - 1, l.interval)
    requires TatAt(tats, hit.key, hit.time) == hit.time + Times(AtMost(n, burst), l.interval)
    ensures TatAt(AfterHit(l, tats, hit.key, hit.time), hit.key, hit.time) ==
            hit.time + Times(AtMost(n + 1, burst), l.interval)
  {
    BurstTolerance(l, burst, n);
    BurstTolerance(l, burst, n + 1);
  }

  lemma {:induction false} NeverSeen(l: Limits, hits: seq<Hit>, key: string)
    requires forall h :: h in hits ==> h.key != key
    ensures key !in Unpruned(l, hits)
  {
    if hits != [] {
      assert hits[|hits| - 1] in hits;
      NeverSeen(l, hits[..|hits| - 1], key);
    }
  }

  /** A key that was never seen gets exactly `burst` hits at one moment, whatever other keys did. */
  lemma FreshKeyGetsTheBurst(l: Limits, burst: nat, hits: seq<Hit>, hit: Hit, n: nat)
    requires l.Valid() && burst >= 1 && l.tolerance == l.interval * (burst - 1) as real
    requires n >= 1 && forall h :: h in hits ==> h.key != hit.key
    ensures DecisionOf(l, hits + Copies(hit, n)).allowed <==> n <= burst
  {
    TimesIsProduct(burst - 1, l.interval);
    NeverSeen(l, hits, hit.key);
    BurstOnHistory(l, burst, hits, hit, n);
  }

  lemma BurstOnHistory(l: Limits, burst: nat, hits: seq<Hit>, hit: Hit, n: nat)
    requires l.Valid() && burst >= 1 && l.tolerance == Times(burst - 1, l.interval)
    requires n >= 1 && hit.key !in Unpruned(l, hits)
    ensures DecisionOf(l, hits + Copies(hit, n)).allowed <==> n <= burst
  {
    var more := hits + Copies(hit, n);
    assert more[..|more| - 1] == hits + Copies(hit, n - 1);
    BurstOfHits(l, hits, hit, n - 1);
    BurstDecision(l, burst, Unpruned(l, hits), hit, n - 1);
  }

  lemma BurstDecision(l: Limits, burst: nat, tats: Tats, hit: Hit, n: nat)
    requires l.Valid() && burst >= 1 && l.tolerance == Times(burst - 1, l.interval) && hit.key !in tats
    ensures Decide(l, AfterBurst(l, tats, hit, n), hit.key, hit.time).allowed <==> n < burst
  {
    ArrivalInBurst(l, burst, tats, hit, n);
    BurstTolerance(l, burst, n);
  }

  // ---- the advice given with a refusal ----

  lemma OtherKeysDoNotMatter(l: Limits, tats: Tats, key: string, other: Hit, t: real)
    requires other.key != key
    ensures TatAt(AfterHit(l, tats, other.key, other.time), key, t) == TatAt(tats, key, t)
  {
  }

  lemma {:induction false} ManyOtherKeys(l: Limits, hits: seq<Hit>, key: string, others: seq<Hit>, t: real)
    requires forall h :: h in others ==> h.key != key
    ensures TatAt(Unpruned(l, hits + others), key, t) == TatAt(Unpruned(l, hits), key, t)
  {
    if others == [] {
      assert hits + others == hits;
    } else {
      var n := |others| - 1;
      assert others[n] in others;
      assert (hits + others)[..|hits + others| - 1] == hits + others[..n];
      ManyOtherKeys(l, hits, key, others[..n], t);
      OtherKeysDoNotMatter(l, Unpruned(l, hits + others[..n]), key, others[n], t);
    }
  }

  lemma NextDecision(l: Limits, hits: seq<Hit>, hit: Hit)
    ensures DecisionOf(l, hits + [hit]) == Decide(l, Unpruned(l, hits), hit.key, hit.time)
    ensures !DecisionOf(l, hits + [hit]).allowed ==> Unpruned(l, hits + [hit]) == Unpruned(l, hits)
  {
    assert (hits + [hit])[..|hits|] == hits;
  }

  /** After a refusal, and however many hits of other keys, a later hit is allowed exactly from now + retryAfter on. */
  lemma RetryAfterIsExact(l: Limits, hits: seq<Hit>, key: string, now: real, others: seq<Hit>, t: real)
    requires l.Valid() && !DecisionOf(l, hits + [Hit(key, now)]).allowed && now <= t
    requires forall h :: h in others ==> h.key != key
    ensures var refused := hits + [Hit(key, now)];
            DecisionOf(l, refused + others + [Hit(key, t)]).allowed
            <==> t >= now + DecisionOf(l, refused).retryAfter
  {
    var refused := hits + [Hit(key, now)];
    NextDecision(l, hits, Hit(key, now));
    NextDecision(l, refused + others, Hit(key, t));
    ManyOtherKeys(l, refused, key, others, t);
  }
}
