/** The erasure ledger: append-only, hash-chained, kept outside the database (remembrance/erasure.py, `Ledger`). */
module ErasureLedger {
  import opened Wrappers
  import opened Digests

  type Mid = string

  // What an entry's hash covers.
  datatype Body = Body(sequence: nat, mid: Mid, decidedAt: int, actor: string, evidence: Digest, previous: Digest)

  datatype Entry = Entry(body: Body, hash: Digest)

  // SHA-256 over the canonical encoding; only its injectivity is ever used.
  type Hash = Body -> Digest

  // A stored line: an entry of the right shape, or anything else.
  datatype Line = Readable(entry: Entry) | Unreadable

  datatype LedgerError = Incomplete | FailedVerification(at: nat) | Repeats(mid: Mid, at: nat)

  // The hash that entry number i (counted from 0) must name as its predecessor.
  function PreviousHash(entries: seq<Entry>, i: nat): Digest
    requires i <= |entries|
  {
    if i == 0 then ZeroHash else entries[i - 1].hash
  }

  function HeadHash(entries: seq<Entry>): Digest {
    PreviousHash(entries, |entries|)
  }

  predicate EntryOk(hash: Hash, e: Entry, sequence: nat, previous: Digest) {
    e.body.sequence == sequence && e.body.previous == previous && e.hash == hash(e.body)
  }

  ghost predicate Linked(hash: Hash, entries: seq<Entry>, i: nat)
    requires i < |entries|
  {
    EntryOk(hash, entries[i], i + 1, PreviousHash(entries, i))
  }

  /** The ledger is a chain from ZeroHash, numbered from 1, naming each memorial once. */
  ghost predicate ValidLedger(hash: Hash, entries: seq<Entry>) {
    && (forall i :: 0 <= i < |entries| ==> Linked(hash, entries, i))
    && (forall i, j :: 0 <= i < j < |entries| ==> entries[i].body.mid != entries[j].body.mid)
  }

  function EntryFor(entries: seq<Entry>, mid: Mid): (r: Option<Entry>)
    ensures r.Some? ==> r.value in entries && r.value.body.mid == mid
    ensures r.None? ==> forall e :: e in entries ==> e.body.mid != mid
  {
    if entries == [] then None
    else if entries[0].body.mid == mid then Some(entries[0])
    else EntryFor(entries[1..], mid)
  }

  function Decoded(lines: seq<Line>): seq<Entry> {
    seq(|lines|, i requires 0 <= i < |lines| =>
      if lines[i].Readable? then lines[i].entry else Entry(Body(0, "", 0, "", ZeroHash, ZeroHash), ZeroHash))
  }

  /** An error names the first line at fault, and only a file without a partial last line is checked line by line. */
  ghost predicate Refuses(hash: Hash, lines: seq<Line>, partialLast: bool, error: LedgerError) {
    match error
    case Incomplete => partialLast
    case FailedVerification(at) =>
      && !partialLast && 1 <= at <= |lines| && ValidLedger(hash, Decoded(lines)[..at - 1])
      && !(lines[at - 1].Readable? && EntryOk(hash, lines[at - 1].entry, at, HeadHash(Decoded(lines)[..at - 1])))
    case Repeats(mid, at) =>
      && !partialLast && 1 <= at <= |lines| && ValidLedger(hash, Decoded(lines)[..at - 1])
      && lines[at - 1].Readable? && lines[at - 1].entry.body.mid == mid
      && EntryFor(Decoded(lines)[..at - 1], mid).Some?
  }

  /** Opening the file: every line is checked against its position and its predecessor. */
  method Read(hash: Hash, lines: seq<Line>, partialLast: bool) returns (r: Result<seq<Entry>, LedgerError>)
    ensures r.Ok? <==> !partialLast && (forall i :: 0 <= i < |lines| ==> lines[i].Readable?)
                       && ValidLedger(hash, Decoded(lines))
    ensures r.Err? ==> Refuses(hash, lines, partialLast, r.error)
    ensures r.Ok? ==> r.value == Decoded(lines) && forall i :: 0 <= i < |lines| ==> lines[i] == Readable(r.value[i])
  {
    if partialLast { return Err(Incomplete); }
    var entries: seq<Entry> := [];
    ghost var all := Decoded(lines);
    for n := 0 to |lines|
      invariant |entries| == n && ValidLedger(hash, entries) && entries == all[..n]
      invariant forall i :: 0 <= i < n ==> lines[i] == Readable(entries[i])
    {
      if lines[n].Unreadable? { return Err(FailedVerification(n + 1)); }
      var e := lines[n].entry;
      assert all[..n] == entries && all[n] == e;
      assert ValidLedger(hash, all) ==> Linked(hash, all, n);
      if !EntryOk(hash, e, n + 1, HeadHash(entries)) { return Err(FailedVerification(n + 1)); }
      var seen := EntryFor(entries, e.body.mid);
      if seen.Some? {
        ghost var i :| 0 <= i < n && entries[i] == seen.value;
        assert all[i].body.mid == all[n].body.mid;
        return Err(Repeats(e.body.mid, n + 1));
      }
      assert forall i :: 0 <= i < n ==> entries[i] in entries;
      AppendKeepsValid(hash, entries, e);
      entries := entries + [e];
    }
    assert all == entries;
    return Ok(entries);
  }

  function NewEntry(hash: Hash, entries: seq<Entry>, mid: Mid, actor: string, evidence: Digest, at: int): Entry {
    var body := Body(|entries| + 1, mid, at, actor, evidence, HeadHash(entries));
    Entry(body, hash(body))
  }

  /** Appending a decision about a new memorial keeps the ledger valid. */
  lemma AppendKeepsValid(hash: Hash, entries: seq<Entry>, e: Entry)
    requires ValidLedger(hash, entries) && EntryOk(hash, e, |entries| + 1, HeadHash(entries))
    requires EntryFor(entries, e.body.mid).None?
    ensures ValidLedger(hash, entries + [e])
  {
    AppendKeepsLinks(hash, entries, e);
    assert forall i :: 0 <= i < |entries| ==> entries[i] in entries;
  }

  lemma AppendKeepsLinks(hash: Hash, entries: seq<Entry>, e: Entry)
    requires forall i :: 0 <= i < |entries| ==> Linked(hash, entries, i)
    requires EntryOk(hash, e, |entries| + 1, HeadHash(entries))
    ensures forall i :: 0 <= i < |entries + [e]| ==> Linked(hash, entries + [e], i)
  {
    var more := entries + [e];
    forall i | 0 <= i < |more| ensures Linked(hash, more, i) {
      assert i < |entries| ==> Linked(hash, entries, i);
    }
  }

  function Bodies(entries: seq<Entry>): seq<Body> {
    seq(|entries|, i requires 0 <= i < |entries| => entries[i].body)
  }

  function PreviousOf(b: Body): Digest {
    b.previous
  }

  lemma ValidIsChained(hash: Hash, entries: seq<Entry>)
    requires ValidLedger(hash, entries)
    ensures Chained(hash, PreviousOf, Bodies(entries))
    ensures forall i :: 0 <= i < |entries| ==> entries[i].hash == hash(Bodies(entries)[i])
  {
    forall i | 0 <= i < |entries| ensures entries[i].hash == hash(Bodies(entries)[i]) {
      assert Linked(hash, entries, i);
    }
    forall i | 0 < i < |entries| ensures PreviousOf(Bodies(entries)[i]) == hash(Bodies(entries)[i - 1]) {
      assert Linked(hash, entries, i) && Linked(hash, entries, i - 1);
    }
  }

  lemma SameLinkSamePast(hash: Hash, a: seq<Entry>, b: seq<Entry>, n: nat)
    requires Injective(hash) && ValidLedger(hash, a) && ValidLedger(hash, b)
    requires 1 <= n <= |a| && n <= |b| && a[n - 1].hash == b[n - 1].hash
    ensures a[..n] == b[..n]
  {
    ValidIsChained(hash, a);
    ValidIsChained(hash, b);
    SameDigestSamePast(hash, PreviousOf, Bodies(a), Bodies(b), n);
    forall i | 0 <= i < n ensures a[i] == b[i] { assert Bodies(a)[..n][i] == Bodies(b)[..n][i]; }
  }

  /** Two valid ledgers of the same length with the same last hash are the same ledger: nothing below a known
      head can be rewritten. Uses only that the hash is injective. */
  lemma HeadFixesLedger(hash: Hash, a: seq<Entry>, b: seq<Entry>)
    requires Injective(hash)
    requires ValidLedger(hash, a) && ValidLedger(hash, b) && |a| == |b| && HeadHash(a) == HeadHash(b)
    ensures a == b
  {
    if a != [] {
      SameLinkSamePast(hash, a, b, |a|);
      assert a[..|a|] == a && b[..|a|] == b;
    }
  }

  /** The open ledger file, held under its exclusive lock. */
  class Ledger {
    const hash: Hash
    var entries: seq<Entry>
    var lines: seq<Line>  // what the file holds

    ghost predicate Valid()
      reads this
    {
      && ValidLedger(hash, entries)
      && |lines| == |entries| && forall i :: 0 <= i < |lines| ==> lines[i] == Readable(entries[i])
    }

    constructor (hash: Hash, entries: seq<Entry>)
      requires ValidLedger(hash, entries)
      ensures Valid() && this.hash == hash && this.entries == entries
    {
      this.hash, this.entries := hash, entries;
      lines := seq(|entries|, i requires 0 <= i < |entries| => Readable(entries[i]));
    }

    method Append(mid: Mid, actor: string, evidence: Digest, at: int) returns (e: Entry)
      requires Valid() && EntryFor(entries, mid).None?
      modifies this
      ensures Valid() && e == NewEntry(hash, old(entries), mid, actor, evidence, at)
      ensures entries == old(entries) + [e] && lines == old(lines) + [Readable(e)]
    {
      e := NewEntry(hash, entries, mid, actor, evidence, at);
      AppendKeepsValid(hash, entries, e);
      lines := lines + [Readable(e)];
      entries := entries + [e];
    }
  }
}
