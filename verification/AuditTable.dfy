/** The audit table as one caller at a time sees it (remembrance-consent/app/consent/audit.py, `append_event`). */
module AuditTable {
  import opened Wrappers
  import opened Digests
  import opened AuditChain
  import opened AuditAppend

  lemma AcceptedExtends(hash: Hash, anchors: Anchors, rows: seq<Event>, e: Event)
    requires anchors.Valid() && Errors(hash, anchors, rows) == []
    requires var c := Of(rows, e.material.profile);
             LinkOk(hash, c + [e], |c|)
    ensures Errors(hash, anchors, rows + [e]) == []
  {
    AcceptedExactlyWhen(hash, anchors, rows);
    AcceptedExactlyWhen(hash, anchors, rows + [e]);
    forall p: Pid ensures ProfileOk(hash, anchors, rows + [e], p) {
      assert ProfileOk(hash, anchors, rows, p);
      OfConcat(rows, [e], p);
      OfOne(e, p);
      if e.material.profile == p {
        ValidChainExtends(hash, Of(rows, p), e);
        assert Of(rows + [e], p) == Of(rows, p) + [e];
      } else {
        assert Of(rows + [e], p) == Of(rows, p);
      }
    }
  }

  /** Whatever accepted the earlier log accepts the later one. */
  ghost predicate AcceptedStays(hash: Hash, earlier: seq<Event>, later: seq<Event>) {
    forall anchors: Anchors :: anchors.Valid() && Errors(hash, anchors, earlier) == [] ==>
      Errors(hash, anchors, later) == []
  }

  lemma AllAcceptedExtend(hash: Hash, rows: seq<Event>, e: Event)
    requires Errors(hash, Anchors(map[], []), rows) == []
    requires var c := Of(rows, e.material.profile);
             LinkOk(hash, c + [e], |c|)
    ensures AcceptedStays(hash, rows, rows + [e]) && Errors(hash, Anchors(map[], []), rows + [e]) == []
  {
    forall anchors: Anchors | anchors.Valid() && Errors(hash, anchors, rows) == []
      ensures Errors(hash, anchors, rows + [e]) == []
    {
      AcceptedExtends(hash, anchors, rows, e);
    }
    AcceptedExtends(hash, Anchors(map[], []), rows, e);
  }

  class Table {
    const hash: Hash
    var rows: seq<Event>  // in id order

    ghost predicate Valid()
      reads this
    {
      Ascending(rows) && Errors(hash, Anchors(map[], []), rows) == []
    }

    constructor (hash: Hash)
      ensures Valid() && this.hash == hash && rows == []
    {
      this.hash := hash;
      rows := [];
    }

    // SELECT ... WHERE profile = p ORDER BY id DESC LIMIT 1
    method ReadHead(p: Pid) returns (head: Option<Event>)
      requires Ascending(rows)
      ensures IsHead(rows, p, head)
    {
      var n := |rows|;
      while n > 0 && rows[n - 1].material.profile != p
        invariant 0 <= n <= |rows|
        invariant forall i :: n <= i < |rows| ==> rows[i].material.profile != p
      {
        n := n - 1;
      }
      return if n == 0 then None else Some(rows[n - 1]);
    }

    /** Appends one event whose time is never before its predecessor's. What was accepted before, against any
        anchors, still is. */
    method AppendEvent(fields: Fields, now: int) returns (e: Event)
      requires Valid()
      modifies this
      ensures Valid() && rows == old(rows) + [e]
      ensures exists head :: IsHead(old(rows), fields.profile, head) && e.material == Built(fields, head, now)
      ensures AcceptedStays(hash, old(rows), rows)
    {
      var head := ReadHead(fields.profile);
      var m := Built(fields, head, now);
      var id := if rows == [] then 1 else rows[|rows| - 1].id + 1;
      e := Event(id, m, hash(m));
      FollowsHead(hash, rows, head, e);
      AllAcceptedExtend(hash, rows, e);
      rows := rows + [e];
    }
  }

  lemma FollowsHead(hash: Hash, rows: seq<Event>, head: Option<Event>, e: Event)
    requires Ascending(rows) && IsHead(rows, e.material.profile, head) && e.hash == hash(e.material)
    requires e.material.previous == (if head.Some? then head.value.hash else ZeroHash)
    requires head.Some? ==> head.value.material.createdAt <= e.material.createdAt
    ensures var c := Of(rows, e.material.profile);
            LinkOk(hash, c + [e], |c|)
  {
    AscendingOf(rows, e.material.profile);
    HeadIsLast(rows, e.material.profile, head);
  }
}
