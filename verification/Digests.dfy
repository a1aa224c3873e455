/** Digests shared by the hash chains, and what one known digest fixes. */
module Digests {

  // A SHA-256 digest in hexadecimal: the 64 zeros that stand before the first link of a chain, or any other.
  datatype Digest = ZeroHash | Hex(digits: string)

  /** No two materials have the same hash. */
  ghost predicate Injective<M(!new)>(hash: M -> Digest) {
    forall x, y :: hash(x) == hash(y) ==> x == y
  }

  /** What each link after the first hashes names the digest of the link before it. */
  ghost predicate Chained<M>(hash: M -> Digest, previous: M -> Digest, links: seq<M>) {
    forall k :: 0 < k < |links| ==> previous(links[k]) == hash(links[k - 1])
  }

  /** Two chains with the same digest at position n - 1 have the same first n links. */
  lemma {:induction false} SameDigestSamePast<M(!new)>(
      hash: M -> Digest, previous: M -> Digest, c: seq<M>, d: seq<M>, n: nat)
    requires Injective(hash) && Chained(hash, previous, c) && Chained(hash, previous, d)
    requires 1 <= n <= |c| && n <= |d| && hash(c[n - 1]) == hash(d[n - 1])
    ensures c[..n] == d[..n]
  {
    if n > 1 {
      SameDigestSamePast(hash, previous, c, d, n - 1);
      assert c[..n] == c[..n - 1] + [c[n - 1]] && d[..n] == d[..n - 1] + [d[n - 1]];
    } else {
      assert c[..n] == [c[0]] && d[..n] == [d[0]];
    }
  }
}
