/** The greatest elements of a finite set under a strict total order. */
module Ranking {
  import opened Collections

  type Order<!T> = (T, T) -> bool

  /** `above` orders the elements of s strictly and totally. */
  ghost predicate Orders<T(!new)>(above: Order<T>, s: set<T>) {
    && (forall x :: x in s ==> !above(x, x))
    && (forall x, y, z {:trigger above(x, y), above(y, z)} ::
        x in s && y in s && z in s && above(x, y) && above(y, z) ==> above(x, z))
    && (forall x, y {:trigger above(x, y)} {:trigger above(y, x)} :: x in s && y in s && x != y ==>
        above(x, y) || above(y, x))
  }

  function Above<T>(above: Order<T>, s: set<T>, x: T): set<T> {
    set y | y in s && above(y, x)
  }

  /** The elements with fewer than count elements above them. */
  function Top<T>(above: Order<T>, s: set<T>, count: nat): set<T> {
    set x | x in s && |Above(above, s, x)| < count
  }

  lemma {:induction false} HasGreatest<T(!new)>(above: Order<T>, s: set<T>) returns (m: T)
    requires Orders(above, s) && s != {}
    ensures m in s && forall x :: x in s && x != m ==> above(m, x)
    decreases s
  {
    var any :| any in s;
    var rest := s - {any};
    m := any;
    if rest != {} {
      var n := HasGreatest(above, rest);
      m := if above(any, n) then any else n;
      forall x | x in s && x != m ensures above(m, x) {
        assert x != any ==> x in rest;
        assert x in rest && x != n ==> above(n, x);
      }
    } else {
      assert s == {any};
    }
  }

  // Taking the greatest element off the set takes it off its top.
  lemma TopWithoutGreatest<T(!new)>(above: Order<T>, s: set<T>, count: nat, m: T)
    requires Orders(above, s) && m in s && (forall x :: x in s && x != m ==> above(m, x)) && count > 0
    ensures Top(above, s, count) == Top(above, s - {m}, count - 1) + {m}
  {
    assert Above(above, s, m) == {};
    forall x | x in s && x != m ensures |Above(above, s, x)| == |Above(above, s - {m}, x)| + 1 {
      assert Above(above, s, x) == Above(above, s - {m}, x) + {m};
    }
  }

  // The same by sizes only.
  lemma TopSizeStep<T(!new)>(above: Order<T>, s: set<T>, count: nat) returns (rest: set<T>)
    requires Orders(above, s) && 0 < count <= |s|
    ensures Orders(above, rest) && count - 1 <= |rest|
    ensures |Top(above, s, count)| == |Top(above, rest, count - 1)| + 1
  {
    var m := HasGreatest(above, s);
    TopWithoutGreatest(above, s, count, m);
    rest := s - {m};
    assert m !in Top(above, rest, count - 1);
  }

  lemma TopOfNothing<T>(above: Order<T>, s: set<T>)
    ensures |Top(above, s, 0)| == 0
  {
  }

  lemma TopIsAll<T(!new)>(above: Order<T>, s: set<T>, count: nat)
    requires Orders(above, s) && |s| <= count
    ensures Top(above, s, count) == s
  {
    forall x | x in s ensures |Above(above, s, x)| < count {
      SubsetSize(Above(above, s, x), s);
    }
  }

  lemma {:induction false} TopSize<T(!new)>(above: Order<T>, s: set<T>, count: nat)
    requires Orders(above, s) && count <= |s|
    ensures |Top(above, s, count)| == count
    decreases count
  {
    if count == 0 {
      TopOfNothing(above, s);
    } else {
      var rest := TopSizeStep(above, s, count);
      TopSize(above, rest, count - 1);
    }
  }

  lemma TopIsClosed<T(!new)>(above: Order<T>, s: set<T>, count: nat, x: T, y: T)
    requires Orders(above, s) && x in Top(above, s, count) && y in s && above(y, x)
    ensures y in Top(above, s, count)
  {
    SubsetSize(Above(above, s, y), Above(above, s, x));
  }

  /** Keeping the top of one part before adding the rest loses nothing. */
  lemma TopOfTop<T(!new)>(above: Order<T>, a: set<T>, b: set<T>, count: nat)
    requires Orders(above, a + b)
    ensures Top(above, Top(above, a, count) + b, count) == Top(above, a + b, count)
  {
    var kept := Top(above, a, count);
    forall x | x in a + b ensures x in Top(above, kept + b, count) <==> x in Top(above, a + b, count) {
      SubsetSize(Above(above, kept + b, x), Above(above, a + b, x));
      SubsetSize(Above(above, a, x), Above(above, a + b, x));
      if x in Top(above, kept + b, count) {
        NothingHidden(above, a, b, count, x);
      }
    }
  }

  // What stands above an element of the new top was not lost to the first cut.
  lemma NothingHidden<T(!new)>(above: Order<T>, a: set<T>, b: set<T>, count: nat, x: T)
    requires Orders(above, a + b) && x in Top(above, Top(above, a, count) + b, count)
    ensures x in Top(above, a + b, count)
  {
    var kept := Top(above, a, count);
    var hidden := Above(above, a, x) - kept;
    if hidden == {} {
      forall y | y in Above(above, a + b, x) ensures y in Above(above, kept + b, x) {
        assert y !in hidden;
      }
      assert Above(above, a + b, x) == Above(above, kept + b, x);
    } else {
      var z :| z in hidden;
      forall t | t in kept ensures t in Above(above, kept + b, x) {
        if !above(t, z) {
          SubsetSize(Above(above, a, z), Above(above, a, t));
        }
      }
      SubsetSize(Above(above, a, z), a);
      TopSize(above, a, count);
      SubsetSize(kept, Above(above, kept + b, x));
    }
  }

  ghost predicate Embeds<S(!new), T>(f: S -> T, above: Order<S>, s: set<S>, aboveT: Order<T>) {
    forall x, y :: x in s && y in s ==> (f(x) == f(y) ==> x == y) && (above(x, y) <==> aboveT(f(x), f(y)))
  }

  function Image<S, T>(f: S -> T, s: set<S>): set<T> {
    set x | x in s :: f(x)
  }

  lemma {:induction false} ImageSize<S(!new), T>(f: S -> T, s: set<S>)
    requires forall x, y :: x in s && y in s && f(x) == f(y) ==> x == y
    ensures |Image(f, s)| == |s|
    decreases s
  {
    if s != {} {
      var x :| x in s;
      ImageSize(f, s - {x});
      assert Image(f, s) == Image(f, s - {x}) + {f(x)};
    }
  }

  /** Renaming elements renames the top. */
  lemma TopOfImage<S(!new), T(!new)>(f: S -> T, above: Order<S>, s: set<S>, aboveT: Order<T>, count: nat)
    requires Embeds(f, above, s, aboveT)
    ensures Image(f, Top(above, s, count)) == Top(aboveT, Image(f, s), count)
  {
    var image := Image(f, s);
    forall x | x in s ensures |Above(above, s, x)| == |Above(aboveT, image, f(x))| {
      ImageSize(f, Above(above, s, x));
      assert Image(f, Above(above, s, x)) == Above(aboveT, image, f(x));
    }
  }

  /** The first `count` elements of any listing sorted from the greatest down are the top. */
  lemma SortedPrefixIsTop<T(!new)>(above: Order<T>, ranked: seq<T>, s: set<T>, count: nat)
    requires Orders(above, s) && (forall x :: x in ranked <==> x in s) && count <= |ranked|
    requires forall i, j :: 0 <= i < j < |ranked| ==> above(ranked[i], ranked[j])
    ensures (set x | x in ranked[..count]) == Top(above, s, count)
  {
    forall k | 0 <= k < |ranked| ensures |Above(above, s, ranked[k])| == k {
      SortedRank(above, ranked, s, k);
    }
    forall x | x in s ensures x in ranked[..count] <==> x in Top(above, s, count) {
      var k :| 0 <= k < |ranked| && ranked[k] == x;
      if k < count { assert ranked[..count][k] == x; }
      if x in ranked[..count] {
        var i :| 0 <= i < count && ranked[i] == x;
      }
    }
  }

  lemma SortedRank<T(!new)>(above: Order<T>, ranked: seq<T>, s: set<T>, k: nat)
    requires Orders(above, s) && (forall x :: x in ranked <==> x in s) && k < |ranked|
    requires forall i, j :: 0 <= i < j < |ranked| ==> above(ranked[i], ranked[j])
    ensures |Above(above, s, ranked[k])| == k
  {
    forall x | x in s ensures above(x, ranked[k]) <==> x in ranked[..k] {
      var i :| 0 <= i < |ranked| && ranked[i] == x;
      if i < k { assert ranked[..k][i] == x; }
      if x in ranked[..k] {
        var j :| 0 <= j < k && ranked[j] == x;
      }
    }
    assert Above(above, s, ranked[k]) == set x | x in ranked[..k];
    PrefixSize(above, ranked, s, k);
  }

  lemma {:induction false} PrefixSize<T(!new)>(above: Order<T>, ranked: seq<T>, s: set<T>, k: nat)
    requires Orders(above, s) && (forall x :: x in ranked ==> x in s) && k <= |ranked|
    requires forall i, j :: 0 <= i < j < |ranked| ==> above(ranked[i], ranked[j])
    ensures |set x | x in ranked[..k]| == k
  {
    if k > 0 {
      PrefixSize(above, ranked, s, k - 1);
      assert ranked[..k] == ranked[..k - 1] + [ranked[k - 1]];
      forall i | 0 <= i < k - 1 ensures ranked[i] != ranked[k - 1] {
        assert above(ranked[i], ranked[k - 1]) && ranked[i] in s;
      }
      var prefix := ranked[..k - 1];
      var shorter := set x | x in prefix;
      assert (set x | x in ranked[..k]) == shorter + {ranked[k - 1]};
    }
  }
}
