/** Names of media files, and which of them name a file directly in the media directory
    (remembrance/erasure.py, `_apply`). */
module MediaNames {

  type Filename = string

  // A name without a directory part.
  predicate Safe(name: Filename) {
    '/' !in name && name != "" && name != "." && name != ".."
  }

  // ---- what the operating system makes of a name ----

  /** The parts of a path between its slashes. */
  function Parts(path: string): (parts: seq<string>)
    ensures parts != []
  {
    if path == [] then [""]
    else if path[0] == '/' then [""] + Parts(path[1..])
    else var rest := Parts(path[1..]); [[path[0]] + rest[0]] + rest[1..]
  }

  // One part leads from a directory to another or to a file in it.
  function Into(at: seq<string>, part: string): seq<string> {
    if part == "" || part == "." then at
    else if part == ".." then (if at == [] then [] else at[..|at| - 1])
    else at + [part]
  }

  function Walk(at: seq<string>, parts: seq<string>): seq<string>
    decreases parts
  {
    if parts == [] then at else Walk(Into(at, parts[0]), parts[1..])
  }

  /** Where a name leads from a directory; one that starts with a slash starts from the root. */
  function Resolve(directory: seq<string>, name: Filename): seq<string> {
    Walk(if name != [] && name[0] == '/' then [] else directory, Parts(name))
  }

  function Joined(parts: seq<string>): string
    requires parts != []
  {
    if |parts| == 1 then parts[0] else parts[0] + ['/'] + Joined(parts[1..])
  }

  /** The parts and the slashes between them make up the path. */
  lemma {:induction false} PartsMakeThePath(path: string)
    ensures Joined(Parts(path)) == path
  {
    if path != [] {
      PartsMakeThePath(path[1..]);
      OneMoreCharacter(path[0], Parts(path[1..]));
      assert path == [path[0]] + path[1..];
    }
  }

  lemma OneMoreCharacter(ch: char, rest: seq<string>)
    requires rest != []
    ensures Joined([""] + rest) == ['/'] + Joined(rest)
    ensures Joined([[ch] + rest[0]] + rest[1..]) == [ch] + Joined(rest)
  {
    assert ([""] + rest)[1..] == rest;
    assert "" + ['/'] == ['/'];
    var longer := [[ch] + rest[0]] + rest[1..];
    assert longer[1..] == rest[1..];
    if |rest| > 1 { Regrouped([ch], rest[0], Joined(rest[1..])); }
  }

  lemma Regrouped(a: string, b: string, c: string)
    ensures (a + b) + ['/'] + c == a + (b + ['/'] + c)
  {
  }

  lemma {:induction false} PartsHaveNoSlash(path: string)
    ensures forall part :: part in Parts(path) ==> '/' !in part
    ensures '/' !in path ==> Parts(path) == [path]
  {
    if path != [] {
      PartsHaveNoSlash(path[1..]);
      assert path == [path[0]] + path[1..];
    }
  }

  // Where a walk ends: no part it ever entered holds a slash.
  lemma {:induction false} WalkEndsInPart(at: seq<string>, parts: seq<string>, base: nat)
    requires forall part :: part in parts ==> '/' !in part
    requires base <= |at| && forall i :: base <= i < |at| ==> '/' !in at[i]
    ensures forall i :: base <= i < |Walk(at, parts)| ==> '/' !in Walk(at, parts)[i]
    decreases parts
  {
    if parts != [] {
      assert parts[0] in parts;
      var next := Into(at, parts[0]);
      if |next| >= base {
        WalkEndsInPart(next, parts[1..], base);
      } else {
        WalkEndsInPart(next, parts[1..], |next|);
      }
    }
  }

  /** The safe names are exactly those that lead, from whatever directory, to the file of that name in it: unlinking
      one can reach nothing else. */
  lemma SafeExactlyWhenInDirectory(directory: seq<string>, name: Filename)
    ensures Safe(name) <==> Resolve(directory, name) == directory + [name]
  {
    PartsHaveNoSlash(name);
    if '/' in name {
      var from := if name[0] == '/' then [] else directory;
      WalkEndsInPart(from, Parts(name), |from|);
      assert (directory + [name])[|directory|] == name;
    } else {
      assert Walk(directory, [name]) == Walk(Into(directory, name), []);
    }
  }
}
