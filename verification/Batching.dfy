/** Greedy batching of the chosen files into upload requests (web/app.js, `parts`). `cap` stands for MAX_FILE_BYTES. */
module Batching {

  const MAX_PART_FILES: nat := 500

  datatype File = File(name: string, size: nat)

  datatype Part = Part(files: seq<File>, bytes: nat)

  function Bytes(files: seq<File>): nat {
    if files == [] then 0 else Bytes(files[..|files| - 1]) + files[|files| - 1].size
  }

  function Concat(parts: seq<seq<File>>): seq<File> {
    if parts == [] then [] else Concat(parts[..|parts| - 1]) + parts[|parts| - 1]
  }

  /** A request may carry these files: few enough, and within the cap unless it is one file travelling alone. */
  predicate Fits(files: seq<File>, cap: nat) {
    0 < |files| <= MAX_PART_FILES && (Bytes(files) <= cap || |files| == 1)
  }

  ghost predicate IsSplit(parts: seq<seq<File>>, files: seq<File>, cap: nat) {
    Concat(parts) == files && forall i :: 0 <= i < |parts| ==> Fits(parts[i], cap)
  }

  function FilesOf(parts: seq<Part>): seq<seq<File>> {
    seq(|parts|, i requires 0 <= i < |parts| => parts[i].files)
  }

  ghost predicate Counted(parts: seq<Part>) {
    forall i :: 0 <= i < |parts| ==> parts[i].bytes == Bytes(parts[i].files)
  }

  // ---- the greedy split ----

  function Pushed(parts: seq<seq<File>>, f: File, cap: nat): seq<seq<File>> {
    var n := |parts|;
    if n > 0 && Bytes(parts[n - 1]) + f.size <= cap && |parts[n - 1]| < MAX_PART_FILES
    then parts[..n - 1] + [parts[n - 1] + [f]]
    else parts + [[f]]
  }

  function Greedy(files: seq<File>, cap: nat): seq<seq<File>> {
    if files == [] then [] else Pushed(Greedy(files[..|files| - 1], cap), files[|files| - 1], cap)
  }

  lemma BytesPush(files: seq<File>, f: File)
    ensures Bytes(files + [f]) == Bytes(files) + f.size
  {
  }

  lemma PushedConcat(parts: seq<seq<File>>, f: File, cap: nat)
    ensures Concat(Pushed(parts, f, cap)) == Concat(parts) + [f]
  {
  }

  lemma PushedFits(parts: seq<seq<File>>, f: File, cap: nat)
    requires forall i :: 0 <= i < |parts| ==> Fits(parts[i], cap)
    ensures forall i :: 0 <= i < |Pushed(parts, f, cap)| ==> Fits(Pushed(parts, f, cap)[i], cap)
  {
  }

  /** Greedy batching keeps all files, in order, and every request within the limits. */
  lemma {:induction false} GreedyIsSplit(files: seq<File>, cap: nat)
    ensures IsSplit(Greedy(files, cap), files, cap)
    ensures files != [] ==> Greedy(files, cap) != []
  {
    if files != [] {
      var n := |files| - 1;
      GreedyIsSplit(files[..n], cap);
      assert files == files[..n] + [files[n]];
      PushedConcat(Greedy(files[..n], cap), files[n], cap);
      PushedFits(Greedy(files[..n], cap), files[n], cap);
    }
  }

  method Push(out: seq<Part>, f: File, cap: nat) returns (r: seq<Part>)
    requires Counted(out)
    ensures FilesOf(r) == Pushed(FilesOf(out), f, cap) && Counted(r)
  {
    var n := |out|;
    if n > 0 && out[n - 1].bytes + f.size <= cap && |out[n - 1].files| < MAX_PART_FILES {
      r := Extended(out, Part(out[n - 1].files + [f], out[n - 1].bytes + f.size), n - 1);
      BytesPush(out[n - 1].files, f);
      FilesOfExtended(out, Part(out[n - 1].files + [f], out[n - 1].bytes + f.size), n - 1);
    } else {
      r := Extended(out, Part([f], f.size), n);
      BytesOne(f);
      FilesOfExtended(out, Part([f], f.size), n);
      assert FilesOf(out)[..n] == FilesOf(out);
    }
  }

  function Extended(out: seq<Part>, p: Part, n: nat): seq<Part>
    requires n <= |out|
  {
    out[..n] + [p]
  }

  lemma FilesOfExtended(out: seq<Part>, p: Part, n: nat)
    requires n <= |out| && Counted(out) && p.bytes == Bytes(p.files)
    ensures FilesOf(Extended(out, p, n)) == FilesOf(out)[..n] + [p.files] && Counted(Extended(out, p, n))
  {
  }

  lemma BytesOne(f: File)
    ensures Bytes([f]) == f.size
  {
  }

  method Parts(files: seq<File>, cap: nat) returns (out: seq<Part>)
    ensures FilesOf(out) == Greedy(files, cap) && Counted(out)
    ensures IsSplit(FilesOf(out), files, cap)
  {
    out := [];
    for n := 0 to |files|
      invariant FilesOf(out) == Greedy(files[..n], cap) && Counted(out)
    {
      assert files[..n + 1][..n] == files[..n];
      out := Push(out, files[n], cap);
    }
    assert files[..|files|] == files;
    GreedyIsSplit(files, cap);
  }

  // ---- optimality ----

  lemma {:induction false} BytesOfSuffix(files: seq<File>, k: nat)
    requires k <= |files|
    ensures Bytes(files[k..]) <= Bytes(files)
  {
    if k < |files| {
      var n := |files| - 1;
      assert files[k..][..n - k] == files[..n][k..];
      BytesOfSuffix(files[..n], k);
    } else {
      assert files[k..] == [];
    }
  }

  // The last request of a split holds the last files.
  lemma LastIsSuffix(parts: seq<seq<File>>)
    requires parts != []
    ensures var last, all := parts[|parts| - 1], Concat(parts);
            |last| <= |all| && all[|all| - |last|..] == last
  {
  }

  // The split without its last file.
  function WithoutLast(parts: seq<seq<File>>): seq<seq<File>>
    requires parts != [] && parts[|parts| - 1] != []
  {
    var m := |parts| - 1;
    if |parts[m]| == 1 then parts[..m] else parts[..m] + [parts[m][..|parts[m]| - 1]]
  }

  lemma WithoutLastIsSplit(parts: seq<seq<File>>, files: seq<File>, cap: nat)
    requires IsSplit(parts, files, cap) && files != []
    ensures parts != [] && parts[|parts| - 1] != []
    ensures IsSplit(WithoutLast(parts), files[..|files| - 1], cap)
  {
  }

  function LastLength(parts: seq<seq<File>>): nat {
    if parts == [] then 0 else |parts[|parts| - 1]|
  }

  // Greedy has used fewer requests, or as many and has no more files in the last one.
  ghost predicate Ahead(greedy: seq<seq<File>>, parts: seq<seq<File>>) {
    |greedy| < |parts| || (|greedy| == |parts| && LastLength(greedy) <= LastLength(parts))
  }

  lemma {:induction false} GreedyStaysAhead(parts: seq<seq<File>>, files: seq<File>, cap: nat)
    requires IsSplit(parts, files, cap)
    ensures Ahead(Greedy(files, cap), parts)
    decreases |files|
  {
    if files != [] {
      var n := |files| - 1;
      WithoutLastIsSplit(parts, files, cap);
      GreedyStaysAhead(WithoutLast(parts), files[..n], cap);
      OneMoreFile(parts, files, cap);
    }
  }

  lemma OneMoreFile(parts: seq<seq<File>>, files: seq<File>, cap: nat)
    requires files != [] && IsSplit(parts, files, cap) && parts != [] && parts[|parts| - 1] != []
    requires Ahead(Greedy(files[..|files| - 1], cap), WithoutLast(parts))
    ensures Ahead(Greedy(files, cap), parts)
  {
    var n, m := |files| - 1, |parts| - 1;
    var before := Greedy(files[..n], cap);
    PushedShape(before, files[n], cap);
    WithoutLastShape(parts);
    if |parts[m]| > 1 && |before| == |parts| {
      GreedyIsSplit(files[..n], cap);
      LastIsSuffix(before);
      LastIsSuffix(parts);
      assert Fits(parts[m], cap);
      RoomForOneMore(before[|before| - 1], parts[m], files, cap);
    }
  }

  predicate HasRoom(parts: seq<seq<File>>, f: File, cap: nat) {
    var n := |parts|;
    n > 0 && Bytes(parts[n - 1]) + f.size <= cap && |parts[n - 1]| < MAX_PART_FILES
  }

  lemma PushedShape(parts: seq<seq<File>>, f: File, cap: nat)
    ensures HasRoom(parts, f, cap) ==>
              |Pushed(parts, f, cap)| == |parts| && LastLength(Pushed(parts, f, cap)) == LastLength(parts) + 1
    ensures !HasRoom(parts, f, cap) ==> |Pushed(parts, f, cap)| == |parts| + 1 && LastLength(Pushed(parts, f, cap)) == 1
  {
  }

  lemma WithoutLastShape(parts: seq<seq<File>>)
    requires parts != [] && parts[|parts| - 1] != []
    ensures LastLength(parts) == 1 ==> |WithoutLast(parts)| == |parts| - 1
    ensures LastLength(parts) > 1 ==>
              |WithoutLast(parts)| == |parts| && LastLength(WithoutLast(parts)) == LastLength(parts) - 1
  {
  }

  // Greedy's last request is part of the split's last one, so it has room for the next file too.
  lemma RoomForOneMore(own: seq<File>, last: seq<File>, files: seq<File>, cap: nat)
    requires files != [] && |own| < |last| <= |files| && last == files[|files| - |last|..]
    requires own == files[..|files| - 1][|files| - 1 - |own|..] && own != []
    requires Fits(last, cap)
    ensures Bytes(own) + files[|files| - 1].size <= cap && |own| < MAX_PART_FILES
  {
    var n, k := |files| - 1, |last| - (|own| + 1);
    assert own + [files[n]] == last[k..];
    BytesOfSuffix(last, k);
    BytesPush(own, files[n]);
  }

  /** No way to cut the files, in their order, into requests within the limits needs fewer requests. */
  lemma GreedyIsOptimal(parts: seq<seq<File>>, files: seq<File>, cap: nat)
    requires IsSplit(parts, files, cap)
    ensures |Greedy(files, cap)| <= |parts|
  {
    GreedyStaysAhead(parts, files, cap);
  }

  /** When no file exceeds the cap, no request does. */
  lemma {:induction false} WithinCap(files: seq<File>, cap: nat)
    requires forall f :: f in files ==> f.size <= cap
    ensures forall i :: 0 <= i < |Greedy(files, cap)| ==> Bytes(Greedy(files, cap)[i]) <= cap
  {
    if files != [] {
      var n, f := |files| - 1, files[|files| - 1];
      assert f in files && forall g :: g in files[..n] ==> g in files;
      WithinCap(files[..n], cap);
      var before := Greedy(files[..n], cap);
      if before != [] { BytesPush(before[|before| - 1], f); }
      BytesOne(f);
    }
  }
}
