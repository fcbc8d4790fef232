/** The bytes that are hashed into a fingerprint of a set of files
    (integrations/common/install_state.py, fingerprint_paths).
 */
module Fingerprint {
  import opened Options
  import opened Octets
  import Sorting

  type Name = Bytes

  datatype File = File(mode: nat, content: Bytes)

  datatype Entry = Entry(name: Name, file: File)

  // A requested path: relative to the root, or absolute or the root itself.
  datatype Path = Relative(name: Name) | Unusable

  // ------------------------------------------------------------- big-endian numbers

  function Power256(k: nat): nat {
    if k == 0 then 1 else 256 * Power256(k - 1)
  }

  function BigEndian(n: nat, k: nat): (r: Bytes)
    ensures |r| == k
  {
    if k == 0 then [] else BigEndian(n / 256, k - 1) + [n % 256]
  }

  function FromBigEndian(s: Bytes): nat {
    if s == [] then 0 else 256 * FromBigEndian(s[..|s| - 1]) + s[|s| - 1]
  }

  lemma {:induction false} BigEndianReads(n: nat, k: nat)
    requires n < Power256(k)
    ensures FromBigEndian(BigEndian(n, k)) == n
  {
    if k > 0 {
      BigEndianReads(n / 256, k - 1);
      assert BigEndian(n, k)[..k - 1] == BigEndian(n / 256, k - 1);
    }
  }

  // ---------------------------------------------------------------------- the stream

  // What the widths of the fields allow; no file system exceeds it.
  ghost predicate Fits(e: Entry) {
    |e.name| < Power256(8) && e.file.mode < Power256(4) && |e.file.content| < Power256(8)
  }

  function Record(e: Entry): Bytes {
    BigEndian(|e.name|, 8) + e.name + BigEndian(e.file.mode, 4) + BigEndian(|e.file.content|, 8) + e.file.content
  }

  function Stream(entries: seq<Entry>): Bytes {
    if entries == [] then [] else Stream(entries[..|entries| - 1]) + Record(entries[|entries| - 1])
  }

  // One entry read back from the front of a stream, with the rest.
  function ReadEntry(s: Bytes): Option<(Entry, Bytes)> {
    if |s| < 8 then None
    else
      var n := FromBigEndian(s[..8]);
      if |s| < n + 20 then None
      else
        var size := FromBigEndian(s[n + 12..n + 20]);
        if |s| < n + 20 + size then None
        else Some((Entry(s[8..n + 8], File(FromBigEndian(s[n + 8..n + 12]), s[n + 20..n + 20 + size])),
          s[n + 20 + size..]))
  }

  function Decode(s: Bytes): Option<seq<Entry>>
    decreases |s|
  {
    if s == [] then Some([])
    else
      var first := ReadEntry(s);
      if first.None? then None
      else
        var rest := Decode(first.value.1);
        if rest.None? then None else Some([first.value.0] + rest.value)
  }

  lemma EntryReadsBack(e: Entry, rest: Bytes)
    requires Fits(e)
    ensures ReadEntry(Record(e) + rest) == Some((e, rest))
  {
    var s := Record(e) + rest;
    var n, size := |e.name|, |e.file.content|;
    BigEndianReads(n, 8);
    BigEndianReads(e.file.mode, 4);
    BigEndianReads(size, 8);
    assert s[..8] == BigEndian(n, 8);
    assert s[8..n + 8] == e.name;
    assert s[n + 8..n + 12] == BigEndian(e.file.mode, 4);
    assert s[n + 12..n + 20] == BigEndian(size, 8);
    assert s[n + 20..n + 20 + size] == e.file.content;
    assert s[n + 20 + size..] == rest;
  }

  lemma {:induction false} StreamFirst(e: Entry, entries: seq<Entry>)
    ensures Stream([e] + entries) == Record(e) + Stream(entries)
  {
    var all := [e] + entries;
    if entries == [] {
      assert all[..0] == [];
    } else {
      var n := |entries| - 1;
      assert all[..|all| - 1] == [e] + entries[..n];
      StreamFirst(e, entries[..n]);
      Regroup(Record(e), Stream(entries[..n]), Record(entries[n]));
    }
  }

  lemma Regroup(a: Bytes, b: Bytes, c: Bytes)
    ensures a + b + c == a + (b + c)
  {
  }

  /** A stream decodes back to the entries it was made of. */
  lemma {:induction false} StreamDecodes(entries: seq<Entry>)
    requires forall i :: 0 <= i < |entries| ==> Fits(entries[i])
    ensures Decode(Stream(entries)) == Some(entries)
  {
    if entries != [] {
      assert entries == [entries[0]] + entries[1..];
      StreamFirst(entries[0], entries[1..]);
      StreamDecodes(entries[1..]);
      EntryReadsBack(entries[0], Stream(entries[1..]));
    }
  }

  // ----------------------------------------------------------------- fingerprinting

  function Less(): (Name, Name) -> bool {
    (a, b) => Sorting.LexLess(a, b)
  }

  function NameOf(): Path -> Option<Name> {
    (p: Path) => if p.Relative? then Some(p.name) else None
  }

  function Names(paths: seq<Path>): seq<Name> {
    Sorting.Collect(NameOf(), paths)
  }

  lemma {:induction false} NamesAt(paths: seq<Path>)
    requires forall i :: 0 <= i < |paths| ==> paths[i].Relative?
    ensures |Names(paths)| == |paths|
    ensures forall i :: 0 <= i < |paths| ==> Names(paths)[i] == paths[i].name
  {
    if paths != [] {
      NamesAt(paths[..|paths| - 1]);
    }
  }

  function Entries(files: map<Name, File>, names: seq<Name>): (r: seq<Entry>)
    requires forall n :: n in names ==> n in files
    ensures |r| == |names| && forall i :: 0 <= i < |names| ==> r[i] == Entry(names[i], files[names[i]])
  {
    if names == [] then []
    else
      var n := |names| - 1;
      assert names == names[..n] + [names[n]];
      Entries(files, names[..n]) + [Entry(names[n], files[names[n]])]
  }

  // Every path relative, and none twice.
  ghost predicate Normalized(paths: seq<Path>) {
    && (forall i :: 0 <= i < |paths| ==> paths[i].Relative?)
    && forall i, j :: 0 <= i < j < |paths| ==> paths[i] != paths[j]
  }

  // Some path, every path relative, none twice, and every file readable.
  ghost predicate Acceptable(files: map<Name, File>, paths: seq<Path>) {
    paths != [] && Normalized(paths) && forall i :: 0 <= i < |paths| ==> paths[i].name in files
  }

  // What is hashed, file by file in the order of the names.
  class Digest {
    var fed: Bytes

    constructor ()
      ensures fed == []
    {
      fed := [];
    }

    method Update(bytes: Bytes)
      modifies this
      ensures fed == old(fed) + bytes
    {
      fed := fed + bytes;
    }
  }

  // How much of the file each read returns; at least a byte until its end.
  method FeedContent(digest: Digest, content: Bytes, sizes: seq<nat>)
    modifies digest
    ensures digest.fed == old(digest.fed) + content
  {
    var at, turn := 0, 0;
    while at < |content|
      invariant at <= |content| && digest.fed == old(digest.fed) + content[..at]
      decreases |content| - at
    {
      var most := if turn < |sizes| && 0 < sizes[turn] <= 65536 then sizes[turn] else 65536;
      var end := if at + most < |content| then at + most else |content|;
      digest.Update(content[at..end]);
      assert content[..end] == content[..at] + content[at..end];
      at, turn := end, turn + 1;
    }
    assert content[..|content|] == content;
  }

  method FingerprintFile(digest: Digest, files: map<Name, File>, name: Name, sizes: seq<nat>) returns (ok: bool)
    modifies digest
    ensures ok <==> name in files
    ensures ok ==> digest.fed == old(digest.fed) + Record(Entry(name, files[name]))
  {
    if name !in files {
      return false;
    }
    var file := files[name];
    digest.Update(BigEndian(|name|, 8));
    digest.Update(name);
    digest.Update(BigEndian(file.mode, 4));
    digest.Update(BigEndian(|file.content|, 8));
    FeedContent(digest, file.content, sizes);
    ok := true;
  }

  // The relative names, unless a path is unusable or comes twice.
  method Normalize(paths: seq<Path>) returns (names: Option<seq<Name>>)
    ensures names.Some? <==> Normalized(paths)
    ensures names.Some? ==> names.value == Names(paths)
  {
    var seen: set<Name>, normalized := {}, [];
    for i := 0 to |paths|
      invariant forall k :: 0 <= k < i ==> paths[k].Relative?
      invariant forall k :: 0 <= k < i ==> paths[k].name in seen
      invariant forall n :: n in seen ==> exists k :: 0 <= k < i && paths[k].Relative? && paths[k].name == n
      invariant forall k, m :: 0 <= k < m < i ==> paths[k] != paths[m]
      invariant normalized == Names(paths[..i])
    {
      if paths[i].Unusable? || paths[i].name in seen {
        return None;
      }
      assert paths[..i + 1][..i] == paths[..i];
      seen := seen + {paths[i].name};
      normalized := normalized + [paths[i].name];
    }
    assert paths[..|paths|] == paths;
    names := Some(normalized);
  }

  function Ordered(paths: seq<Path>): seq<Name> {
    Sorting.Sort(Less(), Names(paths))
  }

  lemma OrderedNamesAreFiles(files: map<Name, File>, paths: seq<Path>)
    ensures forall n :: n in Ordered(paths) <==> n in Names(paths)
    ensures Acceptable(files, paths) ==> forall n :: n in Ordered(paths) ==> n in files
  {
    Sorting.SameElements(Ordered(paths), Names(paths));
    if Acceptable(files, paths) {
      NamesAt(paths);
    }
  }

  // What is hashed for the given paths.
  ghost function Fed(files: map<Name, File>, paths: seq<Path>): Bytes
    requires Acceptable(files, paths)
  {
    OrderedNamesAreFiles(files, paths);
    Stream(Entries(files, Ordered(paths)))
  }

  method FingerprintPaths(files: map<Name, File>, paths: seq<Path>, sizes: seq<nat>) returns (fed: Option<Bytes>)
    ensures fed.Some? <==> Acceptable(files, paths)
    ensures fed.Some? ==> fed.value == Fed(files, paths)
  {
    var names := Normalize(paths);
    if names.None? {
      return None;
    }
    NamesAt(paths);
    if names.value == [] {
      return None;
    }
    fed := FingerprintNames(files, paths, names.value, sizes);
  }

  method FingerprintNames(files: map<Name, File>, ghost paths: seq<Path>, names: seq<Name>, sizes: seq<nat>)
    returns (fed: Option<Bytes>)
    requires Normalized(paths) && paths != [] && names == Names(paths)
    ensures fed.Some? <==> Acceptable(files, paths)
    ensures fed.Some? ==> fed.value == Fed(files, paths)
  {
    var order := Sorting.Sort(Less(), names);
    var digest := new Digest();
    var ok := FeedAll(digest, files, order, sizes);
    AllNamesReadable(files, paths, order);
    fed := if ok then Some(digest.fed) else None;
  }

  method FeedAll(digest: Digest, files: map<Name, File>, order: seq<Name>, sizes: seq<nat>) returns (ok: bool)
    requires digest.fed == []
    modifies digest
    ensures ok <==> forall n :: n in order ==> n in files
    ensures ok ==> digest.fed == Stream(Entries(files, order))
  {
    for i := 0 to |order|
      invariant forall n :: n in order[..i] ==> n in files
      invariant digest.fed == Stream(Entries(files, order[..i]))
    {
      ok := FingerprintFile(digest, files, order[i], sizes);
      if !ok {
        assert order[i] in order;
        return;
      }
      EntriesNext(files, order, i);
    }
    assert order[..|order|] == order;
    ok := true;
  }

  lemma EntriesNext(files: map<Name, File>, order: seq<Name>, i: nat)
    requires i < |order| && order[i] in files && forall n :: n in order[..i] ==> n in files
    ensures forall n :: n in order[..i + 1] ==> n in files
    ensures Stream(Entries(files, order[..i + 1]))
         == Stream(Entries(files, order[..i])) + Record(Entry(order[i], files[order[i]]))
  {
    var more := order[..i + 1];
    assert more[..i] == order[..i] && more == order[..i] + [order[i]];
    var e := Entries(files, order[..i]);
    assert Entries(files, more) == e + [Entry(order[i], files[order[i]])];
    assert Entries(files, more)[..i] == e;
  }

  lemma AllNamesReadable(files: map<Name, File>, paths: seq<Path>, order: seq<Name>)
    requires Normalized(paths) && paths != [] && order == Ordered(paths)
    ensures Acceptable(files, paths) <==> forall n :: n in order ==> n in files
  {
    NamesAt(paths);
    OrderedNamesAreFiles(files, paths);
    if forall n :: n in order ==> n in files {
      forall i | 0 <= i < |paths|
        ensures paths[i].name in files
      {
        assert Names(paths)[i] in Names(paths);
      }
    }
  }

  // ---------------------------------------------------------------- what it proves

  lemma NamesAreUntied(names: seq<Name>)
    ensures Sorting.StrictOrder(Less()) && Sorting.TotalOn(Less(), names)
  {
    forall a: Name
      ensures !Less()(a, a)
    {
      Sorting.LexIrreflexive(a);
    }
    forall a: Name, b: Name, c: Name | Less()(a, b) && Less()(b, c)
      ensures Less()(a, c)
    {
      Sorting.LexTransitive(a, b, c);
    }
    forall a, b | a in names && b in names && a != b
      ensures Less()(a, b) || Less()(b, a)
    {
      Sorting.LexTotal(a, b);
    }
  }

  /** The order in which the paths are given never matters. */
  lemma PathOrderIsForgotten(files: map<Name, File>, p: seq<Path>, q: seq<Path>)
    requires multiset(p) == multiset(q) && Acceptable(files, p)
    ensures Acceptable(files, q) && Fed(files, p) == Fed(files, q)
  {
    Sorting.SameElements(p, q);
    Sorting.DistinctHasNoRepeats(p);
    forall i, j | 0 <= i < j < |q|
      ensures q[i] != q[j]
    {
      Sorting.NoRepeatsByIndex(q, i, j);
    }
    forall i | 0 <= i < |q|
      ensures q[i].Relative? && q[i].name in files
    {
      assert q[i] in p;
    }
    Sorting.CollectPermuted(NameOf(), p, q);
    NamesAreUntied(Names(p));
    Sorting.SortForgetsOrder(Less(), Names(p), Names(q));
  }

  /** Equal fingerprint streams come from equal sets of files: the same names, and
      under every name the same mode and content. */
  lemma EqualStreamsMeanEqualFiles(f: map<Name, File>, p: seq<Path>, g: map<Name, File>, q: seq<Path>)
    requires Acceptable(f, p) && Acceptable(g, q) && Fed(f, p) == Fed(g, q)
    requires forall n :: n in f ==> Fits(Entry(n, f[n]))
    requires forall n :: n in g ==> Fits(Entry(n, g[n]))
    ensures forall n :: n in Names(p) <==> n in Names(q)
    ensures forall n :: n in Names(p) ==> n in f && n in g && f[n] == g[n]
  {
    OrderedNamesAreFiles(f, p);
    OrderedNamesAreFiles(g, q);
    var a, b := Entries(f, Ordered(p)), Entries(g, Ordered(q));
    StreamDecodes(a);
    StreamDecodes(b);
    assert a == b;
    forall i | 0 <= i < |Ordered(p)|
      ensures Ordered(p)[i] == Ordered(q)[i] && f[Ordered(p)[i]] == g[Ordered(q)[i]]
    {
      assert a[i] == b[i];
    }
    assert Ordered(p) == Ordered(q);
  }
}
