/** A FAT32 system partition as tools/f15_member_sha.py reads it: cluster chains (`read_chain`), directories
    (`_parse_dir`) and the walk over all files (`files`), one sector to a cluster.

    Text decoding of names is a parameter, and so is how deep directories may nest before the interpreter gives up.
    Every exception is None.
 */
module Fat32 {
  import opened Basics
  import opened Wire

  /** The table entry of a cluster (None: the read ran past the end) and the bytes of its sector. */
  datatype Volume = Volume(entry: nat -> Option<nat>, sector: nat -> bytes)

  const END := 0x0FFF_FFF8

  predicate InChain(n: nat) {
    2 <= n < END
  }

  // ----- cluster chains -------------------------------------------------------------------------------------

  function Clusters(): set<nat> {
    set n: nat | n < END && InChain(n)
  }

  function Prepend(b: bytes, rest: Option<bytes>): Option<bytes> {
    if rest.None? then None else Some(b + rest.value)
  }

  /** The bytes of the chain from cluster `n`, when `seen` have been read before. */
  function Chain(v: Volume, n: nat, seen: set<nat>): Option<bytes>
    decreases Clusters() - seen
  {
    if !InChain(n) then Some([])
    else if n in seen then None
    else if v.entry(n).None? then None
    else
      assert n in Clusters() - seen;
      Prepend(v.sector(n), Chain(v, v.entry(n).value, seen + {n}))
  }

  method ReadChain(v: Volume, start: nat) returns (r: Option<bytes>)
    ensures r == Chain(v, start, {})
  {
    var out: bytes := [];
    var n: nat, seen: set<nat> := start, {};
    PrependNothing(Chain(v, start, {}));
    while InChain(n)
      invariant Chain(v, start, {}) == Prepend(out, Chain(v, n, seen))
      decreases Clusters() - seen
    {
      if n in seen {
        return None;
      }
      var next := v.entry(n);
      if next.None? {
        return None;
      }
      assert n in Clusters() - seen;
      PrependTwice(out, v.sector(n), Chain(v, next.value, seen + {n}));
      out, seen, n := out + v.sector(n), seen + {n}, next.value;
    }
    assert out + [] == out;
    r := Some(out);
  }

  lemma {:induction false} PrependNothing(r: Option<bytes>)
    ensures Prepend([], r) == r
  {
    if r.Some? {
      assert [] + r.value == r.value;
    }
  }

  lemma {:induction false} PrependTwice(a: bytes, b: bytes, r: Option<bytes>)
    ensures Prepend(a, Prepend(b, r)) == Prepend(a + b, r)
  {
    if r.Some? {
      Assoc(a, b, r.value);
    }
  }

  /** `path` lists the clusters from `n` to the end of its chain. */
  predicate Path(v: Volume, n: nat, path: seq<nat>)
    decreases |path|
  {
    if path == [] then !InChain(n)
    else path[0] == n && InChain(n) && v.entry(n).Some? && Path(v, v.entry(n).value, path[1..])
  }

  function Contents(v: Volume, path: seq<nat>): bytes {
    if path == [] then [] else v.sector(path[0]) + Contents(v, path[1..])
  }

  lemma {:induction false} OnePath(v: Volume, n: nat, p: seq<nat>, q: seq<nat>)
    requires Path(v, n, p) && Path(v, n, q)
    ensures |p| == |q|
    decreases |p|
  {
    if p != [] {
      OnePath(v, v.entry(n).value, p[1..], q[1..]);
    }
  }

  lemma {:induction false} PathFrom(v: Volume, n: nat, path: seq<nat>, i: nat)
    requires Path(v, n, path) && i < |path|
    ensures Path(v, path[i], path[i..])
    decreases i
  {
    if i > 0 {
      PathFrom(v, v.entry(n).value, path[1..], i - 1);
      assert path[1..][i - 1..] == path[i..];
    } else {
      assert path[0..] == path;
    }
  }

  /** A chain that ends does not come back to its start. */
  lemma {:induction false} NeverAgain(v: Volume, n: nat, path: seq<nat>, i: nat)
    requires Path(v, n, path) && 0 < i < |path|
    ensures path[i] != n
  {
    if path[i] == n {
      PathFrom(v, n, path, i);
      OnePath(v, n, path, path[i..]);
    }
  }

  lemma {:induction false} PathIsRead(v: Volume, n: nat, path: seq<nat>, seen: set<nat>)
    requires Path(v, n, path) && forall i :: 0 <= i < |path| ==> path[i] !in seen
    ensures Chain(v, n, seen) == Some(Contents(v, path))
    decreases |path|
  {
    if path != [] {
      forall i | 0 <= i < |path[1..]| ensures path[1..][i] !in seen + {n} {
        NeverAgain(v, n, path, i + 1);
      }
      PathIsRead(v, v.entry(n).value, path[1..], seen + {n});
    }
  }

  lemma {:induction false} ReadHasPath(v: Volume, n: nat, seen: set<nat>) returns (path: seq<nat>)
    requires Chain(v, n, seen).Some?
    ensures Path(v, n, path)
    decreases Clusters() - seen
  {
    if !InChain(n) {
      path := [];
    } else {
      assert n in Clusters() - seen;
      var rest := ReadHasPath(v, v.entry(n).value, seen + {n});
      path := [n] + rest;
      assert path[1..] == rest;
    }
  }

  ghost predicate Ends(v: Volume, n: nat) {
    exists path: seq<nat> :: Path(v, n, path)
  }

  /** Reading ends on every table. It succeeds exactly when the chain ends, and then gives the sectors of the chain in
      order, each once. */
  lemma {:induction false} ChainIsPath(v: Volume, n: nat)
    ensures Chain(v, n, {}).Some? <==> Ends(v, n)
    ensures forall path: seq<nat> :: Path(v, n, path) ==> Chain(v, n, {}) == Some(Contents(v, path))
  {
    forall path: seq<nat> | Path(v, n, path) ensures Chain(v, n, {}) == Some(Contents(v, path)) {
      PathIsRead(v, n, path, {});
    }
    if Chain(v, n, {}).Some? {
      var path := ReadHasPath(v, n, {});
      assert Ends(v, n);
    }
  }

  // ----- directories ----------------------------------------------------------------------------------------

  /** How names are decoded: a long-name chunk from its record, stem and extension from the short name, and whether the
      extension is more than blanks. */
  datatype Decoder = Decoder(chunk: bytes -> string, stem: bytes -> string, ext: bytes -> string, hasExt: bytes -> bool)

  datatype Entry = Entry(name: string, folder: bool, cluster: nat, size: nat)

  function NameOf(d: Decoder, e: bytes, pending: string): string
    requires |e| == 32
  {
    (if pending != "" then pending else d.stem(e[..8])) + (if d.hasExt(e[8..11]) then "." + d.ext(e[8..11]) else "")
  }

  function EntryOf(e: bytes, name: string): Entry
    requires |e| == 32
  {
    Entry(name, e[11] / 16 % 2 == 1, NumAt(e, 26, 2) + 0x1_0000 * NumAt(e, 20, 2), NumAt(e, 28, 4))
  }

  /** A record as the scan classifies it. */
  datatype Record = Last | Deleted | Long(chunk: string, first: bool) | Short

  function RecordOf(d: Decoder, e: bytes): Record
    requires |e| == 32
  {
    if e[0] == 0 then Last
    else if e[0] == 0xE5 then Deleted
    else if e[11] == 0x0F then Long(d.chunk(e), e[0] / 64 % 2 == 1)
    else Short
  }

  function Named(d: Decoder, e: bytes, pending: string): seq<Entry>
    requires |e| == 32
  {
    var name := NameOf(d, e, pending);
    if name == "" || name == "." || name == ".." then [] else [EntryOf(e, name)]
  }

  /** The entries among the records `rs`, with `pending` of a long name collected so far. */
  function Scan(d: Decoder, rs: seq<bytes>, pending: string): seq<Entry>
    requires forall i :: 0 <= i < |rs| ==> |rs[i]| == 32
    decreases |rs|
  {
    if rs == [] then []
    else
      match RecordOf(d, rs[0])
      case Last => []
      case Deleted => Scan(d, rs[1..], "")
      case Long(chunk, first) => Scan(d, rs[1..], if first then chunk else chunk + pending)
      case Short => Named(d, rs[0], pending) + Scan(d, rs[1..], "")
  }

  /** The whole records of a directory's bytes. */
  function Records(blob: bytes): (rs: seq<bytes>)
    ensures |rs| == |blob| / 32 && forall i :: 0 <= i < |rs| ==> |rs[i]| == 32
  {
    seq(|blob| / 32, i requires 0 <= i < |blob| / 32 => blob[32 * i..32 * i + 32])
  }

  function EntriesOf(d: Decoder, blob: bytes): seq<Entry> {
    Scan(d, Records(blob), "")
  }

  /** The scan as the code runs it. */
  method ParseDir(d: Decoder, blob: bytes) returns (es: seq<Entry>)
    ensures es == EntriesOf(d, blob)
  {
    ghost var rs := Records(blob);
    es := [];
    var i, k, pending := 0, 0, "";
    assert rs[0..] == rs && [] + EntriesOf(d, blob) == EntriesOf(d, blob);
    while i + 32 <= |blob|
      invariant 0 <= k <= |rs| && i == 32 * k
      invariant EntriesOf(d, blob) == es + Scan(d, rs[k..], pending)
    {
      var e := blob[i..i + 32];
      ghost var tail := rs[k..];
      assert tail[0] == e && tail[1..] == rs[k + 1..];
      i, k := i + 32, k + 1;
      if e[0] == 0 {
        assert es + [] == es;
        return;
      } else if e[0] == 0xE5 {
        pending := "";
      } else if e[11] == 0x0F {
        pending := if e[0] / 64 % 2 == 1 then d.chunk(e) else d.chunk(e) + pending;
      } else {
        Assoc(es, Named(d, e, pending), Scan(d, rs[k..], ""));
        es, pending := es + Named(d, e, pending), "";
      }
    }
    assert rs[k..] == [] && es + [] == es;
  }

  // ----- deleted records ------------------------------------------------------------------------------------

  /** The records up to the end marker, without the deleted ones that do not cut off a long name. */
  function Kept(d: Decoder, rs: seq<bytes>, pending: string): (ks: seq<bytes>)
    requires forall i :: 0 <= i < |rs| ==> |rs[i]| == 32
    ensures forall i :: 0 <= i < |ks| ==> |ks[i]| == 32
    decreases |rs|
  {
    if rs == [] then []
    else
      match RecordOf(d, rs[0])
      case Last => []
      case Deleted => if pending == "" then Kept(d, rs[1..], "") else [rs[0]] + Kept(d, rs[1..], "")
      case Long(chunk, first) => [rs[0]] + Kept(d, rs[1..], if first then chunk else chunk + pending)
      case Short => [rs[0]] + Kept(d, rs[1..], "")
  }

  lemma {:induction false} ScanKept(d: Decoder, rs: seq<bytes>, pending: string)
    requires forall i :: 0 <= i < |rs| ==> |rs[i]| == 32
    ensures Scan(d, Kept(d, rs, pending), pending) == Scan(d, rs, pending)
    decreases |rs|
  {
    if rs != [] {
      match RecordOf(d, rs[0]) {
        case Last =>
        case Deleted =>
          ScanKept(d, rs[1..], "");
          assert pending != "" ==> Kept(d, rs, pending)[1..] == Kept(d, rs[1..], "");
        case Long(chunk, first) =>
          var next := if first then chunk else chunk + pending;
          ScanKept(d, rs[1..], next);
          assert Kept(d, rs, pending)[1..] == Kept(d, rs[1..], next);
        case Short =>
          ScanKept(d, rs[1..], "");
          assert Kept(d, rs, pending)[1..] == Kept(d, rs[1..], "");
      }
    }
  }

  /** Directories that differ in deleted records, wherever and however many, and in what stands behind the end marker,
      have the same entries. */
  lemma {:induction false} DeletedIsIgnored(d: Decoder, x: bytes, y: bytes)
    requires Kept(d, Records(x), "") == Kept(d, Records(y), "")
    ensures EntriesOf(d, x) == EntriesOf(d, y)
  {
    ScanKept(d, Records(x), "");
    ScanKept(d, Records(y), "");
  }

  // ----- the walk -------------------------------------------------------------------------------------------

  /** A file found by the walk. */
  datatype Hit = Hit(path: string, cluster: nat, size: nat)

  function StripFront(s: string): string {
    if s != "" && s[0] == '/' then StripFront(s[1..]) else s
  }

  function StripBack(s: string): string {
    if s != "" && s[|s| - 1] == '/' then StripBack(s[..|s| - 1]) else s
  }

  function PathIn(prefix: string, name: string): string {
    StripBack(StripFront(prefix + "/" + name))
  }

  function Both(a: Option<seq<Hit>>, b: Option<seq<Hit>>): Option<seq<Hit>> {
    if a.None? || b.None? then None else Some(a.value + b.value)
  }

  /** All files under the entries `es`, in the order they are met. */
  function Walk(v: Volume, d: Decoder, es: seq<Entry>, prefix: string, depth: nat): Option<seq<Hit>>
    decreases depth, |es|
  {
    if es == [] then Some([])
    else Both(WalkOne(v, d, es[0], prefix, depth), Walk(v, d, es[1..], prefix, depth))
  }

  function WalkOne(v: Volume, d: Decoder, e: Entry, prefix: string, depth: nat): Option<seq<Hit>>
    decreases depth, 0
  {
    var path := PathIn(prefix, e.name);
    if !e.folder then Some([Hit(path, e.cluster, e.size)])
    else if depth == 0 || Chain(v, e.cluster, {}).None? then None
    else Walk(v, d, EntriesOf(d, Chain(v, e.cluster, {}).value), path, depth - 1)
  }

  function Files(v: Volume, d: Decoder, root: nat, depth: nat): Option<seq<Hit>> {
    var blob := Chain(v, root, {});
    if blob.None? then None else Walk(v, d, EntriesOf(d, blob.value), "", depth)
  }

  /** What is hashed of a file. */
  function FileBytes(v: Volume, cluster: nat, size: nat): Option<bytes> {
    if size == 0 || cluster < 2 then Some([])
    else
      var b := Chain(v, cluster, {});
      if b.None? then None else Some(if |b.value| <= size then b.value else b.value[..size])
  }

  // ----- the tree a volume holds ----------------------------------------------------------------------------

  /** Files and folders without their places; `content` is None when it cannot be read. */
  datatype Node = File(name: string, content: Option<bytes>, size: nat) | Folder(name: string, kids: seq<Node>)

  datatype Member = Member(path: string, content: Option<bytes>, size: nat)

  function Flatten(nodes: seq<Node>, prefix: string): seq<Member>
    decreases nodes
  {
    if nodes == [] then [] else FlattenOne(nodes[0], prefix) + Flatten(nodes[1..], prefix)
  }

  function FlattenOne(n: Node, prefix: string): seq<Member>
    decreases n
  {
    match n
    case File(name, content, size) => [Member(PathIn(prefix, name), content, size)]
    case Folder(name, kids) => Flatten(kids, PathIn(prefix, name))
  }

  /** The entries `es` of the volume stand for `nodes`, folders not nested deeper than `depth`. */
  predicate Holds(v: Volume, d: Decoder, es: seq<Entry>, nodes: seq<Node>, depth: nat)
    decreases nodes
  {
    if nodes == [] then es == []
    else es != [] && HoldsOne(v, d, es[0], nodes[0], depth) && Holds(v, d, es[1..], nodes[1..], depth)
  }

  predicate HoldsOne(v: Volume, d: Decoder, e: Entry, n: Node, depth: nat)
    decreases n
  {
    match n
    case File(name, content, size) =>
      e.name == name && !e.folder && e.size == size && FileBytes(v, e.cluster, size) == content
    case Folder(name, kids) =>
      && e.name == name && e.folder && depth > 0 && Chain(v, e.cluster, {}).Some?
      && Holds(v, d, EntriesOf(d, Chain(v, e.cluster, {}).value), kids, depth - 1)
  }

  function MemberOf(v: Volume, h: Hit): Member {
    Member(h.path, FileBytes(v, h.cluster, h.size), h.size)
  }

  function MembersOf(v: Volume, hs: seq<Hit>): (ms: seq<Member>)
    ensures |ms| == |hs| && forall i :: 0 <= i < |hs| ==> ms[i] == MemberOf(v, hs[i])
  {
    seq(|hs|, i requires 0 <= i < |hs| => MemberOf(v, hs[i]))
  }

  lemma {:induction false} MembersAppend(v: Volume, a: seq<Hit>, b: seq<Hit>)
    ensures MembersOf(v, a + b) == MembersOf(v, a) + MembersOf(v, b)
  {
  }

  /** The walk over a volume gives the files of its tree: no cluster number is left in them. */
  lemma {:induction false} WalkIsFlatten(v: Volume, d: Decoder, es: seq<Entry>, nodes: seq<Node>, prefix: string, depth: nat)
    requires Holds(v, d, es, nodes, depth)
    ensures var r := Walk(v, d, es, prefix, depth); r.Some? && MembersOf(v, r.value) == Flatten(nodes, prefix)
    decreases nodes
  {
    if nodes != [] {
      WalkOneIsFlatten(v, d, es[0], nodes[0], prefix, depth);
      WalkIsFlatten(v, d, es[1..], nodes[1..], prefix, depth);
      MembersAppend(v, WalkOne(v, d, es[0], prefix, depth).value, Walk(v, d, es[1..], prefix, depth).value);
    }
  }

  lemma {:induction false} WalkOneIsFlatten(v: Volume, d: Decoder, e: Entry, n: Node, prefix: string, depth: nat)
    requires HoldsOne(v, d, e, n, depth)
    ensures var r := WalkOne(v, d, e, prefix, depth); r.Some? && MembersOf(v, r.value) == FlattenOne(n, prefix)
    decreases n
  {
    if n.Folder? {
      WalkIsFlatten(v, d, EntriesOf(d, Chain(v, e.cluster, {}).value), n.kids, PathIn(prefix, n.name), depth - 1);
    }
  }

  /** Every volume that can be walked holds a tree. */
  lemma {:induction false} WalkHasTree(v: Volume, d: Decoder, es: seq<Entry>, prefix: string, depth: nat) returns (nodes: seq<Node>)
    requires Walk(v, d, es, prefix, depth).Some?
    ensures Holds(v, d, es, nodes, depth)
    decreases depth, |es|
  {
    if es == [] {
      nodes := [];
    } else {
      var n := WalkOneHasTree(v, d, es[0], prefix, depth);
      var rest := WalkHasTree(v, d, es[1..], prefix, depth);
      nodes := [n] + rest;
      assert nodes[1..] == rest;
    }
  }

  lemma {:induction false} WalkOneHasTree(v: Volume, d: Decoder, e: Entry, prefix: string, depth: nat) returns (n: Node)
    requires WalkOne(v, d, e, prefix, depth).Some?
    ensures HoldsOne(v, d, e, n, depth)
    decreases depth, 0
  {
    if e.folder {
      var kids := WalkHasTree(v, d, EntriesOf(d, Chain(v, e.cluster, {}).value), PathIn(prefix, e.name), depth - 1);
      n := Folder(e.name, kids);
    } else {
      n := File(e.name, FileBytes(v, e.cluster, e.size), e.size);
    }
  }

  // ----- volumes that differ in deleted records ---------------------------------------------------------------

  predicate SameDirectory(d: Decoder, a: Option<bytes>, b: Option<bytes>) {
    if a.None? || b.None? then a == b else Kept(d, Records(a.value), "") == Kept(d, Records(b.value), "")
  }

  /** The two volumes have the same file contents and the same directories, deleted records aside, below `es`. */
  predicate Alike(v: Volume, v': Volume, d: Decoder, es: seq<Entry>, depth: nat)
    decreases depth, |es|
  {
    es == [] || (AlikeOne(v, v', d, es[0], depth) && Alike(v, v', d, es[1..], depth))
  }

  predicate AlikeOne(v: Volume, v': Volume, d: Decoder, e: Entry, depth: nat)
    decreases depth, 0
  {
    var dir := Chain(v, e.cluster, {});
    if !e.folder then FileBytes(v, e.cluster, e.size) == FileBytes(v', e.cluster, e.size)
    else SameDirectory(d, dir, Chain(v', e.cluster, {})) &&
         (depth > 0 && dir.Some? ==> Alike(v, v', d, EntriesOf(d, dir.value), depth - 1))
  }

  predicate AlikeVolumes(v: Volume, v': Volume, d: Decoder, root: nat, depth: nat) {
    var dir := Chain(v, root, {});
    && SameDirectory(d, dir, Chain(v', root, {}))
    && (dir.Some? ==> Alike(v, v', d, EntriesOf(d, dir.value), depth))
  }

  predicate SameMembers(v: Volume, v': Volume, a: Option<seq<Hit>>, b: Option<seq<Hit>>) {
    a == b && (a.Some? ==> MembersOf(v, a.value) == MembersOf(v', a.value))
  }

  lemma {:induction false} AlikeWalk(v: Volume, v': Volume, d: Decoder, es: seq<Entry>, prefix: string, depth: nat)
    requires Alike(v, v', d, es, depth)
    ensures SameMembers(v, v', Walk(v, d, es, prefix, depth), Walk(v', d, es, prefix, depth))
    decreases depth, |es|
  {
    if es != [] {
      AlikeWalkOne(v, v', d, es[0], prefix, depth);
      AlikeWalk(v, v', d, es[1..], prefix, depth);
      var a, b := WalkOne(v, d, es[0], prefix, depth), Walk(v, d, es[1..], prefix, depth);
      if a.Some? && b.Some? {
        MembersAppend(v, a.value, b.value);
        MembersAppend(v', a.value, b.value);
      }
    }
  }

  lemma {:induction false} AlikeWalkOne(v: Volume, v': Volume, d: Decoder, e: Entry, prefix: string, depth: nat)
    requires AlikeOne(v, v', d, e, depth)
    ensures SameMembers(v, v', WalkOne(v, d, e, prefix, depth), WalkOne(v', d, e, prefix, depth))
    decreases depth, 0
  {
    var dir, dir' := Chain(v, e.cluster, {}), Chain(v', e.cluster, {});
    if e.folder && depth > 0 && dir.Some? {
      DeletedIsIgnored(d, dir.value, dir'.value);
      AlikeWalk(v, v', d, EntriesOf(d, dir.value), PathIn(prefix, e.name), depth - 1);
    }
  }

  /** Deleted records in any directories of a volume change none of its files. */
  lemma {:induction false} AlikeFiles(v: Volume, v': Volume, d: Decoder, root: nat, depth: nat)
    requires AlikeVolumes(v, v', d, root, depth)
    ensures SameMembers(v, v', Files(v, d, root, depth), Files(v', d, root, depth))
  {
    var dir, dir' := Chain(v, root, {}), Chain(v', root, {});
    if dir.Some? {
      DeletedIsIgnored(d, dir.value, dir'.value);
      AlikeWalk(v, v', d, EntriesOf(d, dir.value), "", depth);
    }
  }
}
