/** The identity of a boot image (tools/f15_member_sha.py, `identity`): a hash over the sorted list of its immutable
    members, which leaves out the boot log and everything under NEURAL/.

    Upper-casing, the hash and the JSON printer are parameters.
 */
module MemberId {
  import opened Basics
  import opened Wire
  import opened Fat32

  datatype Config = Config(upper: string -> string, sha: bytes -> string, dumps: seq<Triple> -> bytes)

  /** What is printed of a member. */
  datatype Triple = Triple(path: string, sha: string, size: nat)

  /** What a member is. */
  datatype Key = Key(path: string, content: bytes, size: nat)

  // ----- the order of `sorted` ------------------------------------------------------------------------------

  predicate TextLe(a: string, b: string) {
    a == "" || (b != "" && (a[0] < b[0] || (a[0] == b[0] && TextLe(a[1..], b[1..]))))
  }

  lemma {:induction false} TextTotal(a: string, b: string)
    ensures TextLe(a, b) || TextLe(b, a)
  {
    if a != "" && b != "" && a[0] == b[0] {
      TextTotal(a[1..], b[1..]);
    }
  }

  lemma {:induction false} TextAntisymmetric(a: string, b: string)
    requires TextLe(a, b) && TextLe(b, a)
    ensures a == b
  {
    if a != "" {
      TextAntisymmetric(a[1..], b[1..]);
      assert a == [a[0]] + a[1..] && b == [b[0]] + b[1..];
    }
  }

  lemma {:induction false} TextTransitive(a: string, b: string, c: string)
    requires TextLe(a, b) && TextLe(b, c)
    ensures TextLe(a, c)
  {
    if a != "" && a[0] == b[0] == c[0] {
      TextTransitive(a[1..], b[1..], c[1..]);
    }
  }

  predicate Le(a: Triple, b: Triple) {
    if a.path != b.path then TextLe(a.path, b.path)
    else if a.sha != b.sha then TextLe(a.sha, b.sha)
    else a.size <= b.size
  }

  lemma {:induction false} LeTotal(a: Triple, b: Triple)
    ensures Le(a, b) || Le(b, a)
  {
    TextTotal(a.path, b.path);
    TextTotal(a.sha, b.sha);
  }

  lemma {:induction false} LeAntisymmetric(a: Triple, b: Triple)
    requires Le(a, b) && Le(b, a)
    ensures a == b
  {
    if a.path != b.path {
      TextAntisymmetric(a.path, b.path);
    } else if a.sha != b.sha {
      TextAntisymmetric(a.sha, b.sha);
    }
  }

  lemma {:induction false} LeTransitive(a: Triple, b: Triple, c: Triple)
    requires Le(a, b) && Le(b, c)
    ensures Le(a, c)
  {
    if a.path != b.path && b.path != c.path {
      TextTransitive(a.path, b.path, c.path);
      if a.path == c.path {
        TextAntisymmetric(a.path, b.path);
      }
    } else if a.path == b.path == c.path && a.sha != b.sha && b.sha != c.sha {
      TextTransitive(a.sha, b.sha, c.sha);
      if a.sha == c.sha {
        TextAntisymmetric(a.sha, b.sha);
      }
    }
  }

  // ----- sorting --------------------------------------------------------------------------------------------

  function Insert(x: Triple, s: seq<Triple>): seq<Triple> {
    if s == [] || Le(x, s[0]) then [x] + s else [s[0]] + Insert(x, s[1..])
  }

  function Sorted(s: seq<Triple>): seq<Triple> {
    if s == [] then [] else Insert(s[0], Sorted(s[1..]))
  }

  predicate InOrder(s: seq<Triple>) {
    forall i, k :: 0 <= i < k < |s| ==> Le(s[i], s[k])
  }

  lemma {:induction false} InsertAll(x: Triple, s: seq<Triple>)
    ensures multiset(Insert(x, s)) == multiset(s) + multiset{x}
  {
    if s != [] && !Le(x, s[0]) {
      InsertAll(x, s[1..]);
      assert s == [s[0]] + s[1..];
    }
  }

  lemma {:induction false} InsertKeepsOrder(x: Triple, s: seq<Triple>)
    requires InOrder(s)
    ensures InOrder(Insert(x, s))
  {
    var r := Insert(x, s);
    if s == [] {
    } else if Le(x, s[0]) {
      forall i, k | 0 <= i < k < |r| ensures Le(r[i], r[k]) {
        if i == 0 && k > 1 {
          LeTransitive(x, s[0], s[k - 1]);
        }
      }
    } else {
      LeTotal(x, s[0]);
      InsertKeepsOrder(x, s[1..]);
      InsertAll(x, s[1..]);
      forall i, k | 0 <= i < k < |r| ensures Le(r[i], r[k]) {
        if i == 0 {
          assert r[k] in multiset(Insert(x, s[1..]));
          assert r[k] == x || r[k] in s[1..];
        }
      }
    }
  }

  lemma {:induction false} SortedSorts(s: seq<Triple>)
    ensures InOrder(Sorted(s)) && multiset(Sorted(s)) == multiset(s)
  {
    if s != [] {
      SortedSorts(s[1..]);
      InsertKeepsOrder(s[0], Sorted(s[1..]));
      InsertAll(s[0], Sorted(s[1..]));
      assert s == [s[0]] + s[1..];
    }
  }

  lemma {:induction false} FirstIsLeast(s: seq<Triple>, x: Triple)
    requires InOrder(s) && s != [] && x in s
    ensures Le(s[0], x)
  {
    LeTotal(x, x);
  }

  lemma {:induction false} SameFirst(s: seq<Triple>, t: seq<Triple>)
    requires InOrder(s) && InOrder(t) && multiset(s) == multiset(t) && s != [] && t != []
    ensures s[0] == t[0]
  {
    assert s[0] in multiset(t) && t[0] in multiset(s);
    FirstIsLeast(s, t[0]);
    FirstIsLeast(t, s[0]);
    LeAntisymmetric(s[0], t[0]);
  }

  lemma {:induction false} WithoutFirst<T>(s: seq<T>)
    requires s != []
    ensures multiset(s) == multiset(s[1..]) + multiset{s[0]}
  {
    assert s == [s[0]] + s[1..];
  }

  lemma {:induction false} SameRest(s: seq<Triple>, t: seq<Triple>)
    requires multiset(s) == multiset(t) && s != [] && t != [] && s[0] == t[0]
    ensures multiset(s[1..]) == multiset(t[1..])
  {
    WithoutFirst(s);
    WithoutFirst(t);
    assert multiset(s[1..]) == multiset(s) - multiset{s[0]};
    assert multiset(t[1..]) == multiset(t) - multiset{t[0]};
  }

  lemma {:induction false} SameLength(s: seq<Triple>, t: seq<Triple>)
    requires multiset(s) == multiset(t)
    ensures |s| == |t|
  {
    assert |multiset(s)| == |s| && |multiset(t)| == |t|;
  }

  lemma {:induction false} RestInOrder(s: seq<Triple>)
    requires InOrder(s) && s != []
    ensures InOrder(s[1..])
  {
  }

  /** A list in order is fixed by what it holds. */
  lemma {:induction false} OrderIsUnique(s: seq<Triple>, t: seq<Triple>)
    requires InOrder(s) && InOrder(t) && multiset(s) == multiset(t)
    ensures s == t
    decreases |s|
  {
    SameLength(s, t);
    if s != [] {
      SameFirst(s, t);
      SameRest(s, t);
      RestInOrder(s);
      RestInOrder(t);
      OrderIsUnique(s[1..], t[1..]);
      assert s == [s[0]] + s[1..] && t == [t[0]] + t[1..];
    }
  }

  /** `sorted` gives the same list for two lists exactly when they hold the same elements equally often. */
  lemma {:induction false} SortedIff(s: seq<Triple>, t: seq<Triple>)
    ensures Sorted(s) == Sorted(t) <==> multiset(s) == multiset(t)
  {
    SortedSorts(s);
    SortedSorts(t);
    if multiset(s) == multiset(t) {
      OrderIsUnique(Sorted(s), Sorted(t));
    }
  }

  // ----- lists made piece by piece --------------------------------------------------------------------------

  function FlatMap<A, B>(f: A -> seq<B>, s: seq<A>): seq<B> {
    if s == [] then [] else f(s[0]) + FlatMap(f, s[1..])
  }

  lemma {:induction false} FlatMapAppend<A, B>(f: A -> seq<B>, a: seq<A>, b: seq<A>)
    ensures FlatMap(f, a + b) == FlatMap(f, a) + FlatMap(f, b)
    decreases |a|
  {
    if a == [] {
      assert a + b == b;
    } else {
      assert (a + b)[1..] == a[1..] + b;
      FlatMapAppend(f, a[1..], b);
      Assoc(f(a[0]), FlatMap(f, a[1..]), FlatMap(f, b));
    }
  }

  lemma {:induction false} TakeOut<T>(s: seq<T>, i: nat)
    requires i < |s|
    ensures s == s[..i] + ([s[i]] + s[i + 1..])
    ensures multiset(s) == multiset(s[..i] + s[i + 1..]) + multiset{s[i]}
  {
    assert s == s[..i] + ([s[i]] + s[i + 1..]);
    assert multiset(s) == multiset(s[..i]) + (multiset{s[i]} + multiset(s[i + 1..]));
  }

  lemma {:induction false} FlatMapTakenOut<A, B>(f: A -> seq<B>, s: seq<A>, i: nat)
    requires i < |s|
    ensures multiset(FlatMap(f, s)) == multiset(FlatMap(f, s[..i] + s[i + 1..])) + multiset(f(s[i]))
  {
    TakeOut(s, i);
    FlatMapAppend(f, s[..i], [s[i]] + s[i + 1..]);
    FlatMapAppend(f, s[..i], s[i + 1..]);
    assert ([s[i]] + s[i + 1..])[1..] == s[i + 1..];
  }

  /** The pieces of a reordered list are the same, reordered. */
  lemma {:induction false} FlatMapReordered<A, B>(f: A -> seq<B>, a: seq<A>, b: seq<A>)
    requires multiset(a) == multiset(b)
    ensures multiset(FlatMap(f, a)) == multiset(FlatMap(f, b))
    decreases |a|
  {
    if a == [] {
      assert |multiset(b)| == |b|;
    } else {
      assert a[0] in multiset(b);
      var i :| 0 <= i < |b| && b[i] == a[0];
      WithoutFirst(a);
      TakeOut(b, i);
      var rest := b[..i] + b[i + 1..];
      assert multiset(a[1..]) == multiset(a) - multiset{a[0]};
      assert multiset(rest) == multiset(b) - multiset{a[0]};
      FlatMapReordered(f, a[1..], rest);
      FlatMapTakenOut(f, b, i);
    }
  }

  // ----- identity -------------------------------------------------------------------------------------------

  predicate MutablePath(path: string) {
    path == "BOOT.LOG" || (|path| >= 7 && path[..7] == "NEURAL/")
  }

  predicate Mutable(c: Config, m: Member) {
    MutablePath(c.upper(m.path))
  }

  /** What is kept of a member: nothing of a mutable one. */
  function KeyOf(c: Config): Member -> seq<Key> {
    (m: Member) => if Mutable(c, m) || m.content.None? then [] else [Key(c.upper(m.path), m.content.value, m.size)]
  }

  function Keys(c: Config, ms: seq<Member>): seq<Key> {
    FlatMap(KeyOf(c), ms)
  }

  /** The content of every immutable member can be read. */
  predicate Readable(c: Config, ms: seq<Member>) {
    forall m :: m in ms && !Mutable(c, m) ==> m.content.Some?
  }

  function PrintedOne(c: Config, k: Key): Triple {
    Triple(k.path, c.sha(k.content), k.size)
  }

  function Print(c: Config): Key -> seq<Triple> {
    (k: Key) => [PrintedOne(c, k)]
  }

  function Printed(c: Config, ks: seq<Key>): seq<Triple> {
    FlatMap(Print(c), ks)
  }

  function IdentityOf(c: Config, ks: seq<Key>): string {
    c.sha(c.dumps(Sorted(Printed(c, ks))))
  }

  function Identity(c: Config, ms: seq<Member>): Option<string> {
    if Readable(c, ms) then Some(IdentityOf(c, Keys(c, ms))) else None
  }

  /** The identity of the volume behind its root cluster. */
  function VolumeIdentity(c: Config, v: Volume, d: Decoder, root: nat, depth: nat): Option<string> {
    var hs := Files(v, d, root, depth);
    if hs.None? then None else Identity(c, MembersOf(v, hs.value))
  }

  ghost predicate NoCollisions(c: Config) {
    && (forall a, b :: c.sha(a) == c.sha(b) ==> a == b)
    && (forall s, t :: c.dumps(s) == c.dumps(t) ==> s == t)
  }

  /** Without collisions a printed member stands for one key, so it is printed as often as the key occurs. */
  lemma {:induction false} PrintedCounts(c: Config, ks: seq<Key>, k: Key)
    requires forall a, b :: c.sha(a) == c.sha(b) ==> a == b
    ensures multiset(Printed(c, ks))[PrintedOne(c, k)] == multiset(ks)[k]
    decreases |ks|
  {
    if ks != [] {
      PrintedCounts(c, ks[1..], k);
      WithoutFirst(ks);
      WithoutFirst(Printed(c, ks));
    }
  }

  lemma {:induction false} PrintedDiffer(c: Config, a: seq<Key>, b: seq<Key>)
    requires forall x, y :: c.sha(x) == c.sha(y) ==> x == y
    requires multiset(Printed(c, a)) == multiset(Printed(c, b))
    ensures multiset(a) == multiset(b)
  {
    forall k ensures multiset(a)[k] == multiset(b)[k] {
      PrintedCounts(c, a, k);
      PrintedCounts(c, b, k);
    }
  }

  lemma {:induction false} SameKeysSameIdentity(c: Config, x: seq<Key>, y: seq<Key>)
    requires multiset(x) == multiset(y)
    ensures IdentityOf(c, x) == IdentityOf(c, y)
  {
    FlatMapReordered(Print(c), x, y);
    SortedIff(Printed(c, x), Printed(c, y));
  }

  /** Two images whose immutable members can be read have the same identity if and only if they have the same immutable
      members: the same upper-case paths, contents and sizes, each as often. */
  lemma {:induction false} SameIdentityIff(c: Config, a: seq<Member>, b: seq<Member>)
    requires NoCollisions(c) && Readable(c, a) && Readable(c, b)
    ensures Identity(c, a) == Identity(c, b) <==> multiset(Keys(c, a)) == multiset(Keys(c, b))
  {
    var x, y := Keys(c, a), Keys(c, b);
    SortedIff(Printed(c, x), Printed(c, y));
    if multiset(x) == multiset(y) {
      SameKeysSameIdentity(c, x, y);
    } else if multiset(Printed(c, x)) == multiset(Printed(c, y)) {
      PrintedDiffer(c, x, y);
    }
  }

  // ----- what leaves the identity alone, and what does not --------------------------------------------------

  /** The order in which members are met does not matter, whatever the hash. */
  lemma {:induction false} OrderDoesNotMatter(c: Config, a: seq<Member>, b: seq<Member>)
    requires multiset(a) == multiset(b)
    ensures Identity(c, a) == Identity(c, b)
  {
    assert forall m :: m in a <==> m in multiset(a);
    assert forall m :: m in b <==> m in multiset(b);
    FlatMapReordered(KeyOf(c), a, b);
    SameKeysSameIdentity(c, Keys(c, a), Keys(c, b));
  }

  /** Adding, removing or changing a mutable member changes nothing. */
  lemma {:induction false} MutableDoesNotMatter(c: Config, a: seq<Member>, m: Member, b: seq<Member>)
    requires Mutable(c, m)
    ensures Identity(c, a + ([m] + b)) == Identity(c, a + b)
  {
    FlatMapAppend(KeyOf(c), a, [m] + b);
    FlatMapAppend(KeyOf(c), a, b);
    assert ([m] + b)[1..] == b;
    assert Keys(c, a + ([m] + b)) == Keys(c, a + b);
    assert forall x :: x in a + ([m] + b) <==> x in a + b || x == m;
  }

  lemma {:induction false} KeyAdded(c: Config, a: seq<Member>, m: Member, b: seq<Member>, k: Key)
    requires KeyOf(c)(m) == [k]
    ensures multiset(Keys(c, a + ([m] + b))) == multiset(Keys(c, a + b)) + multiset{k}
  {
    FlatMapAppend(KeyOf(c), a, [m] + b);
    FlatMapAppend(KeyOf(c), a, b);
    assert ([m] + b)[1..] == b;
    assert Keys(c, [m] + b) == [k] + Keys(c, b);
  }

  lemma {:induction false} OneApart<T>(base: multiset<T>, k: T, k': T)
    requires k != k'
    ensures base + multiset{k} != base + multiset{k'}
  {
    assert (base + multiset{k})[k] == base[k] + 1 && (base + multiset{k'})[k] == base[k];
  }

  lemma {:induction false} HasKey(c: Config, s: seq<Member>, m: Member) returns (k: Key)
    requires Readable(c, s) && m in s && !Mutable(c, m)
    ensures m.content.Some? && k == Key(c.upper(m.path), m.content.value, m.size) && KeyOf(c)(m) == [k]
  {
    k := Key(c.upper(m.path), m.content.value, m.size);
  }

  /** Changing the bytes of one immutable member changes the identity. */
  lemma {:induction false} ContentMatters(c: Config, a: seq<Member>, m: Member, m': Member, b: seq<Member>)
    requires NoCollisions(c) && Readable(c, a + ([m] + b)) && Readable(c, a + ([m'] + b))
    requires !Mutable(c, m) && m'.path == m.path && m'.size == m.size && m'.content != m.content
    ensures Identity(c, a + ([m] + b)) != Identity(c, a + ([m'] + b))
  {
    var s, s' := a + ([m] + b), a + ([m'] + b);
    assert s[|a|] == m && s'[|a|] == m';
    var k := HasKey(c, s, m);
    var k' := HasKey(c, s', m');
    KeyAdded(c, a, m, b, k);
    KeyAdded(c, a, m', b, k');
    OneApart(multiset(Keys(c, a + b)), k, k');
    SameIdentityIff(c, s, s');
  }

  // ----- volumes --------------------------------------------------------------------------------------------

  predicate HoldsTree(v: Volume, d: Decoder, root: nat, nodes: seq<Node>, depth: nat) {
    Chain(v, root, {}).Some? && Holds(v, d, EntriesOf(d, Chain(v, root, {}).value), nodes, depth)
  }

  /** The identity of a volume is that of the tree it holds. */
  lemma {:induction false} VolumeIsTree(c: Config, v: Volume, d: Decoder, root: nat, nodes: seq<Node>, depth: nat)
    requires HoldsTree(v, d, root, nodes, depth)
    ensures VolumeIdentity(c, v, d, root, depth) == Identity(c, Flatten(nodes, ""))
  {
    WalkIsFlatten(v, d, EntriesOf(d, Chain(v, root, {}).value), nodes, "", depth);
  }

  /** Two volumes have the same identity if and only if the trees they hold have the same immutable files. */
  lemma {:induction false} VolumesAgreeIff(c: Config, d: Decoder, depth: nat, v: Volume, root: nat, nodes: seq<Node>,
                                           v': Volume, root': nat, nodes': seq<Node>)
    requires NoCollisions(c) && HoldsTree(v, d, root, nodes, depth) && HoldsTree(v', d, root', nodes', depth)
    requires Readable(c, Flatten(nodes, "")) && Readable(c, Flatten(nodes', ""))
    ensures VolumeIdentity(c, v, d, root, depth) == VolumeIdentity(c, v', d, root', depth) <==>
            multiset(Keys(c, Flatten(nodes, ""))) == multiset(Keys(c, Flatten(nodes', "")))
  {
    VolumeIsTree(c, v, d, root, nodes, depth);
    VolumeIsTree(c, v', d, root', nodes', depth);
    SameIdentityIff(c, Flatten(nodes, ""), Flatten(nodes', ""));
  }

  /** Where a tree is placed on the volume does not matter. */
  lemma {:induction false} PlacementDoesNotMatter(c: Config, v: Volume, v': Volume, d: Decoder, root: nat, root': nat,
                                                  nodes: seq<Node>, depth: nat)
    requires HoldsTree(v, d, root, nodes, depth) && HoldsTree(v', d, root', nodes, depth)
    ensures VolumeIdentity(c, v, d, root, depth) == VolumeIdentity(c, v', d, root', depth)
  {
    VolumeIsTree(c, v, d, root, nodes, depth);
    VolumeIsTree(c, v', d, root', nodes, depth);
  }

  function FlattenEach(prefix: string): Node -> seq<Member> {
    (n: Node) => FlattenOne(n, prefix)
  }

  lemma {:induction false} FlattenIsFlatMap(nodes: seq<Node>, prefix: string)
    ensures Flatten(nodes, prefix) == FlatMap(FlattenEach(prefix), nodes)
    decreases |nodes|
  {
    if nodes != [] {
      FlattenIsFlatMap(nodes[1..], prefix);
    }
  }

  /** The files below a reordered directory are the same. */
  lemma {:induction false} DirectoryOrder(a: seq<Node>, b: seq<Node>, prefix: string)
    requires multiset(a) == multiset(b)
    ensures multiset(Flatten(a, prefix)) == multiset(Flatten(b, prefix))
  {
    FlattenIsFlatMap(a, prefix);
    FlattenIsFlatMap(b, prefix);
    FlatMapReordered(FlattenEach(prefix), a, b);
  }

  /** So are those below a directory one of whose folders holds the same files in another order. */
  lemma {:induction false} FolderOrder(a: seq<Node>, i: nat, kids: seq<Node>, prefix: string)
    requires i < |a| && a[i].Folder?
    requires var p := PathIn(prefix, a[i].name); multiset(Flatten(a[i].kids, p)) == multiset(Flatten(kids, p))
    ensures multiset(Flatten(a, prefix)) == multiset(Flatten(a[i := Folder(a[i].name, kids)], prefix))
  {
    var b := a[i := Folder(a[i].name, kids)];
    FlattenIsFlatMap(a, prefix);
    FlattenIsFlatMap(b, prefix);
    FlatMapTakenOut(FlattenEach(prefix), a, i);
    FlatMapTakenOut(FlattenEach(prefix), b, i);
    assert b[..i] == a[..i] && b[i + 1..] == a[i + 1..];
  }

  // ----- trees reordered throughout ---------------------------------------------------------------------------

  /** `b` is `a` with the entries of every directory, at every depth, in some other order. */
  ghost predicate Shuffled(a: seq<Node>, b: seq<Node>)
    decreases a, 1
  {
    exists mid: seq<Node> :: Matched(a, mid) && multiset(mid) == multiset(b)
  }

  /** The nodes of `mid` are those of `a` one by one, what is inside them shuffled. */
  ghost predicate Matched(a: seq<Node>, mid: seq<Node>)
    decreases a, 0
  {
    |a| == |mid| && forall i :: 0 <= i < |a| ==> MatchedOne(a[i], mid[i])
  }

  ghost predicate MatchedOne(x: Node, y: Node)
    decreases x, 2
  {
    match x
    case File(_, _, _) => x == y
    case Folder(name, kids) => y.Folder? && y.name == name && Shuffled(kids, y.kids)
  }

  lemma {:induction false} MatchedFiles(a: seq<Node>, mid: seq<Node>, prefix: string)
    requires Matched(a, mid)
    ensures multiset(Flatten(a, prefix)) == multiset(Flatten(mid, prefix))
    decreases a, 0
  {
    if a != [] {
      assert MatchedOne(a[0], mid[0]);
      assert forall i :: 0 <= i < |a[1..]| ==> a[1..][i] == a[i + 1] && mid[1..][i] == mid[i + 1];
      MatchedOneFiles(a[0], mid[0], prefix);
      MatchedFiles(a[1..], mid[1..], prefix);
    }
  }

  lemma {:induction false} MatchedOneFiles(x: Node, y: Node, prefix: string)
    requires MatchedOne(x, y)
    ensures multiset(FlattenOne(x, prefix)) == multiset(FlattenOne(y, prefix))
    decreases x, 2
  {
    if x.Folder? {
      ShuffledFiles(x.kids, y.kids, PathIn(prefix, x.name));
    }
  }

  /** A tree reordered throughout has the same files. */
  lemma {:induction false} ShuffledFiles(a: seq<Node>, b: seq<Node>, prefix: string)
    requires Shuffled(a, b)
    ensures multiset(Flatten(a, prefix)) == multiset(Flatten(b, prefix))
    decreases a, 1
  {
    var mid: seq<Node> :| Matched(a, mid) && multiset(mid) == multiset(b);
    MatchedFiles(a, mid, prefix);
    DirectoryOrder(mid, b, prefix);
  }

  /** Volumes that hold the same tree have the same identity, whatever the order of the entries in any of their
      directories, wherever everything is placed, and whatever the hash. */
  lemma {:induction false} VolumeOrderDoesNotMatter(c: Config, d: Decoder, depth: nat, v: Volume, root: nat, a: seq<Node>,
                                                    v': Volume, root': nat, b: seq<Node>)
    requires HoldsTree(v, d, root, a, depth) && HoldsTree(v', d, root', b, depth) && Shuffled(a, b)
    ensures VolumeIdentity(c, v, d, root, depth) == VolumeIdentity(c, v', d, root', depth)
  {
    VolumeIsTree(c, v, d, root, a, depth);
    VolumeIsTree(c, v', d, root', b, depth);
    ShuffledFiles(a, b, "");
    OrderDoesNotMatter(c, Flatten(a, ""), Flatten(b, ""));
  }

  /** Deleted records in any of its directories leave the identity of a volume alone. */
  lemma {:induction false} DeletedDoesNotMatter(c: Config, v: Volume, v': Volume, d: Decoder, root: nat, depth: nat)
    requires AlikeVolumes(v, v', d, root, depth)
    ensures VolumeIdentity(c, v, d, root, depth) == VolumeIdentity(c, v', d, root, depth)
  {
    AlikeFiles(v, v', d, root, depth);
  }
}
