/** Merging several user-data trees into one destination, all or nothing. */
module Migration {
  import opened Wrappers
  import opened Bytes

  /** A source directory as it is listed: anything but a file or a directory is special. */
  datatype Node = File(data: seq<byte>) | Dir(listing: Listing) | Special

  datatype Listing = Empty | Entry(name: string, node: Node, rest: Listing)

  type Path = seq<string>

  datatype Item = AFile(data: seq<byte>) | ADir

  /** A directory tree by relative path. Equal file digests stand for equal contents. */
  type Tree = map<Path, Item>

  /** What is at the destination path; `Unsafe` is anything that is not a plain directory. */
  datatype Target = Missing | Present(tree: Tree) | Unsafe

  datatype Outcome = Absent | AlreadyPresent | Migrated

  // ----- Sources

  function Names(l: Listing): set<string> {
    match l
    case Empty => {}
    case Entry(name, _, rest) => {name} + Names(rest)
  }

  /** Names in one directory are distinct, at every level. */
  predicate WellNamed(l: Listing) {
    match l
    case Empty => true
    case Entry(name, node, rest) => name !in Names(rest) && WellNamed(rest) && (node.Dir? ==> WellNamed(node.listing))
  }

  /** Validation: nothing special anywhere inside. */
  predicate Plain(l: Listing) {
    match l
    case Empty => true
    case Entry(_, node, rest) => !node.Special? && (node.Dir? ==> Plain(node.listing)) && Plain(rest)
  }

  predicate Migratable(n: Node) {
    n.Dir? && Plain(n.listing)
  }

  function FlatNode(n: Node, at: Path): Tree {
    match n
    case File(data) => map[at := AFile(data)]
    case Dir(l) => map[at := ADir] + Flat(l, at)
    case Special => map[]
  }

  /** Everything below a directory, by path. */
  function Flat(l: Listing, at: Path): Tree {
    match l
    case Empty => map[]
    case Entry(name, node, rest) => FlatNode(node, at + [name]) + Flat(rest, at)
  }

  // ----- Copying one tree into another

  function CopyNode(n: Node, t: Tree, at: Path): (Tree, bool) {
    match n
    case File(data) => if at in t then (t, t[at] == AFile(data)) else (t[at := AFile(data)], true)
    case Dir(l) => if at in t && t[at] != ADir then (t, false) else Copy(l, t[at := ADir], at)
    case Special => (t, false)
  }

  /** The destination after copying, and whether there was no conflict; a conflict leaves a partial copy. */
  function Copy(l: Listing, t: Tree, at: Path): (Tree, bool) {
    match l
    case Empty => (t, true)
    case Entry(name, node, rest) =>
      var (u, ok) := CopyNode(node, t, at + [name]);
      if ok then Copy(rest, u, at) else (u, false)
  }

  ghost predicate Compatible(a: Tree, b: Tree) {
    forall p :: p in a && p in b ==> a[p] == b[p]
  }

  predicate Below(p: Path, at: Path) {
    |at| <= |p| && p[..|at|] == at
  }

  lemma {:induction false} FlatNodeIsBelow(n: Node, at: Path, p: Path)
    requires p in FlatNode(n, at)
    ensures Below(p, at)
    decreases n
  {
    match n
    case File(_) =>
    case Dir(l) => if p != at { FlatIsBelow(l, at, p); }
  }

  lemma {:induction false} FlatIsBelow(l: Listing, at: Path, p: Path)
    requires p in Flat(l, at)
    ensures Below(p, at) && |p| > |at| && p[|at|] in Names(l)
    decreases l
  {
    var name := l.name;
    if p in FlatNode(l.node, at + [name]) {
      FlatNodeIsBelow(l.node, at + [name], p);
      assert p[..|at| + 1] == at + [name];
      assert p[|at|] == p[..|at| + 1][|at|];
      assert p[..|at|] == p[..|at| + 1][..|at|];
    } else {
      FlatIsBelow(l.rest, at, p);
    }
  }

  /** Entries with different names lie apart. */
  lemma SiblingsApart(name: string, n: Node, rest: Listing, at: Path, p: Path)
    requires name !in Names(rest) && p in FlatNode(n, at + [name])
    ensures p !in Flat(rest, at)
  {
    FlatNodeIsBelow(n, at + [name], p);
    assert p[|at|] == p[..|at| + 1][|at|] == name;
    if p in Flat(rest, at) {
      FlatIsBelow(rest, at, p);
    }
  }

  /** A directory is not among what lies below it. */
  lemma NotBelowItself(l: Listing, at: Path)
    ensures at !in Flat(l, at)
  {
    if at in Flat(l, at) {
      FlatIsBelow(l, at, at);
    }
  }

  lemma {:induction false} CopyNodeExactly(n: Node, t: Tree, at: Path)
    requires n.Dir? ==> WellNamed(n.listing)
    ensures CopyNode(n, t, at).1 <==> !n.Special? && (n.Dir? ==> Plain(n.listing)) && Compatible(t, FlatNode(n, at))
    ensures CopyNode(n, t, at).1 ==> CopyNode(n, t, at).0 == t + FlatNode(n, at)
    decreases n
  {
    match n
    case File(data) =>
    case Special =>
    case Dir(l) =>
      NotBelowItself(l, at);
      if at !in t || t[at] == ADir {
        CopyExactly(l, t[at := ADir], at);
        CompatibleWithDir(t, Flat(l, at), at);
      }
  }

  lemma CompatibleWithDir(t: Tree, below: Tree, at: Path)
    requires at !in below && (at in t ==> t[at] == ADir)
    ensures Compatible(t[at := ADir], below) <==> Compatible(t, map[at := ADir] + below)
    ensures t[at := ADir] + below == t + (map[at := ADir] + below)
  {
    if Compatible(t[at := ADir], below) {
      forall p | p in t && p in map[at := ADir] + below ensures t[p] == (map[at := ADir] + below)[p] {
        if p != at {
          assert t[at := ADir][p] == below[p];
        }
      }
    }
  }

  lemma CompatibleInTurn(t: Tree, a: Tree, b: Tree)
    requires forall p :: p in a ==> p !in b
    ensures Compatible(t, a + b) <==> Compatible(t, a) && Compatible(t + a, b)
    ensures (t + a) + b == t + (a + b)
  {
    if Compatible(t, a + b) {
      forall p | p in t && p in a ensures t[p] == a[p] { assert (a + b)[p] == a[p]; }
      forall p | p in t + a && p in b ensures (t + a)[p] == b[p] { assert (a + b)[p] == b[p]; }
    }
    if Compatible(t, a) && Compatible(t + a, b) {
      forall p | p in t && p in a + b ensures t[p] == (a + b)[p] {
        if p in b { assert (t + a)[p] == b[p]; }
      }
    }
  }

  /** Copying succeeds exactly on compatible trees, and then yields their union. */
  lemma {:induction false} CopyExactly(l: Listing, t: Tree, at: Path)
    requires WellNamed(l)
    ensures Copy(l, t, at).1 <==> Plain(l) && Compatible(t, Flat(l, at))
    ensures Copy(l, t, at).1 ==> Copy(l, t, at).0 == t + Flat(l, at)
    decreases l
  {
    match l
    case Empty => assert t + map[] == t;
    case Entry(name, node, rest) =>
      var here, after := FlatNode(node, at + [name]), Flat(rest, at);
      CopyNodeExactly(node, t, at + [name]);
      forall p | p in here ensures p !in after { SiblingsApart(name, node, rest, at, p); }
      CompatibleInTurn(t, here, after);
      if CopyNode(node, t, at + [name]).1 {
        CopyExactly(rest, t + here, at);
      }
  }

  // ----- A group of sources

  predicate Source(n: Node) {
    n.Dir? && WellNamed(n.listing)
  }

  function Existing(sources: seq<Option<Node>>): seq<Node> {
    if sources == [] then []
    else (if sources[0].Some? then [sources[0].value] else []) + Existing(sources[1..])
  }

  function Contents(n: Node): Tree {
    if n.Dir? then Flat(n.listing, []) else map[]
  }

  /** Copying the sources one after the other into an empty staging directory. */
  function Staged(sources: seq<Node>): (Tree, bool) {
    if sources == [] then (map[], true)
    else
      var (t, ok), last := Staged(sources[..|sources| - 1]), sources[|sources| - 1];
      if ok && last.Dir? then Copy(last.listing, t, []) else (t, false)
  }

  /** `m` holds exactly what some source holds, and agrees with every one. */
  ghost predicate IsUnion(sources: seq<Node>, m: Tree) {
    && (forall s, p :: s in sources && p in Contents(s) ==> p in m && m[p] == Contents(s)[p])
    && (forall p :: p in m ==> exists s :: s in sources && p in Contents(s))
  }

  lemma UnionUnique(sources: seq<Node>, m: Tree, n: Tree)
    requires IsUnion(sources, m) && IsUnion(sources, n)
    ensures m == n
  {
    forall p | p in m || p in n ensures p in m && p in n && m[p] == n[p] {
      var s :| s in sources && p in Contents(s);
    }
  }

  lemma UnionGrows(front: seq<Node>, last: Node, t: Tree)
    requires IsUnion(front, t) && Compatible(t, Contents(last))
    ensures IsUnion(front + [last], t + Contents(last))
  {
    var all, m := front + [last], t + Contents(last);
    assert last in all;
    forall s, p | s in all && p in Contents(s) ensures p in m && m[p] == Contents(s)[p] {
      if s in front { assert p in t && t[p] == Contents(s)[p]; }
    }
    forall p | p in m ensures exists s :: s in all && p in Contents(s) {
      if p in t {
        var s :| s in front && p in Contents(s);
        assert s in all;
      }
    }
  }

  /** What is left of a union without its last source. */
  function Without(front: seq<Node>, m: Tree): Tree {
    map p | p in m && exists s :: s in front && p in Contents(s) :: m[p]
  }

  lemma UnionOfFront(front: seq<Node>, last: Node, m: Tree)
    requires IsUnion(front + [last], m)
    ensures IsUnion(front, Without(front, m)) && Compatible(Without(front, m), Contents(last))
  {
    assert forall s :: s in front ==> s in front + [last];
    assert last in front + [last];
  }

  /** Staging succeeds exactly when the sources have a conflict-checked union, and then it is that union. */
  lemma {:induction false} StagedExactly(sources: seq<Node>, m: Tree)
    requires forall s :: s in sources ==> Source(s) && Migratable(s)
    ensures Staged(sources) == (m, true) <==> IsUnion(sources, m)
    decreases |sources|
  {
    if sources == [] {
      assert IsUnion(sources, map[]);
      if IsUnion(sources, m) {
        UnionUnique(sources, m, map[]);
      }
    } else {
      var front, last := sources[..|sources| - 1], sources[|sources| - 1];
      assert last in sources && sources == front + [last];
      forall t ensures Staged(front) == (t, true) <==> IsUnion(front, t) { StagedExactly(front, t); }
      StagedOneMore(front, last, m);
    }
  }

  lemma StagedOneMore(front: seq<Node>, last: Node, m: Tree)
    requires Source(last) && Migratable(last)
    requires forall t :: Staged(front) == (t, true) <==> IsUnion(front, t)
    ensures Staged(front + [last]) == (m, true) <==> IsUnion(front + [last], m)
  {
    var all := front + [last];
    assert all[..|all| - 1] == front && all[|all| - 1] == last;
    if IsUnion(all, m) {
      var t := Without(front, m);
      UnionOfFront(front, last, m);
      assert Staged(front) == (t, true);
      CopyExactly(last.listing, t, []);
      UnionGrows(front, last, t);
      UnionUnique(all, m, t + Contents(last));
    }
    if Staged(all) == (m, true) {
      var t := Staged(front).0;
      assert IsUnion(front, t);
      CopyExactly(last.listing, t, []);
      UnionGrows(front, last, t);
    }
  }

  /** Every file of every source is already there, with the same contents. Directories are not compared. */
  predicate AllThere(sources: seq<Node>, t: Tree) {
    forall s :: s in sources ==>
      forall p :: p in Contents(s) && Contents(s)[p].AFile? ==> p in t && t[p] == Contents(s)[p]
  }

  /**
   What the file system does: whether writing fails before the tree is in place,
   and whether the destination then passes the check for a private directory.
   */
  datatype Host = Host(fault: bool, private: bool)

  /** The check of the destination that ends every migration. */
  function Checked(t: Tree, h: Host, outcome: Outcome): (Target, Result<Outcome>) {
    (Present(t), if h.private then Ok(outcome) else Err("unsafe_directory"))
  }

  function MigrateGroup(sources: seq<Option<Node>>, target: Target, h: Host): (Target, Result<Outcome>) {
    var existing := Existing(sources);
    if existing == [] then
      (match target
       case Missing => if h.fault then (Missing, Err("io_failure")) else Checked(map[], h, Absent)
       case Present(t) => Checked(t, h, Absent)
       case Unsafe => (target, Err("unsafe_directory")))
    else if exists s :: s in existing && !Migratable(s) then (target, Err("unsafe_source"))
    else match target
      case Unsafe => (target, Err("unsafe_destination"))
      case Present(t) => if AllThere(existing, t) then Checked(t, h, AlreadyPresent) else (target, Err("conflict"))
      case Missing =>
        var (t, ok) := Staged(existing);
        if !ok then (Missing, Err("conflict"))
        else if h.fault then (Missing, Err("io_failure"))
        else Checked(t, h, Migrated)
  }

  // ----- What a migration guarantees

  /** The file system gives every directory distinct names. */
  predicate Listed(sources: seq<Option<Node>>) {
    forall s :: s in sources && s.Some? && s.value.Dir? ==> WellNamed(s.value.listing)
  }

  lemma {:induction false} ExistingAre(sources: seq<Option<Node>>, n: Node)
    ensures n in Existing(sources) <==> Some(n) in sources
    decreases |sources|
  {
    if sources != [] {
      ExistingAre(sources[1..], n);
      assert sources == [sources[0]] + sources[1..];
    }
  }

  lemma ExistingAreSources(sources: seq<Option<Node>>)
    requires Listed(sources)
    ensures forall s :: s in Existing(sources) && Migratable(s) ==> Source(s)
  {
    forall s | s in Existing(sources) && Migratable(s) ensures Source(s) {
      ExistingAre(sources, s);
      assert Some(s) in sources;
    }
  }

  /**
   A failed migration changes nothing, exactly unless everything but the final
   check of a newly made destination succeeded; an existing tree is never touched.
   */
  lemma FailureLeavesTargetAlone(sources: seq<Option<Node>>, target: Target, h: Host)
    ensures MigrateGroup(sources, target, h).1.Err? && MigrateGroup(sources, target, h).0 != target
      <==> target.Missing? && !h.private && MigrateGroup(sources, target, h.(private := true)).1.Ok?
    ensures !target.Missing? ==> MigrateGroup(sources, target, h).0 == target
  {
  }

  /** Into a missing destination a migration yields exactly the conflict-checked union, or nothing at all. */
  lemma MigratesExactlyTheUnion(sources: seq<Option<Node>>, h: Host, m: Tree)
    requires Listed(sources)
    ensures MigrateGroup(sources, Missing, h) == (Present(m), Ok(Migrated))
      <==>
      && !h.fault && h.private && Existing(sources) != []
      && (forall s :: s in Existing(sources) ==> Migratable(s))
      && IsUnion(Existing(sources), m)
  {
    var existing := Existing(sources);
    if forall s :: s in existing ==> Migratable(s) {
      ExistingAreSources(sources);
      StagedExactly(existing, m);
    }
  }

  /** The same sources in any order, or listed any number of times, have the same union. */
  lemma UnionIgnoresOrder(a: seq<Node>, b: seq<Node>, m: Tree)
    requires forall s :: s in a <==> s in b
    ensures IsUnion(a, m) <==> IsUnion(b, m)
  {
    if IsUnion(a, m) { UnionCarriesOver(a, b, m); }
    if IsUnion(b, m) { UnionCarriesOver(b, a, m); }
  }

  lemma UnionCarriesOver(a: seq<Node>, b: seq<Node>, m: Tree)
    requires (forall s :: s in a <==> s in b) && IsUnion(a, m)
    ensures IsUnion(b, m)
  {
    forall p | p in m ensures exists s :: s in b && p in Contents(s) {
      var s :| s in a && p in Contents(s);
      assert s in b;
    }
  }

  lemma StagingIgnoresOrder(a: seq<Node>, b: seq<Node>)
    requires forall s :: s in a <==> s in b
    requires forall s :: s in a ==> Source(s) && Migratable(s)
    ensures Staged(a).1 == Staged(b).1
    ensures Staged(a).1 ==> Staged(a).0 == Staged(b).0
  {
    var (t, u) := (Staged(a).0, Staged(b).0);
    StagedExactly(a, t);
    StagedExactly(b, t);
    StagedExactly(a, u);
    StagedExactly(b, u);
    UnionIgnoresOrder(a, b, t);
    UnionIgnoresOrder(a, b, u);
  }

  /** Whether a migration succeeds, and with which contents, does not depend on the order of the sources. */
  lemma MigrationIgnoresOrder(a: seq<Option<Node>>, b: seq<Option<Node>>, target: Target, h: Host)
    requires Listed(a) && Listed(b) && forall s :: s in a <==> s in b
    ensures MigrateGroup(a, target, h) == MigrateGroup(b, target, h)
  {
    var x, y := Existing(a), Existing(b);
    forall s ensures s in x <==> s in y {
      ExistingAre(a, s);
      ExistingAre(b, s);
    }
    SameEmptiness(x, y);
    if forall s :: s in x ==> Migratable(s) {
      ExistingAreSources(a);
      StagingIgnoresOrder(x, y);
    }
  }

  lemma SameEmptiness(x: seq<Node>, y: seq<Node>)
    requires forall s :: s in x <==> s in y
    ensures x == [] <==> y == []
  {
    if x != [] { assert x[0] in y; }
    if y != [] { assert y[0] in x; }
  }

  /** A second run over the migrated destination finds everything in place. */
  lemma SecondRunIsAlreadyPresent(sources: seq<Option<Node>>, h: Host, m: Tree, again: Host)
    requires Listed(sources) && MigrateGroup(sources, Missing, h) == (Present(m), Ok(Migrated)) && again.private
    ensures MigrateGroup(sources, Present(m), again) == (Present(m), Ok(AlreadyPresent))
  {
    MigratesExactlyTheUnion(sources, h, m);
  }

  /** What lies inside a directory tree lies inside directories of that tree. */
  ghost predicate Rooted(t: Tree) {
    forall p, k :: p in t && 0 < k < |p| ==> p[..k] in t && t[p[..k]] == ADir
  }

  /** A source directory without any file below it. */
  ghost predicate Hollow(source: Tree, p: Path) {
    p in source && source[p] == ADir && forall q :: q in source && source[q].AFile? ==> !Below(q, p)
  }

  predicate HoldsItem(t: Tree, p: Path, i: Item) {
    p in t && t[p] == i
  }

  lemma BelowAtSameLength(q: Path, p: Path)
    ensures Below(q, p) && |q| == |p| ==> q == p
  {
    assert q[..|q|] == q;
  }

  lemma FileBringsParents(t: Tree, source: Tree, p: Path, q: Path)
    requires Rooted(t) && p in source && source[p] == ADir && p != []
    requires q in source && source[q].AFile? && Below(q, p) && HoldsItem(t, q, source[q])
    ensures HoldsItem(t, p, ADir)
  {
    BelowAtSameLength(q, p);
    assert q[..|p|] == p;
  }

  lemma {:induction false} ContentsAreNamed(n: Node, p: Path)
    requires p in Contents(n)
    ensures p != []
  {
    FlatIsBelow(n.listing, [], p);
  }

  /**
   What "already present" means: an existing destination holds everything in the
   sources exactly when it holds their directories that contain no file, since
   only files are compared.
   */
  lemma AlreadyPresentHoldsEverything(sources: seq<Option<Node>>, t: Tree, h: Host)
    requires MigrateGroup(sources, Present(t), h) == (Present(t), Ok(AlreadyPresent)) && Rooted(t)
    ensures (forall s, p :: s in Existing(sources) && p in Contents(s) ==> HoldsItem(t, p, Contents(s)[p]))
      <==> (forall s, p :: s in Existing(sources) && Hollow(Contents(s), p) ==> HoldsItem(t, p, ADir))
  {
    if forall s, p :: s in Existing(sources) && Hollow(Contents(s), p) ==> HoldsItem(t, p, ADir) {
      forall s, p | s in Existing(sources) && p in Contents(s) ensures HoldsItem(t, p, Contents(s)[p]) {
        if Contents(s)[p] == ADir && !Hollow(Contents(s), p) {
          var q :| q in Contents(s) && Contents(s)[q].AFile? && Below(q, p);
          ContentsAreNamed(s, p);
          FileBringsParents(t, Contents(s), p, q);
        }
      }
    }
  }

  /** So an empty directory may be missing from a destination that counts as already present. */
  lemma EmptyDirectoriesAreNotCompared(name: string)
    ensures var n := Dir(Entry(name, Dir(Empty), Empty));
      && MigrateGroup([Some(n)], Present(map[]), Host(false, true)) == (Present(map[]), Ok(AlreadyPresent))
      && !IsUnion([n], map[])
  {
    var n := Dir(Entry(name, Dir(Empty), Empty));
    var one: seq<Option<Node>> := [Some(n)];
    assert one[1..] == [] && Existing(one) == [n];
    assert Plain(Empty) && Migratable(n);
    var place: Path := [] + [name];
    assert Flat(Empty, place) == map[] && Flat(Empty, []) == map[];
    assert FlatNode(Dir(Empty), place) == map[place := ADir];
    assert Contents(n) == FlatNode(Dir(Empty), place) + Flat(Empty, []);
    assert n in [n] && place in Contents(n);
    assert AllThere([n], map[]);
  }

  /** The user-data directories: the destination and the staging directory beside it. */
  class UserData {
    var target: Target
    var staging: Option<Tree>

    constructor (target: Target)
      ensures this.target == target && staging.None?
    {
      this.target, staging := target, None;
    }

    /** Copy a listing into the staging directory in place; stops at the first conflict. */
    method CopyTreeContents(listing: Listing, at: Path) returns (ok: bool)
      requires staging.Some?
      modifies this`staging
      ensures staging.Some?
      ensures (staging.value, ok) == Copy(listing, old(staging.value), at)
      decreases listing
    {
      var todo := listing;
      while todo.Entry?
        invariant staging.Some?
        invariant Copy(todo, staging.value, at) == Copy(listing, old(staging.value), at)
        invariant todo == listing || todo < listing
        decreases todo
      {
        var place := at + [todo.name];
        match todo.node {
          case Dir(inner) =>
            if place in staging.value && staging.value[place] != ADir {
              return false;
            }
            staging := Some(staging.value[place := ADir]);
            var copied := CopyTreeContents(inner, place);
            if !copied {
              return false;
            }
          case File(data) =>
            if place in staging.value {
              if staging.value[place] != AFile(data) {
                return false;
              }
            } else {
              staging := Some(staging.value[place := AFile(data)]);
            }
          case Special =>
            return false;
        }
        todo := todo.rest;
      }
      return true;
    }

    /** Migrate a group of sources, all or nothing. */
    method MigrateTreeGroup(sources: seq<Option<Node>>, h: Host) returns (r: Result<Outcome>)
      requires staging.None?
      modifies this
      ensures (target, r) == MigrateGroup(sources, old(target), h) && staging.None?
    {
      var existing := Existing(sources);
      if existing == [] {
        if target.Unsafe? {
          return Err("unsafe_directory");
        }
        if target.Missing? {
          if h.fault {
            return Err("io_failure");
          }
          target := Present(map[]);
        }
        return if h.private then Ok(Absent) else Err("unsafe_directory");
      }
      if exists s :: s in existing && !Migratable(s) {
        return Err("unsafe_source");
      }
      if target.Unsafe? {
        return Err("unsafe_destination");
      }
      if target.Present? {
        if !AllThere(existing, target.tree) {
          return Err("conflict");
        }
        return if h.private then Ok(AlreadyPresent) else Err("unsafe_directory");
      }
      staging := Some(map[]);
      for i := 0 to |existing|
        invariant staging.Some? && target == old(target)
        invariant Staged(existing[..i]) == (staging.value, true)
      {
        assert existing[..i + 1][..i] == existing[..i];
        assert Migratable(existing[i]);
        var ok := CopyTreeContents(existing[i].listing, []);
        if !ok {
          StagedFails(existing, i + 1);
          staging := None;
          return Err("conflict");
        }
      }
      assert existing[..|existing|] == existing;
      if h.fault {
        staging := None;
        return Err("io_failure");
      }
      target := Present(staging.value);
      staging := None;
      return if h.private then Ok(Migrated) else Err("unsafe_directory");
    }

    lemma {:induction false} StagedFails(sources: seq<Node>, k: nat)
      requires k <= |sources| && !Staged(sources[..k]).1
      ensures !Staged(sources).1
      decreases |sources|
    {
      if k < |sources| {
        assert sources[..|sources| - 1][..k] == sources[..k];
        StagedFails(sources[..|sources| - 1], k);
      } else {
        assert sources[..k] == sources;
      }
    }
  }
}
