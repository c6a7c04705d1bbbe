/** A browser profile on disk and the files of it that travel in a migration archive. */
module ProfileTree {
  import opened Options

  type Bytes = seq<bv8>

  type Path = seq<string>

  datatype Node = File(data: Bytes) | Folder(listing: Listing) | Link | Device

  /** A directory's entries in the order the system lists them. */
  datatype Listing = Empty | Entry(name: string, node: Node, rest: Listing)

  /** A profile file chosen for the archive, by its path inside the profile. */
  datatype Item = Item(path: Path, data: Bytes)

  predicate ExcludedDirectory(name: string) {
    name in {"Cache", "Code Cache", "GPUCache", "GrShaderCache", "GraphiteDawnCache",
             "DawnGraphiteCache", "DawnWebGPUCache", "Crashpad", "ShaderCache", "component_crx_cache"}
  }

  predicate ExcludedFile(name: string) {
    name in {".xianyu-profile.json", "SingletonCookie", "SingletonLock", "SingletonSocket", "chrome_debug.log"}
  }

  // ----- the tree as a mapping from paths to files -----

  function Lookup(l: Listing, name: string): Option<Node> {
    match l
    case Empty => None
    case Entry(n, node, rest) => if n == name then Some(node) else Lookup(rest, name)
  }

  function FileAt(l: Listing, p: Path): Option<Bytes>
    decreases |p|
  {
    if p == [] then None
    else
      match Lookup(l, p[0])
      case Some(File(data)) => if |p| == 1 then Some(data) else None
      case Some(Folder(sub)) => FileAt(sub, p[1..])
      case _ => None
  }

  /** No directory on the way and not the file itself is excluded. */
  predicate Kept(p: Path)
    decreases |p|
  {
    if p == [] then false
    else if |p| == 1 then !ExcludedFile(p[0])
    else !ExcludedDirectory(p[0]) && Kept(p[1..])
  }

  /** Caches and crash reports of the browser. */
  ghost predicate CacheName(name: string) {
    || name == "Cache" || name == "Code Cache" || name == "GPUCache" || name == "GrShaderCache"
    || name == "GraphiteDawnCache" || name == "DawnGraphiteCache" || name == "DawnWebGPUCache"
    || name == "Crashpad" || name == "ShaderCache" || name == "component_crx_cache"
  }

  /** The service's own manifest, the browser's locks and its log. */
  ghost predicate LocalName(name: string) {
    || name == ".xianyu-profile.json" || name == "SingletonCookie" || name == "SingletonLock"
    || name == "SingletonSocket" || name == "chrome_debug.log"
  }

  lemma ExcludedAre(name: string)
    ensures ExcludedDirectory(name) <==> CacheName(name)
    ensures ExcludedFile(name) <==> LocalName(name)
  {
  }

  /** A path is kept exactly when no directory on it is a cache and its last name is not local. */
  lemma {:induction false} KeptExactly(p: Path)
    ensures Kept(p) <==> p != [] && !LocalName(p[|p| - 1]) && forall i :: 0 <= i < |p| - 1 ==> !CacheName(p[i])
    decreases |p|
  {
    if p != [] { ExcludedAre(p[0]); }
    if |p| > 1 {
      KeptExactly(p[1..]);
      assert forall i :: 1 <= i < |p| ==> p[i] == p[1..][i - 1];
    }
  }

  predicate LegalName(name: string) {
    name != "" && name != "." && name != ".." && '/' !in name
  }

  /** What a file system guarantees of its directories. */
  ghost predicate WellFormed(l: Listing)
    decreases l
  {
    match l
    case Empty => true
    case Entry(name, node, rest) =>
      && LegalName(name) && Lookup(rest, name).None? && WellFormed(rest)
      && (node.Folder? ==> WellFormed(node.listing))
  }

  // ----- the walk -----

  /** The regular files of one directory that the writer keeps. */
  function Files(path: Path, l: Listing): seq<Item> {
    match l
    case Empty => []
    case Entry(name, node, rest) =>
      (if node.File? && !ExcludedFile(name) then [Item(path + [name], node.data)] else []) + Files(path, rest)
  }

  /** `os.walk` from the top, pruned: a directory's files, then each directory in it. */
  function Walk(path: Path, l: Listing): seq<Item>
    decreases l, 1
  {
    Files(path, l) + WalkSubs(path, l)
  }

  function WalkSubs(path: Path, l: Listing): seq<Item>
    decreases l, 0
  {
    match l
    case Empty => []
    case Entry(name, node, rest) =>
      (if node.Folder? && !ExcludedDirectory(name) then Walk(path + [name], node.listing) else [])
      + WalkSubs(path, rest)
  }

  /** `q` lies strictly below `path`. */
  ghost predicate Below(path: Path, q: Path) {
    |path| < |q| && q[..|path|] == path
  }

  lemma BelowOne(path: Path, name: string, q: Path)
    ensures q == path + [name] <==> Below(path, q) && |q| == |path| + 1 && q[|path|] == name
    ensures Below(path + [name], q) <==> |q| > |path| + 1 && Below(path, q) && q[|path|] == name
  {
    if |q| > |path| {
      assert q[..|path| + 1] == q[..|path|] + [q[|path|]];
    }
    if |q| == |path| + 1 {
      assert q == q[..|path| + 1];
    }
    assert (path + [name])[..|path|] == path;
  }

  ghost predicate IsFile(l: Listing, name: string, data: Bytes) {
    Lookup(l, name) == Some(File(data)) && !ExcludedFile(name)
  }

  lemma {:induction false} FilesExactly(path: Path, l: Listing, item: Item)
    requires WellFormed(l)
    ensures item in Files(path, l) <==>
      Below(path, item.path) && |item.path| == |path| + 1 && IsFile(l, item.path[|path|], item.data)
    decreases l
  {
    if l.Entry? {
      FilesExactly(path, l.rest, item);
      BelowOne(path, l.name, item.path);
    }
  }

  ghost predicate InSub(l: Listing, p: Path, data: Bytes) {
    && |p| > 1 && !ExcludedDirectory(p[0]) && Lookup(l, p[0]).Some? && Lookup(l, p[0]).value.Folder?
    && FileAt(Lookup(l, p[0]).value.listing, p[1..]) == Some(data) && Kept(p[1..])
  }

  lemma {:induction false} SubsExactly(path: Path, l: Listing, item: Item)
    requires WellFormed(l)
    ensures item in WalkSubs(path, l) <==> Below(path, item.path) && InSub(l, item.path[|path|..], item.data)
    decreases l, 0
  {
    if l.Entry? {
      SubsExactly(path, l.rest, item);
      BelowOne(path, l.name, item.path);
      if l.node.Folder? {
        WalkExactly(path + [l.name], l.node.listing, item);
        if Below(path, item.path) { assert item.path[|path|..][1..] == item.path[|path| + 1..]; }
      }
    }
  }

  /** The walk yields exactly the regular files that are not under an excluded directory and
      do not have an excluded name, each with its own path and content. */
  lemma {:induction false} WalkExactly(path: Path, l: Listing, item: Item)
    requires WellFormed(l)
    ensures item in Walk(path, l) <==>
      Below(path, item.path) && FileAt(l, item.path[|path|..]) == Some(item.data) && Kept(item.path[|path|..])
    decreases l, 1
  {
    FilesExactly(path, l, item);
    SubsExactly(path, l, item);
    if Below(path, item.path) {
      var p := item.path[|path|..];
      if |p| == 1 && Lookup(l, p[0]).Some? && Lookup(l, p[0]).value.Folder? { assert p[1..] == []; }
    }
  }

  // ----- no path twice, no file below a file -----

  ghost predicate Distinct(items: seq<Item>) {
    forall i, j :: 0 <= i < j < |items| ==> items[i].path != items[j].path
  }

  lemma DistinctConcat(a: seq<Item>, b: seq<Item>)
    requires Distinct(a) && Distinct(b)
    requires forall x, y :: x in a && y in b ==> x.path != y.path
    ensures Distinct(a + b)
  {
    var c := a + b;
    forall i, j | 0 <= i < j < |c| ensures c[i].path != c[j].path {
      if i < |a| <= j { assert c[i] in a && c[j] in b; }
    }
  }

  lemma {:induction false} FilesDistinct(path: Path, l: Listing)
    requires WellFormed(l)
    ensures Distinct(Files(path, l))
    decreases l
  {
    if l.Entry? {
      FilesDistinct(path, l.rest);
      if l.node.File? && !ExcludedFile(l.name) {
        var first := [Item(path + [l.name], l.node.data)];
        forall x, y | x in first && y in Files(path, l.rest) ensures x.path != y.path {
          FilesExactly(path, l.rest, y);
        }
        DistinctConcat(first, Files(path, l.rest));
      }
    }
  }

  lemma {:induction false} SubsDistinct(path: Path, l: Listing)
    requires WellFormed(l)
    ensures Distinct(WalkSubs(path, l))
    decreases l, 0
  {
    if l.Entry? {
      SubsDistinct(path, l.rest);
      if l.node.Folder? && !ExcludedDirectory(l.name) {
        var first := Walk(path + [l.name], l.node.listing);
        WalkDistinct(path + [l.name], l.node.listing);
        forall x, y | x in first && y in WalkSubs(path, l.rest) ensures x.path != y.path {
          WalkExactly(path + [l.name], l.node.listing, x);
          BelowOne(path, l.name, x.path);
          SubsExactly(path, l.rest, y);
        }
        DistinctConcat(first, WalkSubs(path, l.rest));
      }
    }
  }

  lemma {:induction false} WalkDistinct(path: Path, l: Listing)
    requires WellFormed(l)
    ensures Distinct(Walk(path, l))
    decreases l, 1
  {
    FilesDistinct(path, l);
    SubsDistinct(path, l);
    forall x, y | x in Files(path, l) && y in WalkSubs(path, l) ensures x.path != y.path {
      FilesExactly(path, l, x);
      SubsExactly(path, l, y);
    }
    DistinctConcat(Files(path, l), WalkSubs(path, l));
  }

  lemma {:induction false} FilesAreLeaves(l: Listing, p: Path, q: Path)
    requires FileAt(l, p).Some? && FileAt(l, q).Some? && p <= q
    ensures p == q
    decreases |p|
  {
    if |p| > 1 {
      assert p[0] == q[0] && p[1..] <= q[1..];
      var node := Lookup(l, p[0]).value;
      if node.Folder? {
        FilesAreLeaves(node.listing, p[1..], q[1..]);
        assert p == [p[0]] + p[1..] && q == [q[0]] + q[1..];
      }
    } else {
      assert p[0] == q[0];
    }
  }

  lemma {:induction false} LookupLegal(l: Listing, name: string)
    requires WellFormed(l) && Lookup(l, name).Some?
    ensures LegalName(name)
    ensures Lookup(l, name).value.Folder? ==> WellFormed(Lookup(l, name).value.listing)
    decreases l
  {
    if l.name != name { LookupLegal(l.rest, name); }
  }

  /** The components of a file's path are legal names. */
  lemma {:induction false} PathsAreLegal(l: Listing, p: Path)
    requires WellFormed(l) && FileAt(l, p).Some?
    ensures forall name :: name in p ==> LegalName(name)
    decreases |p|
  {
    LookupLegal(l, p[0]);
    var node := Lookup(l, p[0]).value;
    if node.Folder? {
      PathsAreLegal(node.listing, p[1..]);
    }
    assert p == [p[0]] + p[1..];
  }
}
