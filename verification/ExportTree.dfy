/**
 The tree of files of exportfs/exportfs.c and the requests of exportfs/exportsrv.c that
 move fids over it. A file counts the fids on it, its children and, for the root, one
 more; what a request holds for a moment is counted in extra.
 */
module ExportSpec {
  import opened Bytes
  import opened QidTable

  type Id = nat

  const ROOT: Id := 0
  const MAXWELEM := 16

  datatype File = File(name: string, parent: Option<Id>, ref: int, child: seq<Id>, qid: Key)

  type Files = map<Id, File>
  type Fids = map<nat, Id>

  predicate NoDup(s: seq<Id>) { forall i, j :: 0 <= i < j < |s| ==> s[i] != s[j] }

  /** One file's links. Parents are older than their children, so there are no cycles. */
  predicate Node(files: Files, next: Id, f: Id)
    requires f in files
  {
    var x := files[f];
    && f < next
    && (f == ROOT <==> x.parent == None)
    && (x.parent.Some? ==> x.parent.value in files && x.parent.value < f && f in files[x.parent.value].child)
    && (forall i :: 0 <= i < |x.child| ==> x.child[i] in files && files[x.child[i]].parent == Some(f))
    && NoDup(x.child)
  }

  predicate Tree(files: Files, next: Id) {
    ROOT in files && forall f :: f in files ==> Node(files, next, f)
  }

  /** The fids on a file. */
  function On(fids: Fids, f: Id): set<nat> { set n | n in fids && fids[n] == f }

  function Owed(files: Files, fids: Fids, extra: multiset<Id>, f: Id): int
    requires f in files
  {
    |On(fids, f)| + |files[f].child| + extra[f] + if f == ROOT then 1 else 0
  }

  predicate Balanced(files: Files, fids: Fids, extra: multiset<Id>) {
    && (forall f :: f in files ==> files[f].ref == Owed(files, fids, extra, f) && files[f].ref > 0)
    && (forall n :: n in fids ==> fids[n] in files)
    && (forall f :: f in extra ==> f in files)
  }

  /** The files that use the entry of k in the qid table. */
  function Users(files: Files, k: Key): set<Id> { set f | f in files && files[f].qid == k }

  /** No entry in use is gone: each has a reference for every file that uses it (and
      more, since every lookup takes one). */
  predicate QidsOk(files: Files, qids: map<Key, int>) {
    && (forall f :: f in files ==> files[f].qid in qids)
    && (forall k :: k in qids ==> qids[k] > 0 && |Users(files, k)| <= qids[k])
  }

  lemma OnPut(fids: Fids, n: nat, f: Id, g: Id)
    requires n !in fids
    ensures |On(fids[n := f], g)| == |On(fids, g)| + if g == f then 1 else 0
  {
    assert On(fids[n := f], g) == On(fids, g) + if g == f then {n} else {};
  }

  lemma OnDrop(fids: Fids, n: nat, g: Id)
    requires n in fids
    ensures |On(fids - {n}, g)| == |On(fids, g)| - if fids[n] == g then 1 else 0
    ensures fids[n] == g ==> |On(fids, g)| > 0
  {
    assert On(fids, g) == On(fids - {n}, g) + if fids[n] == g then {n} else {};
  }

  lemma UsersPut(files: Files, f: Id, x: File, k: Key)
    ensures |Users(files[f := x], k)| <= |Users(files, k)| + if x.qid == k then 1 else 0
    ensures f in files && files[f].qid == x.qid ==> Users(files[f := x], k) == Users(files, k)
  {
    var u := Users(files[f := x], k);
    assert u - {f} <= Users(files, k);
    Subset(u - {f}, Users(files, k));
    assert |u| == |u - {f}| + if f in u then 1 else 0;
  }

  lemma {:induction false} Subset<T>(a: set<T>, b: set<T>)
    requires a <= b
    ensures |a| <= |b|
  {
    assert b == a + (b - a);
  }

  lemma UsersDrop(files: Files, f: Id, k: Key)
    requires f in files
    ensures |Users(files - {f}, k)| == |Users(files, k)| - if files[f].qid == k then 1 else 0
  {
    assert Users(files, k) == Users(files - {f}, k) + if files[f].qid == k then {f} else {};
  }

  // ---- Paths ----

  /** The names from the root down to a file. */
  function PathOf(files: Files, next: Id, f: Id): seq<string>
    requires Tree(files, next) && f in files
    decreases f
  {
    assert Node(files, next, f);
    if files[f].parent == None then [] else PathOf(files, next, files[f].parent.value) + [files[f].name]
  }

  /** v has no file that u does not know by the same name under the same parent. */
  predicate Kept(u: Files, v: Files) {
    forall f :: f in v ==> f in u && v[f].name == u[f].name && v[f].parent == u[f].parent && v[f].qid == u[f].qid
  }

  lemma {:induction false} PathKept(u: Files, nu: Id, v: Files, nv: Id, f: Id)
    requires Tree(u, nu) && Tree(v, nv) && f in u && f in v
    requires forall g :: g in u && g in v ==> v[g].name == u[g].name && v[g].parent == u[g].parent
    ensures PathOf(v, nv, f) == PathOf(u, nu, f)
    decreases f
  {
    assert Node(u, nu, f) && Node(v, nv, f);
    if u[f].parent.Some? {
      PathKept(u, nu, v, nv, u[f].parent.value);
    }
  }

  /** Where a walk leads; ".." at the root is refused before it gets here. */
  function Walked(path: seq<string>, names: seq<string>): seq<string> {
    if names == [] then path
    else
      var last := names[|names| - 1];
      var p := Walked(path, names[..|names| - 1]);
      if last != ".." then p + [last] else if p == [] then [] else p[..|p| - 1]
  }

  /** Whether a walk gets past a name: ".." at the root is refused, any other name has
      to be there on the host. */
  predicate CanStep(path: seq<string>, name: string, stat: Option<Key>) {
    if name == ".." then path != [] else stat.Some?
  }

  /** Names without ".." are put behind the path, one below the other. */
  lemma {:induction false} WalkedDown(path: seq<string>, names: seq<string>)
    requires ".." !in names
    ensures Walked(path, names) == path + names
  {
    if names != [] {
      var k := |names| - 1;
      WalkedDown(path, names[..k]);
      assert names == names[..k] + [names[k]];
    } else {
      assert path + names == path;
    }
  }

  /** A name and ".." behind it lead back, whatever comes before them. */
  lemma WalkedBack(path: seq<string>, names: seq<string>, name: string)
    requires name != ".."
    ensures Walked(path, names + [name] + [".."]) == Walked(path, names)
  {
    var xs := names + [name];
    assert (xs + [".."])[..|xs|] == xs && xs[..|names|] == names;
    assert (Walked(path, names) + [name])[..|Walked(path, names)|] == Walked(path, names);
  }

  /** "..", where something has been walked down to, takes its last name off. */
  lemma WalkedUp(path: seq<string>)
    requires path != []
    ensures |Walked(path, [".."])| == |path| - 1 && Walked(path, [".."]) <= path
  {
    assert [".."][..0] == [];
  }

  lemma WalkedOn(path: seq<string>, names: seq<string>, i: nat)
    requires i < |names|
    ensures Walked(path, names[..i + 1]) == Walked(Walked(path, names[..i]), [names[i]])
  {
    var xs := names[..i + 1];
    assert xs[..|xs| - 1] == names[..i] && xs[|xs| - 1] == names[i];
    assert [names[i]][..0] == [];
  }

  // ---- What is in the tree ----

  /** a is f or above it. */
  ghost predicate Above(files: Files, next: Id, a: Id, f: Id)
    requires Tree(files, next) && f in files
    decreases f
  {
    assert Node(files, next, f);
    a == f || (files[f].parent.Some? && Above(files, next, a, files[f].parent.value))
  }

  lemma {:induction false} AboveParent(files: Files, next: Id, a: Id, f: Id)
    requires Tree(files, next) && f in files && a in files && Above(files, next, a, f) && files[a].parent.Some?
    ensures Above(files, next, files[a].parent.value, f)
    decreases f
  {
    assert Node(files, next, f) && Node(files, next, a);
    if a != f {
      AboveParent(files, next, a, files[f].parent.value);
    }
  }

  /** Every file but the root is there for a fid on it or below it, and so with the root
      these are all: nothing is leaked, and nothing that a fid can reach is gone. */
  lemma {:induction false} Reachable(files: Files, next: Id, fids: Fids, f: Id)
    requires Tree(files, next) && Balanced(files, fids, multiset{}) && f in files && f != ROOT
    ensures exists n :: n in fids && Above(files, next, f, fids[n])
    decreases next - f
  {
    assert Node(files, next, f);
    if On(fids, f) != {} {
      var n :| n in On(fids, f);
      assert Above(files, next, f, fids[n]);
    } else {
      var c := files[f].child[0];
      assert c in files && Node(files, next, c) && c > f;
      Reachable(files, next, fids, c);
      var n :| n in fids && Above(files, next, c, fids[n]);
      AboveParent(files, next, c, fids[n]);
    }
  }
}

module Export {
  import opened Bytes
  import opened QidTable
  import opened ExportSpec

  /** The files without f, which is the i-th child of p. */
  function Detached(files: Files, f: Id, p: Id, i: nat): Files
    requires p in files && i < |files[p].child|
  {
    (files - {f})[p := files[p].(child := files[p].child[..i] + files[p].child[i + 1..])]
  }

  predicate ChildAt(files: Files, f: Id, p: Id, i: nat) {
    p in files && i < |files[p].child| && files[p].child[i] == f
  }

  lemma DetachKeepsTree(files: Files, next: Id, f: Id, p: Id, i: nat)
    requires Tree(files, next) && f in files && files[f].parent == Some(p) && files[f].child == []
    requires ChildAt(files, f, p, i)
    ensures p != f && Tree(Detached(files, f, p, i), next)
  {
    hide Node;
    NodeFacts(files, next, f);
    var v := Detached(files, f, p, i);
    forall g | g in v ensures Node(v, next, g) {
      if g == p {
        ParentKeepsNode(files, next, f, p, i);
      } else {
        OtherKeepsNode(files, next, f, p, i, g);
      }
    }
  }

  lemma NodeFacts(files: Files, next: Id, f: Id)
    requires Tree(files, next) && f in files
    ensures f < next && (f == ROOT <==> files[f].parent == None)
    ensures files[f].parent.Some? ==> files[f].parent.value in files && files[f].parent.value < f &&
                                      f in files[files[f].parent.value].child
  {
    assert Node(files, next, f);
  }

  lemma ParentKeepsNode(files: Files, next: Id, f: Id, p: Id, i: nat)
    requires Tree(files, next) && f in files && p != f && ChildAt(files, f, p, i)
    requires files[f].parent == Some(p) && files[f].child == []
    ensures Node(Detached(files, f, p, i), next, p)
  {
    assert Node(files, next, f) && Node(files, next, p);
    var v := Detached(files, f, p, i);
    var c := v[p].child;
    assert forall j :: 0 <= j < |c| ==> c[j] == files[p].child[if j < i then j else j + 1];
    assert files[p].parent.Some? ==> files[p].parent.value != f;
  }

  lemma OtherKeepsNode(files: Files, next: Id, f: Id, p: Id, i: nat, g: Id)
    requires Tree(files, next) && f in files && p != f && ChildAt(files, f, p, i)
    requires files[f].parent == Some(p) && files[f].child == [] && g in files && g != f && g != p
    ensures Node(Detached(files, f, p, i), next, g)
  {
    assert Node(files, next, g) && Node(files, next, f) && Node(files, next, p);
    var v := Detached(files, f, p, i);
    if files[g].parent == Some(p) {
      var j :| 0 <= j < |files[p].child| && files[p].child[j] == g;
      assert v[p].child[if j < i then j else j - 1] == g;
    }
    assert files[g].parent.Some? ==> files[g].parent.value != f;
    forall j | 0 <= j < |v[g].child| ensures v[g].child[j] in v && v[v[g].child[j]].parent == Some(g) {
      assert files[g].child[j] != f;
    }
  }

  lemma DetachKeepsBalance(files: Files, next: Id, fids: Fids, extra: multiset<Id>, f: Id, p: Id, i: nat)
    requires Tree(files, next) && Balanced(files, fids, extra + multiset{f}) && f in files && files[f].ref == 1
    requires files[f].parent == Some(p) && p != f && ChildAt(files, f, p, i)
    ensures files[f].child == [] && Balanced(Detached(files, f, p, i), fids, extra + multiset{p})
  {
    assert files[f].ref == Owed(files, fids, extra + multiset{f}, f);
    assert On(fids, f) == {} && extra[f] == 0;
    var v := Detached(files, f, p, i);
    forall n | n in fids ensures fids[n] in v {
      assert fids[n] == f ==> n in On(fids, f);
    }
    forall g | g in v ensures v[g].ref == Owed(v, fids, extra + multiset{p}, g) && v[g].ref > 0 {
      assert files[g].ref == Owed(files, fids, extra + multiset{f}, g);
    }
  }

  /** One reference fewer on f. */
  lemma Lowered(files: Files, next: Id, fids: Fids, extra: multiset<Id>, f: Id)
    requires Tree(files, next) && Balanced(files, fids, extra + multiset{f}) && f in files
    ensures files[f].ref >= 1 && (files[f].ref == 1 ==> f != ROOT)
    ensures files[f].ref > 1 ==> Balanced(files[f := files[f].(ref := files[f].ref - 1)], fids, extra)
  {
    var v := files[f := files[f].(ref := files[f].ref - 1)];
    assert files[f].ref == Owed(files, fids, extra + multiset{f}, f);
    forall g | g in v && files[f].ref > 1 ensures v[g].ref == Owed(v, fids, extra, g) && v[g].ref > 0 {
      assert files[g].ref == Owed(files, fids, extra + multiset{f}, g);
    }
    assert forall g :: g in extra ==> g in extra + multiset{f};
  }

  lemma RefKeepsTree(files: Files, next: Id, f: Id, r: int, q: Key)
    requires Tree(files, next) && f in files
    ensures Tree(files[f := files[f].(ref := r, qid := q)], next)
  {
    var v := files[f := files[f].(ref := r, qid := q)];
    forall g | g in v ensures Node(v, next, g) {
      assert Node(files, next, g);
    }
  }

  lemma FreedQid(files: Files, qids: map<Key, int>, f: Id)
    requires QidsOk(files, qids) && f in files
    ensures var k := files[f].qid;
            QidsOk(files - {f}, if qids[k] > 1 then qids[k := qids[k] - 1] else qids - {k})
  {
    var k := files[f].qid;
    var w := if qids[k] > 1 then qids[k := qids[k] - 1] else qids - {k};
    UsersDrop(files, f, k);
    forall j | j in w ensures w[j] > 0 && |Users(files - {f}, j)| <= w[j] {
      UsersDrop(files, f, j);
    }
    forall g | g in files - {f} ensures files[g].qid in w {
      assert files[g].qid == k ==> g in Users(files - {f}, k);
    }
  }

  lemma Raised(files: Files, next: Id, fids: Fids, extra: multiset<Id>, f: Id, q: Key)
    requires Tree(files, next) && Balanced(files, fids, extra) && f in files
    ensures Balanced(files[f := files[f].(ref := files[f].ref + 1, qid := q)], fids, extra + multiset{f})
  {
    var v := files[f := files[f].(ref := files[f].ref + 1, qid := q)];
    forall g | g in v ensures v[g].ref == Owed(v, fids, extra + multiset{f}, g) && v[g].ref > 0 {
      assert files[g].ref == Owed(files, fids, extra, g);
    }
  }

  /** The files with a new one under p. */
  function Sprouted(files: Files, next: Id, p: Id, name: string, q: Key): Files
    requires p in files
  {
    files[p := files[p].(child := [next] + files[p].child, ref := files[p].ref + 1)][next := File(name, Some(p), 1, [], q)]
  }

  lemma SproutKeepsTree(files: Files, next: Id, p: Id, name: string, q: Key)
    requires Tree(files, next) && p in files
    ensures next !in files && next != ROOT && Tree(Sprouted(files, next, p, name, q), next + 1)
  {
    var v := Sprouted(files, next, p, name, q);
    assert Node(files, next, ROOT) && (next in files ==> Node(files, next, next));
    hide Node;
    forall g | g in v ensures Node(v, next + 1, g) {
      if g == next {
        SproutIsNode(files, next, p, name, q);
      } else if g == p {
        SproutKeepsParent(files, next, p, name, q);
      } else {
        SproutKeepsNode(files, next, p, name, q, g);
      }
    }
  }

  lemma SproutIsNode(files: Files, next: Id, p: Id, name: string, q: Key)
    requires Tree(files, next) && p in files && next != ROOT && next !in files
    ensures Node(Sprouted(files, next, p, name, q), next + 1, next)
  {
    assert Node(files, next, p);
    assert Sprouted(files, next, p, name, q)[p].child[0] == next;
  }

  lemma SproutKeepsParent(files: Files, next: Id, p: Id, name: string, q: Key)
    requires Tree(files, next) && p in files && next != ROOT && next !in files
    ensures Node(Sprouted(files, next, p, name, q), next + 1, p)
  {
    var v := Sprouted(files, next, p, name, q);
    assert Node(files, next, p);
    assert forall j :: 0 < j < |v[p].child| ==> v[p].child[j] == files[p].child[j - 1];
  }

  lemma SproutKeepsNode(files: Files, next: Id, p: Id, name: string, q: Key, g: Id)
    requires Tree(files, next) && p in files && g in files && g != p && next != ROOT && next !in files
    ensures Node(Sprouted(files, next, p, name, q), next + 1, g)
  {
    var v := Sprouted(files, next, p, name, q);
    assert Node(files, next, p) && Node(files, next, g);
    assert v[p].child == [next] + files[p].child;
  }

  lemma SproutKeepsBalance(files: Files, next: Id, fids: Fids, extra: multiset<Id>, p: Id, name: string, q: Key)
    requires Tree(files, next) && Balanced(files, fids, extra) && p in files && next !in files && next != ROOT
    ensures Balanced(Sprouted(files, next, p, name, q), fids, extra + multiset{next})
  {
    var v := Sprouted(files, next, p, name, q);
    assert next !in extra && On(fids, next) == {};
    forall g | g in v ensures v[g].ref == Owed(v, fids, extra + multiset{next}, g) && v[g].ref > 0 {
      assert g != next ==> files[g].ref == Owed(files, fids, extra, g);
    }
  }

  /** uniqueqid as far as references go. */
  function MoreQid(qids: map<Key, int>, k: Key): map<Key, int> {
    qids[k := if k in qids then qids[k] + 1 else 1]
  }

  lemma UsedQid(files: Files, qids: map<Key, int>, f: Id, x: File)
    requires QidsOk(files, qids)
    ensures QidsOk(files[f := x], MoreQid(qids, x.qid))
  {
    var w := MoreQid(qids, x.qid);
    forall k | k in w ensures w[k] > 0 && |Users(files[f := x], k)| <= w[k] {
      UsersPut(files, f, x, k);
      if k !in qids {
        assert Users(files, k) == {};
      }
    }
  }

  lemma PlainQids(files: Files, qids: map<Key, int>, f: Id, x: File)
    requires QidsOk(files, qids) && f in files && x.qid == files[f].qid
    ensures QidsOk(files[f := x], qids)
  {
    forall k | k in qids ensures |Users(files[f := x], k)| <= qids[k] {
      UsersPut(files, f, x, k);
      if x.qid == k {
        assert Users(files[f := x], k) == Users(files, k);
      }
    }
  }

  /** The fid n moves from a file to another, whose reference it takes over. */
  lemma Moved(files: Files, fids: Fids, n: nat, wf: Id)
    requires Balanced(files, fids, multiset{wf}) && n in fids
    ensures wf in files && Balanced(files, fids[n := wf], multiset{fids[n]})
  {
    assert wf in multiset{wf};
    var v := fids[n := wf];
    forall g | g in files ensures files[g].ref == Owed(files, v, multiset{fids[n]}, g) {
      assert files[g].ref == Owed(files, fids, multiset{wf}, g);
      OnDrop(fids, n, g);
      OnPut(fids - {n}, n, wf, g);
      assert (fids - {n})[n := wf] == v;
    }
  }

  lemma FidPlaced(files: Files, fids: Fids, n: nat, f: Id)
    requires Balanced(files, fids, multiset{f}) && n !in fids
    ensures Balanced(files, fids[n := f], multiset{})
  {
    assert f in multiset{f};
    forall g | g in files ensures files[g].ref == Owed(files, fids[n := f], multiset{}, g) {
      assert files[g].ref == Owed(files, fids, multiset{f}, g);
      OnPut(fids, n, f, g);
    }
  }

  lemma Lifted(files: Files, fids: Fids, n: nat)
    requires Balanced(files, fids, multiset{}) && n in fids
    ensures Balanced(files, fids - {n}, multiset{fids[n]})
  {
    forall g | g in files ensures files[g].ref == Owed(files, fids - {n}, multiset{fids[n]}, g) {
      assert files[g].ref == Owed(files, fids, multiset{}, g);
      OnDrop(fids, n, g);
    }
  }

  /** The files of both have the same name and parent in both. */
  predicate Agree(u: Files, v: Files) {
    forall f :: f in u && f in v ==> v[f].name == u[f].name && v[f].parent == u[f].parent
  }

  /** Every file of u is in v, by the same name under the same parent. */
  predicate Grown(u: Files, v: Files) {
    forall f :: f in u ==> f in v && v[f].name == u[f].name && v[f].parent == u[f].parent
  }

  class Tables {
    var files: Files
    var fids: Fids
    var next: Id              // newer than every file
    var qids: map<Key, int>   // the references of the entries of the qid table

    ghost predicate Holding(extra: multiset<Id>)
      reads this
    {
      Tree(files, next) && Balanced(files, fids, extra) && QidsOk(files, qids)
    }

    ghost predicate Valid()
      reads this
    {
      Holding(multiset{})
    }

    /** initroot */
    constructor (k: Key)
      ensures Valid() && fids == map[] && files.Keys == {ROOT}
    {
      files := map[ROOT := File(".", None, 1, [], k)];
      fids, next, qids := map[], 1, map[k := 1];
      new;
      assert Node(files, next, ROOT);
      assert On(fids, ROOT) == {};
      assert Users(files, k) == {ROOT};
    }

    /** freefile: gives up a reference, and if it was the last one unlinks the file and
        goes on with its parent. The root is never freed, and the file is always found
        among its parent's children. */
    method Freefile(f0: Id, ghost extra: multiset<Id>)
      requires Holding(extra + multiset{f0}) && f0 in files
      modifies `files, `qids
      ensures Holding(extra) && Kept(old(files), files)
    {
      hide Tree, Balanced, QidsOk, Node;
      var f, more := f0, true;
      while more
        invariant Kept(old(files), files)
        invariant more ==> f in files && Holding(extra + multiset{f})
        invariant !more ==> Holding(extra)
        decreases if more then |files| + 1 else 0
      {
        Lowered(files, next, fids, extra, f);
        var x := files[f];
        if x.ref - 1 > 0 {
          RefKeepsTree(files, next, f, x.ref - 1, x.qid);
          RefKeepsQids(files, qids, f, x.ref - 1);
          files := files[f := x.(ref := x.ref - 1)];
          more := false;
        } else {
          f := Unlink(f, extra);
        }
      }
    }

    lemma RefKeepsQids(files: Files, qids: map<Key, int>, f: Id, r: int)
      requires QidsOk(files, qids) && f in files
      ensures QidsOk(files[f := files[f].(ref := r)], qids)
    {
      forall k | k in qids ensures |Users(files[f := files[f].(ref := r)], k)| <= qids[k] {
        UsersPut(files, f, files[f].(ref := r), k);
      }
    }

    /** Frees a file without references, and leaves one to give up on its parent. */
    method Unlink(f: Id, ghost extra: multiset<Id>) returns (p: Id)
      requires Holding(extra + multiset{f}) && f in files && files[f].ref == 1 && f != ROOT
      modifies `files, `qids
      ensures p in files && Holding(extra + multiset{p}) && Kept(old(files), files) && |files| < old(|files|)
    {
      hide Node, Tree, Balanced, QidsOk;
      NodeFacts(files, next, f);
      var x := files[f];
      p := x.parent.value;
      var i := ChildIndex(p, f);
      DetachKeepsBalance(files, next, fids, extra, f, p, i);
      DetachKeepsTree(files, next, f, p, i);
      FreedQid(files, qids, f);
      DetachKeepsQids(files, f, p, i);
      ghost var was := files;
      files := files[p := files[p].(child := files[p].child[..i] + files[p].child[i + 1..])] - {f};
      assert files == Detached(was, f, p, i);
      assert files.Keys == was.Keys - {f};
      BalancedIn(files, fids, extra, p);
      QidIn(was, qids, f);
      Freeqid(x.qid);
    }

    lemma BalancedIn(files: Files, fids: Fids, extra: multiset<Id>, p: Id)
      requires Balanced(files, fids, extra + multiset{p})
      ensures p in files
    {
      assert p in extra + multiset{p};
    }

    lemma QidIn(files: Files, qids: map<Key, int>, f: Id)
      requires QidsOk(files, qids) && f in files
      ensures files[f].qid in qids
    {}

    /** Where f is among the children of p; it never runs past the end of the list. */
    method ChildIndex(p: Id, f: Id) returns (i: nat)
      requires p in files && f in files[p].child
      ensures ChildAt(files, f, p, i)
    {
      var c := files[p].child;
      i := 0;
      while c[i] != f
        invariant i < |c| && f in c[i..]
        decreases |c| - i
      {
        i := i + 1;
      }
    }

    lemma DetachKeepsQids(files: Files, f: Id, p: Id, i: nat)
      requires p in files && p != f && i < |files[p].child|
      ensures forall w :: QidsOk(files - {f}, w) ==> QidsOk(Detached(files, f, p, i), w)
    {
      var u, v := files - {f}, Detached(files, f, p, i);
      forall k ensures Users(v, k) == Users(u, k) {
        UsersPut(u, p, v[p], k);
      }
    }

    method Freeqid(k: Key)
      requires k in qids
      modifies `qids
      ensures qids == if old(qids)[k] > 1 then old(qids)[k := old(qids)[k] - 1] else old(qids) - {k}
    {
      if qids[k] - 1 > 0 {
        qids := qids[k := qids[k] - 1];
      } else {
        qids := qids - {k};
      }
    }

    /** Where a fid is. */
    ghost function Where(n: nat): seq<string>
      requires Valid() && n in fids
      reads this
    {
      PathOf(files, next, fids[n])
    }

    /** The first child by that name. */
    method Lookup(p: Id, name: string) returns (f: Option<Id>)
      requires Tree(files, next) && p in files
      ensures f.Some? ==> f.value in files && files[f.value].parent == Some(p) && files[f.value].name == name
      ensures f == None ==> forall c :: c in files[p].child ==> c in files && files[c].name != name
    {
      assert Node(files, next, p);
      var c, i := files[p].child, 0;
      while i < |c|
        invariant i <= |c| && forall j :: 0 <= j < i ==> files[c[j]].name != name
      {
        if files[c[i]].name == name {
          return Some(c[i]);
        }
        i := i + 1;
      }
      f := None;
    }

    /** file: the file of a name under p, with a reference more. stat is what the host
        says of the name. */
    method GetFile(p: Id, name: string, stat: Option<Key>) returns (wf: Option<Id>)
      requires Valid() && p in files
      modifies `files, `qids, `next
      ensures wf == None <==> stat == None
      ensures wf == None ==> files == old(files) && next == old(next) && qids == old(qids)
      ensures wf.Some? ==> && Holding(multiset{wf.value}) && wf.value in files && Grown(old(files), files)
                           && files[wf.value].parent == Some(p) && files[wf.value].name == name
                           && files[wf.value].qid == stat.value
    {
      hide Tree, Balanced, QidsOk, Node;
      if stat == None {
        return None;
      }
      var f := Lookup(p, name);
      if f.Some? {
        var x := files[f.value].(ref := files[f.value].ref + 1, qid := stat.value);
        RefKeepsTree(files, next, f.value, x.ref, x.qid);
        Raised(files, next, fids, multiset{}, f.value, x.qid);
        UsedQid(files, qids, f.value, x);
        files := files[f.value := x];
      } else {
        SproutKeepsTree(files, next, p, name, stat.value);
        SproutKeepsBalance(files, next, fids, multiset{}, p, name, stat.value);
        var x := files[p].(child := [next] + files[p].child, ref := files[p].ref + 1);
        PlainQids(files, qids, p, x);
        files := files[p := x];
        UsedQid(files, qids, next, File(name, Some(p), 1, [], stat.value));
        files := files[next := File(name, Some(p), 1, [], stat.value)];
        f := Some(next);
        next := next + 1;
      }
      qids := MoreQid(qids, stat.value);
      assert multiset{} + multiset{f.value} == multiset{f.value};
      wf := f;
    }

    /** Every other fid stays on its file, and that stays where it was. */
    twostate predicate OthersStay(n: nat)
      requires old(Valid()) && Valid()
      reads this
    {
      forall m :: m in old(fids) && m != n ==> m in fids && fids[m] == old(fids[m]) && Where(m) == old(Where(m))
    }

    /** freefid */
    method Freefid(n: nat) returns (found: bool)
      requires Valid()
      modifies `files, `qids, `fids
      ensures Valid() && found == (n in old(fids)) && fids == old(fids) - {n} && Agree(old(files), files)
    {
      hide Tree, Balanced, QidsOk;
      if n !in fids {
        assert fids - {n} == fids;
        return false;
      }
      var f := fids[n];
      Lifted(files, fids, n);
      InFiles(files, fids, n);
      assert multiset{} + multiset{f} == multiset{f};
      fids := fids - {n};
      Freefile(f, multiset{});
      found := true;
    }

    lemma InFiles(files: Files, fids: Fids, n: nat)
      requires Balanced(files, fids, multiset{}) && n in fids
      ensures fids[n] in files
    {}

    /** A reference more on f, taken over by the new fid n: newfid, then f->ref++. */
    method Putfid(n: nat, f: Id)
      requires Valid() && n !in fids && f in files
      modifies `files, `fids
      ensures Valid() && fids == old(fids)[n := f] && Agree(old(files), files)
    {
      hide Tree, Balanced, QidsOk;
      var x := files[f];
      RefKeepsTree(files, next, f, x.ref + 1, x.qid);
      Raised(files, next, fids, multiset{}, f, x.qid);
      PlainQids(files, qids, f, x.(ref := x.ref + 1));
      files := files[f := x.(ref := x.ref + 1)];
      assert multiset{} + multiset{f} == multiset{f};
      FidPlaced(files, fids, n, f);
      fids := fids[n := f];
    }

    /** Paths do not change when files are added, freed or counted. */
    lemma SameWhere(u: Files, nu: Id, v: Files, nv: Id, f: Id)
      requires Tree(u, nu) && Tree(v, nv) && f in u && f in v && Agree(u, v)
      ensures PathOf(v, nv, f) == PathOf(u, nu, f)
    {
      PathKept(u, nu, v, nv, f);
    }

    /** The same for all fids but n. */
    lemma SameAll(u: Files, nu: Id, fu: Fids, v: Files, nv: Id, fv: Fids, n: nat)
      requires Tree(u, nu) && Tree(v, nv) && Balanced(u, fu, multiset{}) && Balanced(v, fv, multiset{})
      requires Agree(u, v) && forall m :: m in fu && m != n ==> m in fv && fv[m] == fu[m]
      ensures forall m :: m in fu && m != n ==>
                fu[m] in u && fu[m] in v && PathOf(v, nv, fu[m]) == PathOf(u, nu, fu[m])
    {
      forall m | m in fu && m != n ensures fu[m] in u && fu[m] in v && PathOf(v, nv, fu[m]) == PathOf(u, nu, fu[m]) {
        InFiles(u, fu, m);
        InFiles(v, fv, m);
        SameWhere(u, nu, v, nv, fu[m]);
      }
    }

    /** Xattach */
    method Xattach(n: nat) returns (ok: bool)
      requires Valid()
      modifies `files, `fids
      ensures Valid() && ok == (n !in old(fids))
      ensures !ok ==> files == old(files) && fids == old(fids)
      ensures ok ==> fids == old(fids)[n := ROOT] && OthersStay(n)
    {
      hide Tree, Balanced, QidsOk, Agree, PathOf;
      if n in fids {
        return false;
      }
      ghost var u, fu := files, fids;
      RootIn(files, next);
      Putfid(n, ROOT);
      SameAll(u, next, fu, files, next, fids, n);
      ok := true;
    }

    lemma RootIn(files: Files, next: Id)
      requires Tree(files, next)
      ensures ROOT in files
    {}

    /** Xclunk, and Xremove when the host has removed the file. */
    method Xclunk(n: nat) returns (ok: bool)
      requires Valid()
      modifies `files, `qids, `fids
      ensures Valid() && ok == (n in old(fids)) && fids == old(fids) - {n} && OthersStay(n)
    {
      hide Tree, Balanced, QidsOk, Agree, PathOf;
      ghost var u, fu := files, fids;
      ok := Freefid(n);
      SameAll(u, next, fu, files, next, fids, n);
    }

    /** clonefid: a fid in use under the new number is freed first. */
    method Clonefid(n: nat, newfid: nat)
      requires Valid() && n in fids && n != newfid
      modifies `files, `qids, `fids
      ensures Valid() && fids == old(fids)[newfid := old(fids)[n]] && Where(newfid) == old(Where(n)) && OthersStay(newfid)
    {
      hide Tree, Balanced, QidsOk, Agree, PathOf;
      ghost var u, fu := files, fids;
      var f := fids[n];
      var _ := Freefid(newfid);
      InFiles(files, fids, n);
      ghost var v, fv := files, fids;
      SameAll(u, next, fu, v, next, fv, newfid);
      Putfid(newfid, f);
      SameAll(v, next, fv, files, next, fids, newfid);
    }

    lemma PathSteps(files: Files, next: Id, f: Id)
      requires Tree(files, next) && f in files
      ensures files[f].parent == None ==> PathOf(files, next, f) == []
      ensures files[f].parent.Some? ==> files[f].parent.value in files &&
                                        PathOf(files, next, f) == PathOf(files, next, files[f].parent.value) + [files[f].name]
    {
      assert Node(files, next, f);
    }

    /** One name of a walk: the fid c moves to the parent, or to the file of that name. */
    method Advance(c: nat, name: string, stat: Option<Key>) returns (ok: bool, q: Option<Key>)
      requires Valid() && c in fids
      modifies `files, `qids, `fids, `next
      ensures Valid() && fids.Keys == old(fids).Keys
      ensures ok == if name == ".." then old(Where(c)) != [] else stat.Some?
      ensures !ok ==> files == old(files) && fids == old(fids) && next == old(next) && qids == old(qids)
      ensures ok ==> Where(c) == Walked(old(Where(c)), [name]) && OthersStay(c)
      ensures ok ==> if name == ".." then |Where(c)| == old(|Where(c)|) - 1 && Where(c) <= old(Where(c))
                     else Where(c) == old(Where(c)) + [name]
      ensures ok ==> fids[c] in files && q == Some(files[fids[c]].qid) && (name != ".." ==> q == stat)
    {
      hide Tree, Balanced, QidsOk, PathOf;
      q := None;
      var f := fids[c];
      InFiles(files, fids, c);
      PathSteps(files, next, f);
      ghost var u, nu, fu := files, next, fids;
      var wf: Option<Id>;
      if name == ".." {
        wf := files[f].parent;
        if wf == None {
          return false, q;
        }
        Hold(wf.value);
      } else {
        wf := GetFile(f, name, stat);
        if wf == None {
          return false, q;
        }
      }
      ghost var v, nv := files, next;
      PathSteps(v, nv, wf.value);
      q := Some(files[wf.value].qid);
      MoveTo(c, wf.value);
      if name == ".." {
        SameWhere(u, nu, v, nv, wf.value);
      } else {
        SameWhere(u, nu, v, nv, f);
      }
      SameAll(u, nu, fu, files, next, fids, c);
      OneStep(PathOf(u, nu, f), name);
      ok := true;
    }

    /** The fid c takes over a reference to wf, and gives up the one to its file. */
    method MoveTo(c: nat, wf: Id)
      requires Holding(multiset{wf}) && c in fids && wf in files
      modifies `files, `qids, `fids
      ensures Valid() && fids == old(fids)[c := wf] && Kept(old(files), files)
      ensures Where(c) == old(PathOf(files, next, wf))
      ensures wf in files && files[wf].qid == old(files)[wf].qid
    {
      hide Tree, Balanced, QidsOk, PathOf;
      ghost var v := files;
      var f := fids[c];
      HeldIn(files, fids, wf, c);
      Moved(files, fids, c, wf);
      fids := fids[c := wf];
      assert multiset{} + multiset{f} == multiset{f};
      Freefile(f, multiset{});
      InFiles(files, fids, c);
      SameWhere(v, next, files, next, wf);
    }

    lemma HeldIn(files: Files, fids: Fids, wf: Id, n: nat)
      requires Balanced(files, fids, multiset{wf}) && n in fids
      ensures fids[n] in files
    {}

    lemma OneStep(path: seq<string>, name: string)
      ensures Walked(path, [name]) == if name != ".." then path + [name] else if path == [] then [] else path[..|path| - 1]
    {
      assert [name][..0] == [];
    }

    /** wf->ref++ */
    method Hold(f: Id)
      requires Valid() && f in files
      modifies `files
      ensures Holding(multiset{f}) && Agree(old(files), files) && files.Keys == old(files).Keys
      ensures forall g :: g in files ==> files[g].parent == old(files)[g].parent && files[g].name == old(files)[g].name
    {
      hide Tree, Balanced, QidsOk;
      var x := files[f];
      RefKeepsTree(files, next, f, x.ref + 1, x.qid);
      Raised(files, next, fids, multiset{}, f, x.qid);
      PlainQids(files, qids, f, x.(ref := x.ref + 1));
      files := files[f := x.(ref := x.ref + 1)];
      assert multiset{} + multiset{f} == multiset{f};
    }

    /** The loop of Xwalk: the fid c goes as far as the names lead, and the qids of the files
        on the way are noted. */
    method WalkFid(c: nat, names: seq<string>, stats: seq<Option<Key>>) returns (nw: nat, e: bool, wqid: seq<Key>)
      requires Valid() && |stats| == |names| && c in fids
      modifies `files, `qids, `fids, `next
      ensures Valid() && fids.Keys == old(fids).Keys && OthersStay(c)
      ensures nw <= |names| && nw <= MAXWELEM && e == (nw < |names|)
      ensures forall i :: 0 <= i < nw ==> CanStep(Walked(old(Where(c)), names[..i]), names[i], stats[i])
      ensures nw < |names| ==> nw == MAXWELEM || !CanStep(Walked(old(Where(c)), names[..nw]), names[nw], stats[nw])
      ensures Where(c) == Walked(old(Where(c)), names[..nw])
      ensures |wqid| == nw && forall i :: 0 <= i < nw && names[i] != ".." ==> stats[i] == Some(wqid[i])
      ensures nw > 0 ==> fids[c] in files && files[fids[c]].qid == wqid[nw - 1]
    {
      hide Tree, Balanced, QidsOk, PathOf, Walked, CanStep;
      nw, e, wqid := 0, false, [];
      ghost var p := Where(c);
      Unwalked(p);
      assert names[..0] == [];
      while nw < |names|
        invariant nw <= |names| && nw <= MAXWELEM && Valid() && c in fids && fids.Keys == old(fids).Keys
        invariant Where(c) == Walked(p, names[..nw]) && OthersStay(c)
        invariant forall i :: 0 <= i < nw ==> CanStep(Walked(p, names[..i]), names[i], stats[i])
        invariant |wqid| == nw && forall i :: 0 <= i < nw && names[i] != ".." ==> stats[i] == Some(wqid[i])
        invariant nw > 0 ==> fids[c] in files && files[fids[c]].qid == wqid[nw - 1]
      {
        if nw == MAXWELEM {
          e := true;
          return;
        }
        CanStepIs(Walked(p, names[..nw]), names[nw], stats[nw]);
        var done, q := Advance(c, names[nw], stats[nw]);
        if !done {
          e := true;
          return;
        }
        WalkedOn(p, names, nw);
        wqid := wqid + [q.value];
        nw := nw + 1;
      }
    }

    /** Xwalk: nw names were walked. A new fid is there afterwards if the whole walk was;
        without a new fid the old one has moved as far as the walk went. The reply has the
        qids of the files walked, and is an error if there are none though there were names. */
    method Xwalk(n: nat, newfid: nat, names: seq<string>, stats: seq<Option<Key>>)
        returns (ok: bool, nw: nat, failed: bool, wqid: seq<Key>)
      requires Valid() && |stats| == |names|
      modifies `files, `qids, `fids, `next
      ensures Valid() && ok == (n in old(fids))
      ensures !ok ==> nw == 0 && files == old(files) && fids == old(fids) && qids == old(qids)
      ensures ok ==> nw <= |names| && nw <= MAXWELEM && OthersStay(newfid)
      ensures ok ==> forall i :: 0 <= i < nw ==> CanStep(Walked(old(Where(n)), names[..i]), names[i], stats[i])
      ensures ok && nw < |names| ==> nw == MAXWELEM || !CanStep(Walked(old(Where(n)), names[..nw]), names[nw], stats[nw])
      ensures ok && newfid == n ==> n in fids && Where(n) == Walked(old(Where(n)), names[..nw]) && fids.Keys == old(fids).Keys
      ensures ok && newfid != n && nw == |names| ==>
                fids.Keys == old(fids).Keys + {newfid} && Where(newfid) == Walked(old(Where(n)), names)
      ensures ok && newfid != n && nw < |names| ==> fids.Keys == old(fids).Keys - {newfid}
      ensures failed == (!ok || (nw == 0 && names != []))
      ensures |wqid| == nw && forall i :: 0 <= i < nw && names[i] != ".." ==> stats[i] == Some(wqid[i])
      ensures ok && nw > 0 && (newfid == n || nw == |names|) ==>
                newfid in fids && fids[newfid] in files && files[fids[newfid]].qid == wqid[nw - 1]
    {
      hide Tree, Balanced, QidsOk, PathOf, Walked, CanStep;
      nw, failed, wqid := 0, true, [];
      ok := n in fids;
      if !ok {
        return;
      }
      if newfid != n {
        Clonefid(n, newfid);
      }
      var e;
      nw, e, wqid := WalkFid(newfid, names, stats);
      assert nw == |names| ==> names[..nw] == names;
      if newfid != n && (e || nw != |names|) {
        var _ := Xclunk(newfid);
      }
      failed := e && nw == 0;
    }

    lemma Unwalked(p: seq<string>)
      ensures Walked(p, []) == p
    {}

    lemma CanStepIs(p: seq<string>, name: string, stat: Option<Key>)
      ensures CanStep(p, name, stat) == if name == ".." then p != [] else stat.Some?
    {}

    /** Xcreate, once the host has been asked: the fid moves to the new file. */
    method Xcreate(n: nat, name: string, created: bool, stat: Option<Key>) returns (ok: bool)
      requires Valid()
      modifies `files, `qids, `fids, `next
      ensures Valid() && fids.Keys == old(fids).Keys
      ensures ok == (n in old(fids) && created && stat.Some?)
      ensures !ok ==> files == old(files) && fids == old(fids) && qids == old(qids)
      ensures ok ==> Where(n) == old(Where(n)) + [name] && OthersStay(n)
      ensures ok ==> fids[n] in files && stat == Some(files[fids[n]].qid)
    {
      hide Tree, Balanced, QidsOk, PathOf;
      if n !in fids || !created {
        return false;
      }
      ghost var u, nu, fu := files, next, fids;
      var f := fids[n];
      InFiles(files, fids, n);
      var wf := GetFile(f, name, stat);
      if wf == None {
        return false;
      }
      PathSteps(files, next, wf.value);
      SameWhere(u, nu, files, next, f);
      MoveTo(n, wf.value);
      SameAll(u, nu, fu, files, next, fids, n);
      ok := true;
    }

    /** Xremove: the fid goes only if the host removed the file. */
    method Xremove(n: nat, removed: bool) returns (ok: bool)
      requires Valid()
      modifies `files, `qids, `fids
      ensures Valid() && ok == (n in old(fids) && removed)
      ensures !ok ==> files == old(files) && fids == old(fids) && qids == old(qids)
      ensures ok ==> fids == old(fids) - {n} && OthersStay(n)
    {
      if n !in fids || !removed {
        return false;
      }
      ok := Xclunk(n);
    }

    /** Xwstat, when the host has renamed the file; the tree stays as it is. */
    method Xwstat(n: nat, name: string) returns (ok: bool)
      requires Valid()
      modifies `files
      ensures Valid() && ok == (n in old(fids))
      ensures !ok || name == "" ==> files == old(files)
      ensures ok && name != "" ==> var f := fids[n]; f in old(files) && files == old(files)[f := old(files)[f].(name := name)]
    {
      hide Tree, Balanced, QidsOk;
      if n !in fids {
        return false;
      }
      ok := true;
      var f := fids[n];
      InFiles(files, fids, n);
      if name != files[f].name && name != "" {
        Renamed(files, next, fids, qids, f, name);
        files := files[f := files[f].(name := name)];
      }
    }

    lemma Renamed(files: Files, next: Id, fids: Fids, qids: map<Key, int>, f: Id, name: string)
      requires Tree(files, next) && Balanced(files, fids, multiset{}) && QidsOk(files, qids) && f in files
      ensures var v := files[f := files[f].(name := name)];
              Tree(v, next) && Balanced(v, fids, multiset{}) && QidsOk(v, qids)
    {
      hide Node, Tree, QidsOk;
      var v := files[f := files[f].(name := name)];
      PlainQids(files, qids, f, v[f]);
      RenamedTree(files, next, f, name);
      forall g | g in v ensures v[g].ref == Owed(v, fids, multiset{}, g) {
        assert files[g].ref == Owed(files, fids, multiset{}, g);
      }
    }

    lemma RenamedTree(files: Files, next: Id, f: Id, name: string)
      requires Tree(files, next) && f in files
      ensures Tree(files[f := files[f].(name := name)], next)
    {
      var v := files[f := files[f].(name := name)];
      forall g | g in v ensures Node(v, next, g) {
        assert Node(files, next, g);
      }
    }
  }
}
