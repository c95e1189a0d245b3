/**
 Reference counts of channels, paths and mount heads (kern/chan.c). An object's count is
 what holds it from outside, given as a multiset, plus the references other objects
 hold. Closing a reference can free an object, and then closes what it refers to.
 */
module ChanHeap {
  import opened Bytes
  import opened PathName

  type Id = nat

  datatype Qid = Qid(path: nat, dir: bool)

  /** mtpt has a slot for the root and for each element: the channel mounted upon there,
      if a mount point was crossed. mount lists the channels of a mount head. */
  datatype Obj =
    | Chan(ref: int, ty: nat, dev: nat, qid: Qid, path: Option<Id>, umh: Option<Id>)
    | Path(ref: int, name: Name, mtpt: seq<Option<Id>>)
    | Mhead(ref: int, from: Id, mount: seq<Id>)

  type Objs = map<Id, Obj>

  function Opt(x: Option<Id>): multiset<Id> { if x.Some? then multiset{x.value} else multiset{} }

  function Slots(m: seq<Option<Id>>): multiset<Id> {
    if m == [] then multiset{} else Slots(m[..|m| - 1]) + Opt(m[|m| - 1])
  }

  /** What an object refers to. */
  function Out(o: Obj): multiset<Id> {
    match o
    case Chan(_, _, _, _, path, umh) => Opt(path) + Opt(umh)
    case Path(_, _, mtpt) => Slots(mtpt)
    case Mhead(_, from, mount) => multiset{from} + multiset(mount)
  }

  /** How often the objects below n refer to x. */
  function Links(objs: Objs, n: nat, x: Id): nat {
    if n == 0 then 0 else Links(objs, n - 1, x) + if n - 1 in objs then Out(objs[n - 1])[x] else 0
  }

  /** The same but for the count. */
  predicate Same(o: Obj, p: Obj) { p == o.(ref := p.ref) }

  predicate KindsOf(objs: Objs, o: Obj) {
    match o
    case Chan(_, _, _, _, path, umh) =>
      && (path.Some? ==> path.value in objs && objs[path.value].Path?)
      && (umh.Some? ==> umh.value in objs && objs[umh.value].Mhead?)
    case Path(_, _, mtpt) =>
      forall i :: 0 <= i < |mtpt| && mtpt[i].Some? ==> mtpt[i].value in objs && objs[mtpt[i].value].Chan?
    case Mhead(_, from, mount) =>
      && from in objs && objs[from].Chan?
      && forall i :: 0 <= i < |mount| ==> mount[i] in objs && objs[mount[i]].Chan?
  }

  /** Every object is there for what holds it: its count is exact and positive, and
      nothing refers to what is not there. ext is what holds objects from outside. */
  predicate Balanced(objs: Objs, next: Id, ext: multiset<Id>) {
    && (forall x :: x in objs ==> x < next && objs[x].ref > 0 && objs[x].ref == ext[x] + Links(objs, next, x))
    && (forall x :: x in objs ==> KindsOf(objs, objs[x]))
    && (forall x :: x in ext ==> x in objs)
  }

  // ---- Counting links ----

  lemma {:induction false} LinksPut(objs: Objs, n: nat, i: Id, o: Obj, x: Id)
    requires i < n
    ensures Links(objs[i := o], n, x) == Links(objs, n, x) + Out(o)[x] - if i in objs then Out(objs[i])[x] else 0
  {
    if i < n - 1 {
      LinksPut(objs, n - 1, i, o, x);
    } else {
      LinksAbove(objs, n - 1, i, o, x);
    }
  }

  lemma {:induction false} LinksAbove(objs: Objs, n: nat, i: Id, o: Obj, x: Id)
    requires i >= n
    ensures Links(objs[i := o], n, x) == Links(objs, n, x)
  {
    if n > 0 {
      LinksAbove(objs, n - 1, i, o, x);
    }
  }

  lemma {:induction false} LinksDrop(objs: Objs, n: nat, i: Id, x: Id)
    requires i in objs && i < n
    ensures Links(objs - {i}, n, x) == Links(objs, n, x) - Out(objs[i])[x]
  {
    if i < n - 1 {
      LinksDrop(objs, n - 1, i, x);
    } else {
      LinksBelow(objs, n - 1, i, x);
    }
  }

  lemma {:induction false} LinksBelow(objs: Objs, n: nat, i: Id, x: Id)
    requires i >= n
    ensures Links(objs - {i}, n, x) == Links(objs, n, x)
  {
    if n > 0 {
      LinksBelow(objs, n - 1, i, x);
    }
  }

  /** A link is from an object that is there. */
  lemma {:induction false} LinkFrom(objs: Objs, n: nat, x: Id)
    requires Links(objs, n, x) > 0
    ensures exists i :: i in objs && i < n && x in Out(objs[i])
  {
    if n - 1 in objs && Out(objs[n - 1])[x] > 0 {
      assert x in Out(objs[n - 1]);
    } else {
      LinkFrom(objs, n - 1, x);
    }
  }

  lemma {:induction false} LinksMore(base: Objs, n: nat, objs: Objs, m: nat, x: Id)
    requires n <= m && forall i :: i in base ==> i in objs && Out(objs[i]) == Out(base[i])
    ensures Links(base, n, x) <= Links(objs, m, x)
  {
    hide Out;
    if n > 0 {
      if n == m {
        LinksMore(base, n - 1, objs, m - 1, x);
      } else {
        LinksMore(base, n, objs, m - 1, x);
      }
    }
  }

  lemma {:induction false} LinksEqual(base: Objs, n: nat, objs: Objs, m: nat, x: Id)
    requires n <= m && (forall i :: i in base ==> i < n && i in objs && Out(objs[i]) == Out(base[i]))
    requires forall i :: i in objs && i < m && x in Out(objs[i]) ==> i in base
    ensures Links(base, n, x) == Links(objs, m, x)
  {
    hide Out;
    if m > 0 {
      if n == m {
        LinksEqualAt(base, m, objs, x);
      } else {
        LinksEqual(base, n, objs, m - 1, x);
        assert m - 1 in objs ==> x !in Out(objs[m - 1]) || m - 1 in base;
      }
    }
  }

  lemma {:induction false} LinksEqualAt(base: Objs, n: nat, objs: Objs, x: Id)
    requires forall i :: i in base ==> i in objs && Out(objs[i]) == Out(base[i])
    requires forall i :: i in objs && i < n && x in Out(objs[i]) ==> i in base
    ensures Links(base, n, x) == Links(objs, n, x)
  {
    hide Out;
    if n > 0 {
      LinksEqualAt(base, n - 1, objs, x);
      assert n - 1 in objs ==> x !in Out(objs[n - 1]) || n - 1 in base;
    }
  }

  lemma {:induction false} SlotsIn(m: seq<Option<Id>>, x: Id)
    ensures x in Slots(m) <==> exists i :: 0 <= i < |m| && m[i] == Some(x)
  {
    if m != [] {
      SlotsIn(m[..|m| - 1], x);
    }
  }

  /** What an object refers to is there, when its kinds are right. */
  lemma OutIn(objs: Objs, o: Obj, x: Id)
    requires KindsOf(objs, o) && x in Out(o)
    ensures x in objs
  {
    if o.Path? {
      SlotsIn(o.mtpt, x);
    }
  }

  // ---- The moves on counts ----

  function SetRef(objs: Objs, x: Id, r: int): Objs
    requires x in objs
  {
    objs[x := objs[x].(ref := r)]
  }

  lemma RefKeepsLinks(objs: Objs, n: nat, x: Id, r: int, y: Id)
    requires x in objs && x < n
    ensures Links(SetRef(objs, x, r), n, y) == Links(objs, n, y)
  {
    LinksPut(objs, n, x, objs[x].(ref := r), y);
  }

  lemma SameKinds(objs: Objs, v: Objs, o: Obj, p: Obj)
    requires KindsOf(objs, o) && Same(o, p)
    requires forall x :: x in objs && x in Out(o) ==> x in v && Same(objs[x], v[x])
    ensures KindsOf(v, p)
  {
    match o
    case Chan(_, _, _, _, path, umh) =>
    case Path(_, _, mtpt) =>
      forall i | 0 <= i < |mtpt| && mtpt[i].Some? ensures mtpt[i].value in v && v[mtpt[i].value].Chan? {
        SlotsIn(mtpt, mtpt[i].value);
      }
    case Mhead(_, from, mount) =>
      forall i | 0 <= i < |mount| ensures mount[i] in v && v[mount[i]].Chan? {
        assert mount[i] in mount;
      }
  }

  lemma Raise(objs: Objs, next: Id, ext: multiset<Id>, x: Id)
    requires Balanced(objs, next, ext) && x in objs
    ensures Balanced(SetRef(objs, x, objs[x].ref + 1), next, ext + multiset{x})
  {
    hide Links, KindsOf, Out;
    var v := SetRef(objs, x, objs[x].ref + 1);
    forall y | y in v
      ensures y < next && v[y].ref > 0 && v[y].ref == (ext + multiset{x})[y] + Links(v, next, y) && KindsOf(v, v[y])
    {
      RefKeepsLinks(objs, next, x, objs[x].ref + 1, y);
      SameKinds(objs, v, objs[y], v[y]);
    }
  }

  lemma Lower(objs: Objs, next: Id, ext: multiset<Id>, x: Id)
    requires Balanced(objs, next, ext + multiset{x}) && x in objs && objs[x].ref > 1
    ensures Balanced(SetRef(objs, x, objs[x].ref - 1), next, ext)
  {
    hide Links, KindsOf, Out;
    var v := SetRef(objs, x, objs[x].ref - 1);
    forall y | y in v
      ensures y < next && v[y].ref > 0 && v[y].ref == ext[y] + Links(v, next, y) && KindsOf(v, v[y])
    {
      RefKeepsLinks(objs, next, x, objs[x].ref - 1, y);
      SameKinds(objs, v, objs[y], v[y]);
    }
    assert forall y :: y in ext ==> y in ext + multiset{x};
  }

  /** Freeing the last reference leaves what the object referred to to be closed. */
  lemma Free(objs: Objs, next: Id, ext: multiset<Id>, x: Id)
    requires Balanced(objs, next, ext + multiset{x}) && x in objs && objs[x].ref == 1
    ensures x !in ext && Balanced(objs - {x}, next, ext + Out(objs[x]))
  {
    hide Links, KindsOf, Out;
    var v := objs - {x};
    assert Links(objs, next, x) == 0 && ext[x] == 0;
    forall y | y in v
      ensures y < next && v[y].ref > 0 && v[y].ref == (ext + Out(objs[x]))[y] + Links(v, next, y) && KindsOf(v, v[y])
    {
      LinksDrop(objs, next, x, y);
      NotLinked(objs, next, x, y);
      SameKinds(objs, v, objs[y], v[y]);
    }
    NotLinked(objs, next, x, x);
    forall y | y in ext + Out(objs[x]) ensures y in v {
      if y in Out(objs[x]) {
        OutIn(objs, objs[x], y);
      } else {
        assert y in ext + multiset{x};
      }
    }
  }

  lemma {:induction false} NotLinked(objs: Objs, n: nat, x: Id, y: Id)
    requires Links(objs, n, x) == 0 && y in objs && y < n
    ensures x !in Out(objs[y])
  {
    if y < n - 1 {
      NotLinked(objs, n - 1, x, y);
    }
  }

  /** A new object takes over the references it holds, and has one holder. */
  lemma Add(objs: Objs, next: Id, ext: multiset<Id>, o: Obj)
    requires Balanced(objs, next, ext + Out(o)) && o.ref == 1 && KindsOf(objs, o)
    ensures next !in objs && Balanced(objs[next := o], next + 1, ext + multiset{next})
  {
    hide Links, KindsOf, Out;
    var v := objs[next := o];
    assert next !in objs;
    NoLinksTo(objs, next, ext + Out(o));
    assert next !in ext + Out(o);
    forall y | y in v
      ensures y < next + 1 && v[y].ref > 0 && v[y].ref == (ext + multiset{next})[y] + Links(v, next + 1, y) && KindsOf(v, v[y])
    {
      LinksPut(objs, next + 1, next, o, y);
      LinksNext(objs, next, y);
      SameKinds(objs, v, if y == next then o else objs[y], v[y]);
    }
    forall y | y in ext + multiset{next} ensures y in v {
      assert y in ext ==> y in ext + Out(o);
    }
  }

  lemma LinksNext(objs: Objs, next: Id, y: Id)
    requires next !in objs
    ensures Links(objs, next + 1, y) == Links(objs, next, y)
  {}

  /** Nothing refers to what is not there. */
  lemma NoLinksTo(objs: Objs, x: Id, ext: multiset<Id>)
    requires Balanced(objs, x, ext) && x !in objs
    ensures Links(objs, x, x) == 0 && x !in ext
  {
    if Links(objs, x, x) > 0 {
      LinkFrom(objs, x, x);
      var i :| i in objs && i < x && x in Out(objs[i]);
      OutIn(objs, objs[i], x);
    }
  }

  /** An object changes what it refers to: new references are taken over from e, and
      the old ones are left in f. */
  lemma Change(objs: Objs, next: Id, e: multiset<Id>, f: multiset<Id>, x: Id, o: Obj)
    requires Balanced(objs, next, e) && x in objs && e + Out(objs[x]) == f + Out(o)
    requires o.ref == objs[x].ref && KindsOf(objs, o)
    requires o.Chan? == objs[x].Chan? && o.Path? == objs[x].Path?
    ensures Balanced(objs[x := o], next, f)
  {
    hide Links, Out;
    var v := objs[x := o];
    forall y | y in v
      ensures y < next && v[y].ref > 0 && v[y].ref == f[y] + Links(v, next, y) && KindsOf(v, v[y])
    {
      LinksPut(objs, next, x, o, y);
      assert (e + Out(objs[x]))[y] == (f + Out(o))[y];
      assert KindsOf(objs, objs[y]);
    }
    forall y | y in f ensures y in v {
      assert y in e + Out(objs[x]) by { assert y in f + Out(o); }
      if y in Out(objs[x]) {
        OutIn(objs, objs[x], y);
      }
    }
  }

  // ---- What stays ----

  /** A state to come back to, and what held its objects then. */
  datatype Anchor = Anchor(base: Objs, next: Id, ext: multiset<Id>)

  ghost predicate Anchored(a: Anchor, objs: Objs, next: Id) {
    && Balanced(a.base, a.next, a.ext) && a.next <= next
    && forall x :: x in a.base ==> x in objs && Same(a.base[x], objs[x])
  }

  lemma SameOut(o: Obj, p: Obj)
    requires Same(o, p)
    ensures Out(p) == Out(o)
  {}

  /** While everything of the anchor is still held, it has a reference for every holder
      besides those it had: closing one of these does not free it. */
  lemma AnchoredRef(a: Anchor, objs: Objs, next: Id, held: multiset<Id>, x: Id)
    requires Anchored(a, objs, next) && Balanced(objs, next, a.ext + held) && x in a.base
    ensures objs[x].ref >= held[x] + 1
  {
    hide Links, KindsOf, Out;
    forall i | i in a.base ensures Out(objs[i]) == Out(a.base[i]) {
      SameOut(a.base[i], objs[i]);
    }
    LinksMore(a.base, a.next, objs, next, x);
  }

  /** With nothing held besides, and nothing new that could keep itself alive, the state
      is the anchor again, counts and all. */
  lemma Restored(a: Anchor, objs: Objs, next: Id)
    requires Anchored(a, objs, next) && Balanced(objs, next, a.ext)
    requires forall x, y :: x in objs && x !in a.base && y in Out(objs[x]) ==> y in a.base
    ensures objs == a.base
  {
    hide Links, KindsOf, Out;
    forall x | x in objs ensures x in a.base {
      if x !in a.base {
        assert x !in a.ext;
        assert Links(objs, next, x) > 0;
        LinkFrom(objs, next, x);
        var i :| i in objs && i < next && x in Out(objs[i]);
        if i in a.base {
          SameOut(a.base[i], objs[i]);
          OutIn(a.base, a.base[i], x);
        }
      }
    }
    forall x | x in a.base ensures objs[x] == a.base[x] {
      forall i | i in a.base ensures i < a.next && i in objs && Out(objs[i]) == Out(a.base[i]) {
        SameOut(a.base[i], objs[i]);
      }
      LinksEqual(a.base, a.next, objs, next, x);
    }
  }
}
