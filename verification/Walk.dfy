/**
 walk of kern/chan.c over counted channels, paths and mount heads. A device answers a
 walk with the qids it got through and, for a whole walk, a new channel. The walk
 either swaps the caller's channel for the new one, all other references being as
 before, or changes nothing at all.
 */
module Walk {
  import opened Bytes
  import opened CleanSpec
  import opened PathName
  import opened ChanHeap
  import opened WalkSpec

  /** What walk relies on: no more qids than names, a channel exactly for a whole walk, and
      for "..", if it goes at all, one. */
  ghost predicate DeviceOk(dev: Device) {
    forall ty: nat, d: nat, q: Qid, names: seq<string> ::
      var w := dev(ty, d, q, names);
      w.Some? ==> && |w.value.qids| <= |names|
                  && (w.value.whole <==> |w.value.qids| == |names|)
                  && (names == [".."] ==> w.value.whole)
  }

  predicate PathsOk(objs: Objs) {
    forall x :: x in objs && objs[x].Path? ==> |objs[x].mtpt| == |objs[x].name.elems| + 1
  }

  /** The mount heads of the table are held by it and have something mounted; the mount
      list of any other has been taken off. */
  predicate TableOk(objs: Objs, table: seq<Id>, ext: multiset<Id>) {
    && (forall m :: m in table ==> m in ext && m in objs && objs[m].Mhead? && objs[m].mount != [])
    && (forall m :: m in objs && objs[m].Mhead? && m !in table ==> objs[m].mount == [])
  }

  /** What is new refers only to what was there before. */
  predicate News(base: Objs, objs: Objs) {
    forall x, y :: x in objs && x !in base && y in Out(objs[x]) ==> y in base
  }

  /** v has no more than u has, and nothing but counts has changed. */
  predicate Shrunk(u: Objs, v: Objs) {
    forall x :: x in v ==> x in u && Same(u[x], v[x])
  }

  lemma {:induction false} SlotsFront(m: seq<Option<Id>>)
    requires m != []
    ensures Slots(m) == Opt(m[0]) + Slots(m[1..])
  {
    if |m| > 1 {
      SlotsFront(m[..|m| - 1]);
      assert m[1..][..|m| - 2] == m[..|m| - 1][1..];
    } else {
      assert m[..0] == [] && m[1..] == [];
    }
  }

  lemma ShrunkOk(u: Objs, v: Objs, base: Objs)
    requires Shrunk(u, v)
    ensures PathsOk(u) ==> PathsOk(v)
    ensures News(base, u) ==> News(base, v)
  {
    forall x | x in v ensures Out(v[x]) == Out(u[x]) {
      SameOut(u[x], v[x]);
    }
  }

  lemma ShrunkOn(u: Objs, v: Objs, w: Objs)
    requires Shrunk(u, v) && Shrunk(v, w)
    ensures Shrunk(u, w)
  {}

  /** The counts, while held references are kept in local variables. */
  ghost predicate Heap(objs: Objs, next: Id, table: seq<Id>, a: Anchor, held: multiset<Id>) {
    Balanced(objs, next, a.ext + held) && Anchored(a, objs, next) && TableOk(objs, table, a.ext + held)
  }

  /** The table's own references are not among those being closed. */
  predicate Tabled(table: seq<Id>, ext: multiset<Id>) {
    forall m :: m in table ==> m in ext
  }

  lemma HeldIn(objs: Objs, next: Id, table: seq<Id>, a: Anchor, held: multiset<Id>, x: Id)
    requires Heap(objs, next, table, a, held) && x in held
    ensures x in objs && objs[x].ref > 0 && KindsOf(objs, objs[x])
  {
    assert x in a.ext + held;
  }

  lemma RefKeepsAnchor(a: Anchor, objs: Objs, next: Id, x: Id, r: int)
    requires Anchored(a, objs, next) && x in objs
    ensures Anchored(a, SetRef(objs, x, r), next)
  {
    hide Balanced;
  }

  lemma RefKeepsTable(objs: Objs, table: seq<Id>, ext: multiset<Id>, v: multiset<Id>, x: Id, r: int)
    requires TableOk(objs, table, ext) && x in objs && Tabled(table, v)
    ensures TableOk(SetRef(objs, x, r), table, v)
  {}

  lemma LowerHeap(objs: Objs, next: Id, table: seq<Id>, a: Anchor, held: multiset<Id>, x: Id)
    requires Heap(objs, next, table, a, held + multiset{x}) && Tabled(table, a.ext + held) && x in objs && objs[x].ref > 1
    ensures Heap(SetRef(objs, x, objs[x].ref - 1), next, table, a, held)
  {
    hide Balanced, Anchored, TableOk, Tabled;
    assert a.ext + (held + multiset{x}) == a.ext + held + multiset{x};
    Lower(objs, next, a.ext + held, x);
    RefKeepsAnchor(a, objs, next, x, objs[x].ref - 1);
    RefKeepsTable(objs, table, a.ext + (held + multiset{x}), a.ext + held, x, objs[x].ref - 1);
  }

  lemma RaiseHeap(objs: Objs, next: Id, table: seq<Id>, a: Anchor, held: multiset<Id>, x: Id)
    requires Heap(objs, next, table, a, held) && x in objs
    ensures Heap(SetRef(objs, x, objs[x].ref + 1), next, table, a, held + multiset{x})
  {
    hide Balanced, Anchored;
    assert a.ext + (held + multiset{x}) == a.ext + held + multiset{x};
    Raise(objs, next, a.ext + held, x);
    RefKeepsAnchor(a, objs, next, x, objs[x].ref + 1);
    RefKeepsTable(objs, table, a.ext + held, a.ext + (held + multiset{x}), x, objs[x].ref + 1);
  }

  lemma FreeHeap(objs: Objs, next: Id, table: seq<Id>, a: Anchor, held: multiset<Id>, x: Id)
    requires Heap(objs, next, table, a, held + multiset{x}) && Tabled(table, a.ext + held) && x in objs && objs[x].ref == 1
    ensures Heap(objs - {x}, next, table, a, held + Out(objs[x]))
    ensures objs[x].Mhead? ==> objs[x].mount == []
  {
    hide Balanced, KindsOf, Out;
    assert a.ext + (held + multiset{x}) == a.ext + held + multiset{x};
    assert a.ext + (held + Out(objs[x])) == a.ext + held + Out(objs[x]);
    Free(objs, next, a.ext + held, x);
    if x in a.base {
      AnchoredRef(a, objs, next, held + multiset{x}, x);
    }
    assert x !in table;
  }

  class Namespace {
    var objs: Objs
    var next: Id
    var table: seq<Id>
    const dev: Device

    constructor (objs: Objs, next: Id, table: seq<Id>, dev: Device)
      ensures this.objs == objs && this.next == next && this.table == table && this.dev == dev
    {
      this.objs, this.next, this.table, this.dev := objs, next, table, dev;
    }

    ghost predicate Ctx(a: Anchor, held: multiset<Id>)
      reads this
    {
      Heap(objs, next, table, a, held)
    }

    /** cclose, pathclose and putmhead: gives up a reference. The last one frees the
        object and closes what it refers to; a mount head must be empty by then. */
    method Close(x: Id, ghost a: Anchor, ghost held: multiset<Id>)
      requires Ctx(a, held + multiset{x}) && Tabled(table, a.ext + held)
      modifies `objs
      ensures Ctx(a, held) && Shrunk(old(objs), objs) && |objs| <= |old(objs)|
      decreases |objs|, 0
    {
      hide Heap, Out, KindsOf, Tabled;
      HeldIn(objs, next, table, a, held + multiset{x}, x);
      if objs[x].ref > 1 {
        LowerHeap(objs, next, table, a, held, x);
        objs := SetRef(objs, x, objs[x].ref - 1);
        return;
      }
      FreeHeap(objs, next, table, a, held, x);
      var o := objs[x];
      ghost var u := objs;
      objs := objs - {x};
      assert objs.Keys == u.Keys - {x};
      TabledMore(a.ext + held, a.ext + (held + Out(o)));
      CloseAll(o, a, held);
      ShrunkOn(u, u - {x}, objs);
    }

    lemma TabledMore(e: multiset<Id>, f: multiset<Id>)
      requires Tabled(table, e) && e <= f
      ensures Tabled(table, f)
    {}

    /** Closes the references of an object that has been freed. */
    method CloseAll(o: Obj, ghost a: Anchor, ghost held: multiset<Id>)
      requires Ctx(a, held + Out(o)) && Tabled(table, a.ext + held) && (o.Mhead? ==> o.mount == [])
      modifies `objs
      ensures Ctx(a, held) && Shrunk(old(objs), objs) && |objs| <= |old(objs)|
      decreases |objs|, 2
    {
      hide Heap, Tabled, Shrunk;
      ShrunkSelf(objs);
      match o
      case Chan(_, _, _, _, path, umh) =>
        if umh.Some? {
          assert held + Out(o) == held + Opt(path) + multiset{umh.value};
          TabledMore(a.ext + held, a.ext + (held + Opt(path)));
          Close(umh.value, a, held + Opt(path));
        } else {
          assert held + Out(o) == held + Opt(path);
        }
        ghost var v := objs;
        if path.Some? {
          Close(path.value, a, held);
          ShrunkOn(old(objs), v, objs);
        } else {
          assert held + Opt(path) == held;
        }
      case Path(_, _, mtpt) =>
        CloseSlots(mtpt, a, held);
      case Mhead(_, from, mount) =>
        assert multiset(mount) == multiset{};
        assert held + Out(o) == held + multiset{from};
        Close(from, a, held);
    }

    lemma ShrunkSelf(u: Objs)
      ensures Shrunk(u, u)
    {}

    method CloseSlots(mtpt: seq<Option<Id>>, ghost a: Anchor, ghost held: multiset<Id>)
      requires Ctx(a, held + Slots(mtpt)) && Tabled(table, a.ext + held)
      modifies `objs
      ensures Ctx(a, held) && Shrunk(old(objs), objs) && |objs| <= |old(objs)|
      decreases |objs|, 1
    {
      hide Heap, Tabled, Shrunk, Slots;
      ShrunkSelf(objs);
      NoSlots();
      var i := 0;
      assert mtpt[0..] == mtpt;
      while i < |mtpt|
        invariant i <= |mtpt| && Ctx(a, held + Slots(mtpt[i..])) && Shrunk(old(objs), objs) && |objs| <= |old(objs)|
      {
        SlotsFront(mtpt[i..]);
        assert mtpt[i..][1..] == mtpt[i + 1..];
        ghost var rest, v := held + Slots(mtpt[i + 1..]), objs;
        if mtpt[i].Some? {
          assert held + Slots(mtpt[i..]) == rest + multiset{mtpt[i].value};
          TabledMore(a.ext + held, a.ext + rest);
          Close(mtpt[i].value, a, rest);
          ShrunkOn(old(objs), v, objs);
        } else {
          assert held + Slots(mtpt[i..]) == rest;
        }
        i := i + 1;
      }
      assert mtpt[i..] == [];
      assert held + Slots(mtpt[i..]) == held;
    }

    lemma NoSlots()
      ensures Slots([]) == multiset{}
    {}

    method Incref(x: Id, ghost a: Anchor, ghost held: multiset<Id>)
      requires Ctx(a, held) && x in objs
      modifies `objs
      ensures Ctx(a, held + multiset{x}) && Shrunk(old(objs), objs) && objs.Keys == old(objs).Keys
    {
      hide Heap;
      RaiseHeap(objs, next, table, a, held, x);
      objs := SetRef(objs, x, objs[x].ref + 1);
    }

    /** newchan: a channel with nothing behind it. */
    method Newchan(ty: nat, d: nat, qid: Qid, ghost a: Anchor, ghost held: multiset<Id>) returns (c: Id)
      requires Ctx(a, held) && News(a.base, objs) && PathsOk(objs) && Tabled(table, a.ext + held)
      modifies `objs, `next
      ensures Ctx(a, held + multiset{c}) && News(a.base, objs) && PathsOk(objs)
      ensures c !in old(objs) && objs == old(objs)[c := Chan(1, ty, d, qid, None, None)] && c !in a.base
      ensures c == old(next) && next == c + 1
    {
      hide Balanced, Out;
      var o := Chan(1, ty, d, qid, None, None);
      NoOut(o);
      assert held + Out(o) == held;
      AddHeap(objs, next, table, a, held, o);
      c := next;
      objs, next := objs[next := o], next + 1;
    }

    lemma NoOut(o: Obj)
      requires o.Chan? && o.path == None && o.umh == None
      ensures Out(o) == multiset{} && forall objs: Objs :: KindsOf(objs, o)
    {}

    /** copypath: a path of its own with the same name and history. */
    method Copypath(p: Id, ghost a: Anchor, ghost held: multiset<Id>) returns (pp: Id)
      requires Ctx(a, held) && News(a.base, objs) && PathsOk(objs) && Tabled(table, a.ext + held) && p in objs && objs[p].Path?
      modifies `objs, `next
      ensures Ctx(a, held + multiset{pp}) && News(a.base, objs) && PathsOk(objs)
      ensures pp == old(next) && next == pp + 1 && pp !in old(objs) && objs.Keys == old(objs).Keys + {pp}
      ensures Shrunk(old(objs), objs - {pp}) && pp !in a.base
      ensures objs[pp] == Path(1, old(objs)[p].name, old(objs)[p].mtpt)
    {
      hide Balanced, Out, Anchored, TableOk, News, PathsOk, KindsOf, Slots, Heap;
      var o := Path(1, objs[p].name, objs[p].mtpt);
      ghost var u := objs;
      var i := 0;
      ShrunkSelf(objs);
      NoSlots();
      assert held + Slots(o.mtpt[..0]) == held by { assert o.mtpt[..0] == []; }
      while i < |o.mtpt|
        invariant i <= |o.mtpt| && next == old(next)
        invariant Ctx(a, held + Slots(o.mtpt[..i])) && Shrunk(u, objs) && objs.Keys == u.Keys
      {
        SlotsBack(o.mtpt, i);
        ghost var now, v := held + Slots(o.mtpt[..i]), objs;
        assert Same(u[p], objs[p]);
        if o.mtpt[i].Some? {
          SlotThere(objs, next, table, a, now, p, i);
          Incref(o.mtpt[i].value, a, now);
          ShrunkOn(u, v, objs);
          assert now + multiset{o.mtpt[i].value} == held + Slots(o.mtpt[..i + 1]);
        } else {
          assert now == held + Slots(o.mtpt[..i + 1]);
        }
        i := i + 1;
      }
      assert o.mtpt[..i] == o.mtpt;
      assert Same(u[p], objs[p]);
      CopyKinds(objs, next, table, a, held + Slots(o.mtpt), p, o);
      OutIs(o);
      ShrunkOk(u, objs, a.base);
      CopyNews(objs, next, table, a, held + Slots(o.mtpt), p, o);
      AddHeap(objs, next, table, a, held, o);
      pp := next;
      ghost var v := objs;
      objs, next := objs[next := o], next + 1;
      assert objs - {pp} == v;
    }

    /** The standing state of a walk. */
    ghost predicate Ok(a: Anchor, held: multiset<Id>)
      reads this
    {
      Ctx(a, held) && News(a.base, objs) && PathsOk(objs) && Tabled(table, a.ext)
    }

    lemma TabledBy(a: Anchor, held: multiset<Id>)
      requires Tabled(table, a.ext)
      ensures Tabled(table, a.ext + held)
    {}

    /** Closes a reference that a walk holds. */
    method Drop(x: Id, ghost a: Anchor, ghost held: multiset<Id>)
      requires Ok(a, held + multiset{x})
      modifies `objs
      ensures Ok(a, held) && Shrunk(old(objs), objs)
    {
      hide Heap, News, PathsOk, Shrunk, Tabled;
      TabledBy(a, held);
      Close(x, a, held);
      ShrunkOk(old(objs), objs, a.base);
    }

    method Hold(x: Id, ghost a: Anchor, ghost held: multiset<Id>)
      requires Ok(a, held) && x in objs
      modifies `objs
      ensures Ok(a, held + multiset{x}) && Shrunk(old(objs), objs) && objs.Keys == old(objs).Keys
    {
      hide Heap, News, PathsOk, Shrunk, Tabled;
      Incref(x, a, held);
      ShrunkOk(old(objs), objs, a.base);
    }

    method DropOpt(x: Option<Id>, ghost a: Anchor, ghost held: multiset<Id>)
      requires Ok(a, held + Opt(x))
      modifies `objs
      ensures Ok(a, held) && Shrunk(old(objs), objs)
    {
      hide Ok, Shrunk;
      if x.Some? {
        Drop(x.value, a, held);
      } else {
        ShrunkSelf(objs);
        assert held + Opt(x) == held;
      }
    }

    lemma OkHas(a: Anchor, held: multiset<Id>, x: Id)
      requires Ok(a, held) && x in held
      ensures x in objs
    {
      HeldIn(objs, next, table, a, held, x);
    }

    /** uniquepath: a path that nobody else holds, copied if need be; the copy leaves the
        shared one as it was. */
    method Uniquepath(p: Id, ghost a: Anchor, ghost held: multiset<Id>) returns (r: Id)
      requires Ok(a, held + multiset{p}) && p in objs && objs[p].Path?
      modifies `objs, `next
      ensures Ok(a, held + multiset{r}) && r in objs && r !in a.base && Stable(old(objs), old(next), objs) && old(next) <= next
      ensures objs[r].Path? && objs[r].name == old(objs)[p].name && objs[r].mtpt == old(objs)[p].mtpt
    {
      hide Heap, News, PathsOk, Tabled;
      TabledBy(a, held + multiset{p});
      if objs[p].ref > 1 {
        ghost var u := objs;
        r := Copypath(p, a, held + multiset{p});
        ghost var v := objs;
        assert held + multiset{p} + multiset{r} == held + multiset{r} + multiset{p};
        Drop(p, a, held + multiset{r});
        OkHas(a, held + multiset{r}, r);
        StableCopy(u, old(next), v, objs, r);
      } else {
        r := p;
        SoleHolder(objs, next, table, a, held, p);
      }
    }

    /** A new path gets a new name and history; f is held afterwards instead of e. */
    method Setpath(p: Id, name: Name, mtpt: seq<Option<Id>>, ghost a: Anchor, ghost e: multiset<Id>, ghost f: multiset<Id>)
      requires Ok(a, e) && p in objs && p !in a.base && objs[p].Path? && |mtpt| == |name.elems| + 1
      requires e + Slots(objs[p].mtpt) == f + Slots(mtpt)
      requires SlotsOk(a.base, objs, mtpt)
      modifies `objs
      ensures Ok(a, f) && objs == old(objs)[p := Path(old(objs)[p].ref, name, mtpt)]
    {
      hide Balanced, Slots, Out, KindsOf;
      var o := Path(objs[p].ref, name, mtpt);
      OutIs(objs[p]);
      OutIs(o);
      assert a.ext + e + Out(objs[p]) == a.ext + (e + Out(objs[p]));
      assert a.ext + f + Out(o) == a.ext + (f + Out(o));
      SlotKinds(a.base, objs, o);
      Change(objs, next, a.ext + e, a.ext + f, p, o);
      objs := objs[p := o];
    }

    /** addelem: "." changes nothing, ".." takes back the last element with its slot, and
        another element gets a slot, which is where it was mounted from. */
    method Addelem(p: Id, e: string, from: Option<Id>, ghost a: Anchor, ghost held: multiset<Id>) returns (r: Id)
      requires Ok(a, held + multiset{p}) && p in objs && objs[p].Path?
      requires from.Some? ==> from.value in a.base && a.base[from.value].Chan?
      modifies `objs, `next
      ensures Ok(a, held + multiset{r}) && r in objs && objs[r].Path? && (e != "." ==> r !in a.base)
      ensures objs[r].name == AddName(old(objs)[p].name, e) && objs[r].mtpt == AddSlot(old(objs)[p].mtpt, e, from)
      ensures Stable(old(objs), old(next), objs) && old(next) <= next
    {
      hide Ok, Slots, Heap, Same, Stable, Older, SlotsOk;
      if e == "." {
        StableSelf(objs, next);
        return p;
      }
      OkOlder(a, held + multiset{p});
      r := Uniquepath(p, a, held);
      ghost var v, nv := objs, next;
      OkPath(a, held + multiset{r}, r);
      OkOlder(a, held + multiset{r});
      if e == ".." {
        Pop(r, a, held);
      } else {
        PushSlot(r, e, from, a, held);
      }
      StableTrans(old(objs), old(next), v, nv, objs);
    }

    lemma StableSelf(u: Objs, nu: Id)
      ensures Stable(u, nu, u)
    {}

    lemma OkPath(a: Anchor, held: multiset<Id>, p: Id)
      requires Ok(a, held) && p in objs && objs[p].Path?
      ensures |objs[p].mtpt| == |objs[p].name.elems| + 1 && SlotsOk(a.base, objs, objs[p].mtpt)
    {
      hide Links, Out, Slots;
      AllOutInBase(a, objs, next, p);
      assert KindsOf(objs, objs[p]);
      OutIs(objs[p]);
      forall i | 0 <= i < |objs[p].mtpt| && objs[p].mtpt[i].Some? ensures objs[p].mtpt[i].value in a.base {
        SlotsIn(objs[p].mtpt, objs[p].mtpt[i].value);
      }
    }

    /** The part of addelem for "..". */
    method Pop(r: Id, ghost a: Anchor, ghost held: multiset<Id>)
      requires Ok(a, held + multiset{r}) && r in objs && r !in a.base && objs[r].Path?
      requires |objs[r].mtpt| == |objs[r].name.elems| + 1 && SlotsOk(a.base, objs, objs[r].mtpt)
      modifies `objs
      ensures Ok(a, held + multiset{r}) && r in objs && objs[r].Path?
      ensures objs[r].name == AddName(old(objs)[r].name, "..") && objs[r].mtpt == AddSlot(old(objs)[r].mtpt, "..", None)
      ensures Stable(old(objs), next, objs)
    {
      hide Ok, Slots, Heap, Stable, Older;
      var name, m := objs[r].name, objs[r].mtpt;
      StableSelf(objs, next);
      OkOlder(a, held + multiset{r});
      if |m| > 1 {
        var c := m[|m| - 1];
        SlotsBack(m, |m| - 1);
        assert m[..|m| - 1 + 1] == m;
        Setpath(r, AddName(name, ".."), m[..|m| - 1], a, held + multiset{r}, held + multiset{r} + Opt(c));
        ghost var w := objs;
        StablePut(old(objs), next, r, objs[r]);
        DropOpt(c, a, held + multiset{r});
        OkHas(a, held + multiset{r}, r);
        StableShrunk(w, next, objs);
        StableTrans(old(objs), next, w, next, objs);
        assert Same(w[r], objs[r]);
      } else {
        assert AddName(name, "..") == name;
      }
    }

    /** The part of addelem for an element. */
    method PushSlot(r: Id, e: string, from: Option<Id>, ghost a: Anchor, ghost held: multiset<Id>)
      requires Ok(a, held + multiset{r}) && r in objs && r !in a.base && objs[r].Path? && e != "." && e != ".."
      requires |objs[r].mtpt| == |objs[r].name.elems| + 1 && SlotsOk(a.base, objs, objs[r].mtpt)
      requires from.Some? ==> from.value in a.base && a.base[from.value].Chan?
      modifies `objs
      ensures Ok(a, held + multiset{r}) && r in objs && objs[r].Path?
      ensures objs[r].name == AddName(old(objs)[r].name, e) && objs[r].mtpt == AddSlot(old(objs)[r].mtpt, e, from)
      ensures Stable(old(objs), next, objs)
    {
      hide Ok, Slots, Heap, Stable, Older;
      var name, m := objs[r].name, objs[r].mtpt;
      ghost var u, h := objs, held + multiset{r};
      OkOlder(a, h);
      StableSelf(objs, next);
      if from.Some? {
        BaseThere(a, h, from.value);
        Hold(from.value, a, h);
        StableShrunk(u, next, objs);
        assert Same(u[r], objs[r]) && Same(u[from.value], objs[from.value]);
        assert h + multiset{from.value} == h + Opt(from);
      } else {
        assert h + Opt(from) == h;
      }
      ghost var w := objs;
      OkPath(a, h + Opt(from), r);
      SlotsBack(m + [from], |m|);
      assert (m + [from])[..|m|] == m && (m + [from])[..|m| + 1] == m + [from];
      Setpath(r, AddName(name, e), m + [from], a, h + Opt(from), h);
      StablePut(w, next, r, objs[r]);
      StableTrans(u, next, w, next, objs);
    }

    lemma BaseThere(a: Anchor, held: multiset<Id>, x: Id)
      requires Ok(a, held) && x in a.base
      ensures x in objs && Same(a.base[x], objs[x])
    {}

    /** Puts s in the last slot of a new path; what was there is held instead. */
    method SetLast(p: Id, s: Option<Id>, ghost a: Anchor, ghost e: multiset<Id>) returns (was: Option<Id>)
      requires Ok(a, e + Opt(s)) && p in objs && p !in a.base && objs[p].Path?
      requires s.Some? ==> s.value in a.base && a.base[s.value].Chan?
      modifies `objs
      ensures Ok(a, e + Opt(was)) && p in objs && objs[p].Path? && objs[p].name == old(objs)[p].name
      ensures old(objs)[p].mtpt != [] && was == old(objs)[p].mtpt[|old(objs)[p].mtpt| - 1]
      ensures objs[p].mtpt == old(objs)[p].mtpt[..|old(objs)[p].mtpt| - 1] + [s]
      ensures Stable(old(objs), next, objs)
    {
      hide Ok, Slots, Heap, Stable;
      OkPath(a, e + Opt(s), p);
      var name, m := objs[p].name, objs[p].mtpt;
      var k := |m| - 1;
      was := m[k];
      if s.Some? {
        BaseThere(a, e + Opt(s), s.value);
      }
      SlotsBack(m, k);
      assert m[..k + 1] == m;
      SlotsBack(m[..k] + [s], k);
      assert (m[..k] + [s])[..k] == m[..k] && (m[..k] + [s])[..k + 1] == m[..k] + [s];
      assert e + Opt(s) + Slots(m) == e + Opt(was) + Slots(m[..k] + [s]);
      Setpath(p, name, m[..k] + [s], a, e + Opt(s), e + Opt(was));
      StablePut(old(objs), next, p, objs[p]);
    }

    /** undomount: the channel kept in the last slot replaces c. */
    method Undomount(c: Id, p: Id, ghost a: Anchor, ghost held: multiset<Id>) returns (nc: Id)
      requires Ok(a, held + multiset{p} + multiset{c}) && p in objs && p !in a.base && objs[p].Path?
      requires c in objs && objs[c].Chan?
      modifies `objs
      ensures Ok(a, held + multiset{p} + multiset{nc}) && p in objs && objs[p].Path? && objs[p].name == old(objs)[p].name
      ensures nc in objs && objs[nc].Chan? && Stable(old(objs), next, objs)
      ensures nc == (var h := old(objs)[p].mtpt; if Top(h).Some? then Top(h).value else c)
      ensures Top(old(objs)[p].mtpt).Some? ==> nc in a.base
      ensures var h := old(objs)[p].mtpt;
              && objs[p].mtpt == (if Top(h).Some? then SetTop(h, None) else h)
              && FileAt(objs, nc) == if Top(h).Some? then FileAt(a.base, Top(h).value) else FileAt(old(objs), c)
    {
      hide Ok, Heap, Stable, Slots;
      ghost var h := held + multiset{p};
      OkPath(a, h + multiset{c}, p);
      var m := objs[p].mtpt;
      nc := c;
      StableSelf(objs, next);
      if m[|m| - 1].Some? {
        OkOlder(a, h + multiset{c});
        assert h + multiset{c} + Opt(None) == h + multiset{c};
        var was := SetLast(p, None, a, h + multiset{c});
        ghost var v := objs;
        nc := was.value;
        assert h + multiset{c} + Opt(was) == h + multiset{nc} + multiset{c};
        Drop(c, a, h + multiset{nc});
        OkHas(a, h + multiset{nc}, nc);
        OkHas(a, h + multiset{nc}, p);
        OkChan(a, h + multiset{nc}, m, nc, old(objs), v);
        StableShrunk(v, next, objs);
        StableTrans(old(objs), next, v, next, objs);
        assert Same(v[p], objs[p]);
        BaseFile(a, h + multiset{nc}, nc);
      }
    }

    /** A channel that was there before is still of the same file. */
    lemma BaseFile(a: Anchor, held: multiset<Id>, x: Id)
      requires Ok(a, held) && x in a.base
      ensures FileAt(objs, x) == FileAt(a.base, x)
    {}

    lemma OkOlder(a: Anchor, held: multiset<Id>)
      requires Ok(a, held)
      ensures Older(objs, next)
    {}

    /** A channel of an earlier history is still a channel. */
    lemma OkChan(a: Anchor, held: multiset<Id>, m: seq<Option<Id>>, x: Id, u: Objs, v: Objs)
      requires SlotsOk(a.base, u, m) && Some(x) in m && Stable(u, next, v) && Shrunk(v, objs) && x in objs
      ensures objs[x].Chan?
    {
      var i :| 0 <= i < |m| && m[i] == Some(x);
      assert Same(v[x], objs[x]) && x in u;
    }

    lemma OkHead(a: Anchor, held: multiset<Id>, m: Id)
      requires Ok(a, held) && m in table
      ensures m in objs && objs[m].Mhead? && objs[m].mount != [] && m in a.base && Same(a.base[m], objs[m])
      ensures objs[m].mount[0] in objs && objs[objs[m].mount[0]].Chan?
      ensures forall i :: 0 <= i < |objs[m].mount| ==> objs[m].mount[i] in objs && objs[objs[m].mount[i]].Chan?
      ensures objs[m].from in a.base && a.base[objs[m].from].Chan? && objs[m].from in objs
    {
      hide Links, Out;
      assert m in a.ext;
      assert KindsOf(objs, objs[m]) && KindsOf(a.base, a.base[m]);
    }

    /** What a walk goes by. */
    ghost function Sp(a: Anchor, nomount: bool): Space
      reads this
    {
      Space(a.base, table, dev, nomount)
    }

    /** Where a walk with channel c, path p and mount head mh stands. */
    ghost function SpotOf(c: Id, p: Id, mh: Option<Id>): Spot
      reads this
    {
      Spot(FileAt(objs, c), if p in objs && objs[p].Path? then objs[p].mtpt else [], mh)
    }

    /** findmount: the first channel mounted on a file. Its head, whose list is never
        empty, and the channel replace the ones held. */
    method Findmount(cp: Option<Id>, mp: Option<Id>, ty: nat, d: nat, qid: Qid, ghost a: Anchor, ghost held: multiset<Id>)
        returns (found: bool, c: Option<Id>, m: Option<Id>)
      requires Ok(a, held + Opt(cp) + Opt(mp))
      modifies `objs
      ensures Ok(a, held + Opt(c) + Opt(m)) && Shrunk(old(objs), objs)
      ensures found == MountOn(a.base, table, File(ty, d, qid)).Some?
      ensures !found ==> c == cp && m == mp && objs == old(objs)
      ensures found ==> && m == MountOn(a.base, table, File(ty, d, qid)) && c.Some? && m.value in table
                        && c.value in objs && objs[c.value].Chan? && FileAt(objs, c.value) == Mounted(a.base, m.value)
    {
      hide Ok, Opt, Shrunk, OnHead, Mounted;
      ShrunkSelf(objs);
      ghost var h, file := held + Opt(cp) + Opt(mp), File(ty, d, qid);
      var i := 0;
      assert table[0..] == table;
      while i < |table|
        invariant i <= |table| && MountOn(a.base, table, file) == MountOn(a.base, table[i..], file)
        invariant objs == old(objs) && Ok(a, h)
      {
        var mh := table[i];
        assert table[i..][1..] == table[i + 1..];
        OkHeadFrom(a, h, mh, file);
        var f := objs[objs[mh].from];
        if f.qid.path == qid.path && f.ty == ty && f.dev == d {
          found, c, m := Cross(mh, cp, mp, a, held);
          return;
        }
        i := i + 1;
      }
      found, c, m := false, cp, mp;
    }

    lemma OkHeadFrom(a: Anchor, held: multiset<Id>, m: Id, file: File)
      requires Ok(a, held) && m in table
      ensures m in objs && objs[m].Mhead? && objs[m].from in objs && objs[objs[m].from].Chan?
      ensures var f := objs[objs[m].from];
              OnHead(a.base, m, file) <==> f.qid.path == file.qid.path && f.ty == file.ty && f.dev == file.dev
    {
      OkHead(a, held, m);
      BaseFile(a, held, objs[m].from);
    }

    /** The first channel of a mount head. */
    lemma OkMounted(a: Anchor, held: multiset<Id>, m: Id)
      requires Ok(a, held) && m in table
      ensures m in objs && objs[m].Mhead? && objs[m].mount != [] && objs[m].mount == Mounts(a.base, m)
      ensures forall i :: 0 <= i < |objs[m].mount| ==> FileAt(objs, objs[m].mount[i]) == FileAt(a.base, objs[m].mount[i])
      ensures From(a.base, m) == Some(objs[m].from)
    {
      hide Links, Out;
      OkHead(a, held, m);
      assert KindsOf(a.base, a.base[m]);
    }

    /** Takes references to a mount head and its first channel, for those held so far. */
    method Cross(mh: Id, cp: Option<Id>, mp: Option<Id>, ghost a: Anchor, ghost held: multiset<Id>)
        returns (found: bool, c: Option<Id>, m: Option<Id>)
      requires Ok(a, held + Opt(cp) + Opt(mp)) && mh in table
      modifies `objs
      ensures found && c.Some? && m == Some(mh) && Ok(a, held + Opt(c) + Opt(m)) && Shrunk(old(objs), objs)
      ensures c.value in objs && objs[c.value].Chan? && FileAt(objs, c.value) == Mounted(a.base, mh)
    {
      hide Ok, Opt, Shrunk;
      ghost var u, h := objs, held + Opt(cp) + Opt(mp);
      OkHead(a, h, mh);
      var to := objs[mh].mount[0];
      Hold(mh, a, h);
      ghost var v := objs;
      Hold(to, a, h + multiset{mh});
      ghost var w := objs;
      found, c, m := true, Some(to), Some(mh);
      OptIs(to);
      OptIs(mh);
      assert h + multiset{mh} + multiset{to} == held + Opt(cp) + Opt(c) + Opt(m) + Opt(mp);
      DropOpt(mp, a, held + Opt(cp) + Opt(c) + Opt(m));
      ghost var x := objs;
      assert held + Opt(cp) + Opt(c) + Opt(m) == held + Opt(c) + Opt(m) + Opt(cp);
      DropOpt(cp, a, held + Opt(c) + Opt(m));
      ShrunkOn(u, v, w);
      ShrunkOn(u, w, x);
      ShrunkOn(u, x, objs);
      OkHead(a, held + Opt(c) + Opt(m), mh);
      OkMounted(a, held + Opt(c) + Opt(m), mh);
      SameMount(u, objs, mh);
    }

    lemma OptIs(x: Id)
      ensures Opt(Some(x)) == multiset{x}
    {}

    lemma SameMount(u: Objs, v: Objs, m: Id)
      requires Shrunk(u, v) && m in u && m in v && u[m].Mhead?
      ensures v[m].Mhead? && v[m].mount == u[m].mount && v[m].from == u[m].from
    {}

    /** domount: crosses a mount point, and notes in the path where from. */
    method Domount(c0: Id, mp: Option<Id>, p0: Id, ghost nomount: bool, ghost a: Anchor, ghost held: multiset<Id>)
        returns (found: bool, c: Id, m: Option<Id>, p: Id)
      requires Ok(a, held + multiset{p0} + multiset{c0} + Opt(mp)) && c0 in objs && objs[c0].Chan? && p0 in objs && objs[p0].Path?
      requires mp.Some? ==> mp.value in table
      modifies `objs, `next
      ensures Ok(a, held + multiset{p} + multiset{c} + Opt(m))
      ensures c in objs && objs[c].Chan? && p in objs && objs[p].Path? && objs[p].name == old(objs)[p0].name
      ensures m.Some? ==> m.value in table
      ensures SpotOf(c, p, m) == Crossed(Sp(a, nomount), old(SpotOf(c0, p0, mp)))
    {
      hide Ok, Stable, Opt, Shrunk, Mounted, From, SetTop, MountOn;
      OptIs(c0);
      ghost var h := held + multiset{p0};
      OkOlder(a, h + Opt(Some(c0)) + Opt(mp));
      var cc;
      found, cc, m := Findmount(Some(c0), mp, objs[c0].ty, objs[c0].dev, objs[c0].qid, a, h);
      ghost var v := objs;
      c, p := c0, p0;
      if !found {
        return;
      }
      c := cc.value;
      OptIs(c);
      ghost var k := held + multiset{c} + Opt(m);
      assert h + Opt(cc) + Opt(m) == k + multiset{p0};
      OkHas(a, k + multiset{p0}, p0);
      SameAs(old(objs), v, p0);
      p := Note(m.value, p0, a, k);
      assert held + multiset{p} + multiset{c} + Opt(m) == k + multiset{p};
      OkHas(a, k + multiset{p}, c);
      ChanStays(v, old(next), objs, c);
    }

    lemma SameAs(u: Objs, v: Objs, x: Id)
      requires Shrunk(u, v) && x in v
      ensures x in u && Same(u[x], v[x])
    {}

    lemma ChanStays(u: Objs, nu: Id, v: Objs, x: Id)
      requires Stable(u, nu, v) && x in u && x in v && u[x].Chan?
      ensures v[x].Chan? && Same(u[x], v[x])
    {}

    /** The last slot of the path, made a new one, gets the channel mounted upon. */
    method Note(m: Id, p0: Id, ghost a: Anchor, ghost held: multiset<Id>) returns (p: Id)
      requires Ok(a, held + multiset{p0}) && p0 in objs && objs[p0].Path? && m in table
      modifies `objs, `next
      ensures Ok(a, held + multiset{p}) && Stable(old(objs), old(next), objs) && old(next) <= next
      ensures p in objs && objs[p].Path? && objs[p].name == old(objs)[p0].name
      ensures objs[p].mtpt == SetTop(old(objs)[p0].mtpt, From(a.base, m))
    {
      hide Ok, Stable, Opt, Shrunk;
      OkOlder(a, held + multiset{p0});
      p := Uniquepath(p0, a, held);
      ghost var v, h, nv := objs, held + multiset{p}, next;
      OkOlder(a, h);
      OkHead(a, h, m);
      OkMounted(a, h, m);
      var from := objs[m].from;
      Hold(from, a, h);
      ghost var w := objs;
      StableShrunk(v, next, w);
      OkHas(a, h + multiset{from}, p);
      SameAs(v, w, p);
      OptIs(from);
      var was := SetLast(p, Some(from), a, h);
      ghost var x := objs;
      DropOpt(was, a, h);
      OkHas(a, h, p);
      SameAs(x, objs, p);
      StableShrunk(x, next, objs);
      StableTrans(v, next, w, next, x);
      StableTrans(v, next, x, next, objs);
      StableTrans(old(objs), old(next), v, nv, objs);
    }

    // ---- walk ----

    /** ewalk: the device's answer, with its new channel if it got all the way. */
    method Ewalk(x: Id, names: seq<string>, ghost a: Anchor, ghost held: multiset<Id>)
        returns (w: Option<Walkqid>, clone: Option<Id>)
      requires Ok(a, held) && x in objs && objs[x].Chan? && DeviceOk(dev)
      modifies `objs, `next
      ensures Ok(a, held + Opt(clone)) && Stable(old(objs), old(next), objs) && old(next) <= next
      ensures clone.Some? <==> w.Some? && w.value.whole
      ensures clone.Some? ==> clone.value in objs && Bare(objs[clone.value]) && clone.value !in a.base && clone.value !in old(objs)
      ensures w.Some? ==> |w.value.qids| <= |names| && (w.value.whole <==> |w.value.qids| == |names|)
      ensures w.Some? && names == [".."] ==> w.value.whole
      ensures forall y :: y in old(objs) ==> y in objs && objs[y] == old(objs)[y]
      ensures w == WalkSpec.Ask(dev, old(FileAt(objs, x)), names)
      ensures clone.Some? ==> FileAt(objs, clone.value) == Reached(old(FileAt(objs, x)), w.value)
      ensures clone == None ==> objs == old(objs) && next == old(next)
    {
      hide Ok, Stable, Heap, DeviceOk;
      StableSelf(objs, next);
      var c := objs[x];
      DeviceIs(c.ty, c.dev, c.qid, names);
      w, clone := dev(c.ty, c.dev, c.qid, names), None;
      assert held + Opt(None) == held;
      if w.Some? && w.value.whole {
        var q := if w.value.qids == [] then c.qid else w.value.qids[|w.value.qids| - 1];
        clone := Newclone(c.ty, c.dev, q, a, held);
      }
    }

    method Newclone(ty: nat, d: nat, q: Qid, ghost a: Anchor, ghost held: multiset<Id>) returns (clone: Option<Id>)
      requires Ok(a, held)
      modifies `objs, `next
      ensures clone.Some? && Ok(a, held + Opt(clone)) && Stable(old(objs), old(next), objs) && old(next) <= next
      ensures FileAt(objs, clone.value) == File(ty, d, q)
      ensures clone.value in objs && Bare(objs[clone.value]) && clone.value !in a.base && clone.value !in old(objs)
      ensures forall y :: y in old(objs) ==> y in objs && objs[y] == old(objs)[y]
    {
      hide Heap, News, PathsOk, Tabled, Stable;
      OkParts(a, held);
      var n := Newchan(ty, d, q, a, held);
      clone := Some(n);
      OptIs(n);
      StableNew(old(objs), old(next), objs, n);
    }

    lemma DeviceIs(ty: nat, d: nat, q: Qid, names: seq<string>)
      requires DeviceOk(dev)
      ensures var w := dev(ty, d, q, names);
              w.Some? ==> && |w.value.qids| <= |names| && (w.value.whole <==> |w.value.qids| == |names|)
                          && (names == [".."] ==> w.value.whole)
    {}

    lemma OkParts(a: Anchor, held: multiset<Id>)
      requires Ok(a, held)
      ensures Ctx(a, held) && News(a.base, objs) && PathsOk(objs) && Tabled(table, a.ext) && Tabled(table, a.ext + held)
    {}

    lemma OkBack(a: Anchor, held: multiset<Id>)
      requires Ctx(a, held) && News(a.base, objs) && PathsOk(objs) && Tabled(table, a.ext)
      ensures Ok(a, held)
    {}

    /** The rest of a union: the first of its other channels that walks. */
    method Union(m: Id, names: seq<string>, ghost nomount: bool, ghost a: Anchor, ghost held: multiset<Id>)
        returns (w: Option<Walkqid>, clone: Option<Id>, ty: nat, d: nat)
      requires Ok(a, held) && m in table && DeviceOk(dev)
      modifies `objs, `next
      ensures Ok(a, held + Opt(clone)) && Stable(old(objs), old(next), objs) && old(next) <= next
      ensures clone.Some? <==> w.Some? && w.value.whole
      ensures clone.Some? ==> clone.value in objs && objs[clone.value].Chan? && clone.value !in a.base
      ensures w.Some? ==> |w.value.qids| <= |names| && (w.value.whole <==> |w.value.qids| == |names|)
      ensures w.Some? && names == [".."] ==> w.value.whole
      ensures forall y :: y in old(objs) ==> y in objs && objs[y] == old(objs)[y]
      ensures Told(UnionAsk(Sp(a, nomount), Mounts(a.base, m)[1..], names), w, clone, ty, d)
    {
      hide Ok, Stable, Told;
      StableSelf(objs, next);
      OkHead(a, held, m);
      OkMounted(a, held, m);
      ghost var l := Mounts(a.base, m);
      w, clone, ty, d := None, None, 0, 0;
      assert held + Opt(None) == held;
      var i := 1;
      while i < |objs[m].mount|
        invariant 1 <= i && objs == old(objs) && next == old(next) && w == None && clone == None && Ok(a, held)
        invariant m in objs && objs[m].Mhead? && objs[m].mount == l && i <= |l|
        invariant UnionAsk(Sp(a, nomount), l[1..], names) == UnionAsk(Sp(a, nomount), l[i..], names)
      {
        var f := objs[m].mount[i];
        OkHead(a, held, m);
        OkMounted(a, held, m);
        assert l[i..][1..] == l[i + 1..];
        w, clone := Ewalk(f, names, a, held);
        if w.Some? {
          ty, d := objs[f].ty, objs[f].dev;
          ToldThat(FileAt(a.base, f), w, clone, ty, d);
          return;
        }
        assert held + Opt(clone) == held;
        i := i + 1;
      }
      ToldNothing(w, clone, ty, d);
    }

    /** The answer r, as a walk has it. */
    ghost predicate Told(r: Option<(File, Walkqid)>, w: Option<Walkqid>, clone: Option<Id>, ty: nat, d: nat)
      reads this
    {
      && (r.Some? <==> w.Some?)
      && (r.Some? ==> && w.value == r.value.1 && ty == r.value.0.ty && d == r.value.0.dev
                      && (clone.Some? ==> FileAt(objs, clone.value) == Reached(r.value.0, w.value)))
    }

    lemma ToldThat(f: File, w: Option<Walkqid>, clone: Option<Id>, ty: nat, d: nat)
      requires w.Some? && ty == f.ty && d == f.dev && (clone.Some? ==> FileAt(objs, clone.value) == Reached(f, w.value))
      ensures Told(Some((f, w.value)), w, clone, ty, d)
    {}

    lemma ToldNothing(w: Option<Walkqid>, clone: Option<Id>, ty: nat, d: nat)
      requires w == None
      ensures Told(None, w, clone, ty, d)
    {}

    /** The first mount point along the way, before the last name. */
    method FirstMount(qids: seq<Qid>, ntry: nat, ty: nat, d: nat, ghost f: File, ghost nomount: bool, ghost a: Anchor,
        ghost held: multiset<Id>)
        returns (nc: Option<Id>, nmh: Option<Id>, n: nat)
      requires Ok(a, held) && ntry >= 1 && f.ty == ty && f.dev == d
      modifies `objs
      ensures Ok(a, held + Opt(nc) + Opt(nmh)) && Shrunk(old(objs), objs)
      ensures Noticed(MountAlong(Sp(a, nomount), f, qids, ntry - 1), a, nc, nmh, n)
    {
      hide Ok, Shrunk, MountOn, Mounted, Noticed, MountAlong, Opt;
      ghost var sp := Sp(a, nomount);
      ShrunkSelf(objs);
      NoOpt();
      nc, nmh, n := None, None, 0;
      assert held + Opt(None) + Opt(None) == held;
      var i := 0;
      assert qids[0..] == qids;
      FurtherNone();
      while i < |qids| && i < ntry - 1
        invariant i <= ntry - 1 && nc == None && nmh == None && objs == old(objs) && Ok(a, held + Opt(nc) + Opt(nmh))
        invariant i <= |qids| && MountAlong(sp, f, qids, ntry - 1) == Further(MountAlong(sp, f, qids[i..], ntry - 1 - i), i)
      {
        var found;
        found, nc, nmh := Findmount(nc, nmh, ty, d, qids[i], a, held);
        AlongOnce(sp, f, qids[i..], ntry - 1 - i);
        assert f.(qid := qids[i]) == File(ty, d, qids[i]) && qids[i..][1..] == qids[i + 1..];
        FurtherTwice(MountAlong(sp, f, qids[i + 1..], ntry - 1 - (i + 1)), i);
        i := i + 1;
        if found {
          n := i;
          NoticedThat(a, nc, nmh, n);
          return;
        }
      }
      AlongEnd(sp, f, qids[i..], ntry - 1 - i);
      NoticedNone(a, nc, nmh, n);
    }

    /** The mount point r, as a walk has it. */
    ghost predicate Noticed(r: Option<(nat, Id)>, a: Anchor, nc: Option<Id>, nmh: Option<Id>, n: nat)
      reads this
    {
      && (r.Some? <==> nc.Some?) && (r.Some? <==> nmh.Some?)
      && (r.Some? ==> && r.value == (n, nmh.value) && nmh.value in table && nc.value in objs && objs[nc.value].Chan?
                      && FileAt(objs, nc.value) == Mounted(a.base, nmh.value))
    }

    lemma NoticedThat(a: Anchor, nc: Option<Id>, nmh: Option<Id>, n: nat)
      requires nc.Some? && nmh.Some? && nmh.value in table && nc.value in objs && objs[nc.value].Chan?
      requires FileAt(objs, nc.value) == Mounted(a.base, nmh.value)
      ensures Noticed(Some((n, nmh.value)), a, nc, nmh, n)
    {}

    lemma NoticedNone(a: Anchor, nc: Option<Id>, nmh: Option<Id>, n: nat)
      requires nc == None && nmh == None
      ensures Noticed(None, a, nc, nmh, n)
    {}

    /** The names walked go to the path, the last with the channel mounted upon. */
    method AddElems(p0: Id, names: seq<string>, nmh: Option<Id>, ghost a: Anchor, ghost held: multiset<Id>) returns (p: Id)
      requires Ok(a, held + multiset{p0}) && p0 in objs && objs[p0].Path? && (nmh.Some? ==> nmh.value in table)
      modifies `objs, `next
      ensures Ok(a, held + multiset{p}) && p in objs && objs[p].Path? && objs[p].name == AddNames(old(objs)[p0].name, names)
      ensures objs[p].mtpt == AddSlots(old(objs)[p0].mtpt, names, if nmh.Some? then From(a.base, nmh.value) else None)
      ensures Stable(old(objs), old(next), objs) && old(next) <= next
    {
      hide Ok, Stable, Heap, AddName, AddSlot, From, AddSlots, AddNames;
      ghost var fr := if nmh.Some? then From(a.base, nmh.value) else None;
      p := p0;
      AddNone(objs[p0].name);
      assert names[0..] == names;
      StableSelf(objs, next);
      OkOlder(a, held + multiset{p0});
      var i := 0;
      assert names[..0] == [];
      while i < |names|
        invariant i <= |names| && Ok(a, held + multiset{p}) && p in objs && objs[p].Path?
        invariant objs[p].name == AddNames(old(objs)[p0].name, names[..i])
        invariant AddSlots(objs[p].mtpt, names[i..], fr) == AddSlots(old(objs)[p0].mtpt, names, fr)
        invariant Stable(old(objs), old(next), objs) && old(next) <= next
      {
        var from: Option<Id> := None;
        if i == |names| - 1 && nmh.Some? {
          OkHead(a, held + multiset{p}, nmh.value);
          OkMounted(a, held + multiset{p}, nmh.value);
          from := Some(objs[nmh.value].from);
        }
        ghost var v, nv, m := objs, next, objs[p].mtpt;
        p := Addelem(p, names[i], from, a, held);
        StableTrans(old(objs), old(next), v, nv, objs);
        AddNamesOn(old(objs)[p0].name, names, i);
        SlotsOnce(m, names[i..], fr);
        assert names[i..][1..] == names[i + 1..];
        i := i + 1;
      }
      assert names[..i] == names && names[i..] == [];
      SlotsDone(objs[p].mtpt, fr);
    }

    /** A walk gives up what it holds. */
    method Abandon(c: Id, p: Id, mh: Option<Id>, ghost a: Anchor, ghost held: multiset<Id>)
      requires Ok(a, held + multiset{p} + multiset{c} + Opt(mh))
      modifies `objs
      ensures Ok(a, held)
    {
      hide Ok;
      DropOpt(mh, a, held + multiset{p} + multiset{c});
      Drop(c, a, held + multiset{p});
      Drop(p, a, held);
    }

    /** What a stage of a walk holds: its path, its channel, and a mount head. */
    ghost predicate At(a: Anchor, held: multiset<Id>, c: Id, p: Id, mh: Option<Id>)
      reads this
    {
      && Ok(a, held + multiset{p} + multiset{c} + Opt(mh))
      && c in objs && objs[c].Chan? && p in objs && objs[p].Path? && (mh.Some? ==> mh.value in table)
    }

    /** How many names to send: one "..", or those before the next "..". */
    method Count(names: seq<string>) returns (ntry: nat, dotdot: bool)
      requires names != []
      ensures ntry == Ntry(names) && ntry <= MAXWELEM && dotdot == (names[0] == "..")
    {
      ntry := if |names| > MAXWELEM then MAXWELEM else |names|;
      if names[0] == ".." {
        return 1, true;
      }
      dotdot := false;
      var i := 1;
      while i < ntry
        invariant 1 <= i <= ntry <= MAXWELEM && names[0] != ".." && Ntry(names) == Before(names, i, ntry)
      {
        if names[i] == ".." {
          ntry := i;
          return;
        }
        i := i + 1;
      }
    }

    /** Sends a walk to c's device, and then to the rest of the union c is the first of. */
    method Ask(c: Id, p: Id, mh: Option<Id>, names: seq<string>, nomount: bool, ghost a: Anchor, ghost held: multiset<Id>)
        returns (w: Option<Walkqid>, clone: Option<Id>, ty: nat, d: nat)
      requires At(a, held, c, p, mh) && DeviceOk(dev)
      modifies `objs, `next
      ensures At(a, held + Opt(clone), c, p, mh) && objs[p].name == old(objs)[p].name
      ensures SpotOf(c, p, mh) == old(SpotOf(c, p, mh))
      ensures Told(Answer(Sp(a, nomount), old(SpotOf(c, p, mh)), names), w, clone, ty, d)
      ensures clone.Some? <==> w.Some? && w.value.whole
      ensures clone.Some? ==> clone.value in objs && objs[clone.value].Chan? && clone.value !in a.base
      ensures w.Some? ==> |w.value.qids| <= |names| && (w.value.whole <==> |w.value.qids| == |names|)
      ensures w.Some? && names == [".."] ==> w.value.whole
    {
      hide Ok, Stable, Opt, Reached;
      ghost var h := held + multiset{p} + multiset{c} + Opt(mh);
      if mh.Some? {
        OkMounted(a, h, mh.value);
      }
      ty, d := objs[c].ty, objs[c].dev;
      w, clone := Ewalk(c, names, a, h);
      if w == None && mh.Some? && !nomount {
        assert h + Opt(clone) == h by { NoOpt(); }
        w, clone, ty, d := Union(mh.value, names, nomount, a, h);
      }
      assert h + Opt(clone) == held + Opt(clone) + multiset{p} + multiset{c} + Opt(mh);
    }

    lemma NoOpt()
      ensures Opt(None) == multiset{}
    {}

    /** The result of a "..": the path goes up, and a mount crossed there is uncrossed. */
    method GoUp(c: Id, p0: Id, mh: Option<Id>, clone: Id, ghost a: Anchor, ghost held: multiset<Id>) returns (nc: Id, p: Id)
      requires At(a, held + Opt(Some(clone)), c, p0, mh) && clone in objs && objs[clone].Chan? && clone !in a.base
      modifies `objs, `next
      ensures At(a, held, nc, p, None) && objs[p].name == AddName(old(objs)[p0].name, "..")
      ensures nc in a.base <==> Uncrosses(old(objs)[p0].mtpt, "..")
      ensures forall nomount :: SpotOf(nc, p, None) == Up(Sp(a, nomount), old(SpotOf(c, p0, mh)), old(FileAt(objs, clone)))
    {
      hide Ok, Stable, Opt, AddName, AddSlot, Top, SetTop;
      OptIs(clone);
      NoOpt();
      ghost var h := held + multiset{c} + Opt(mh) + multiset{clone};
      assert held + Opt(Some(clone)) + multiset{p0} + multiset{c} + Opt(mh) == h + multiset{p0};
      OkOlder(a, h + multiset{p0});
      p := Addelem(p0, "..", None, a, h);
      ghost var k := held + multiset{c} + Opt(mh);
      assert h + multiset{p} == k + multiset{p} + multiset{clone};
      OkHas(a, h + multiset{p}, clone);
      ChanStays(old(objs), old(next), objs, clone);
      nc := Undomount(clone, p, a, k);
      assert k + multiset{p} + multiset{nc} == held + multiset{c} + Opt(mh) + multiset{p} + multiset{nc} + Opt(None);
      p := Leave(c, p, mh, nc, None, a, held);
    }

    /** Moves on: the channel and the mount head held so far are closed. */
    method Leave(c: Id, p: Id, mh: Option<Id>, nc: Id, nmh: Option<Id>, ghost a: Anchor, ghost held: multiset<Id>) returns (r: Id)
      requires Ok(a, held + multiset{c} + Opt(mh) + multiset{p} + multiset{nc} + Opt(nmh))
      requires nc in objs && objs[nc].Chan? && p in objs && objs[p].Path? && (nmh.Some? ==> nmh.value in table)
      modifies `objs
      ensures r == p && At(a, held, nc, p, nmh) && objs[p].name == old(objs)[p].name
      ensures SpotOf(nc, p, nmh) == old(SpotOf(nc, p, nmh))
    {
      hide Ok, Opt, Shrunk;
      r := p;
      ghost var k := held + multiset{p} + multiset{nc} + Opt(nmh);
      assert held + multiset{c} + Opt(mh) + multiset{p} + multiset{nc} + Opt(nmh) == k + Opt(mh) + multiset{c};
      Drop(c, a, k + Opt(mh));
      ghost var v := objs;
      DropOpt(mh, a, k);
      OkHas(a, k, p);
      OkHas(a, k, nc);
      ShrunkOn(old(objs), v, objs);
      SameAs(old(objs), objs, p);
      SameAs(old(objs), objs, nc);
    }

    /** The result of a walk down: to the first mount point on the way, or to the end.
        A partial walk with no mount point on it fails. */
    method GoDown(c: Id, p0: Id, mh: Option<Id>, w: Walkqid, clone: Option<Id>, names: seq<string>, ty: nat, d: nat, nomount: bool,
                  ghost f: File, ghost a: Anchor, ghost held: multiset<Id>)
        returns (ok: bool, n: nat, nerr: nat, nc: Id, p: Id, nmh: Option<Id>)
      requires At(a, held + Opt(clone), c, p0, mh) && names != []
      requires |w.qids| <= |names| && (w.whole <==> |w.qids| == |names|) && (clone.Some? <==> w.whole)
      requires clone.Some? ==> clone.value in objs && objs[clone.value].Chan? && FileAt(objs, clone.value) == Reached(f, w)
      requires clone.Some? ==> clone.value !in a.base
      requires f.ty == ty && f.dev == d
      modifies `objs, `next
      ensures Tells(Down(Sp(a, nomount), old(objs)[p0].mtpt, f, w, names), ok, n, nerr, nc, p, nmh)
      ensures ok ==> At(a, held, nc, p, nmh) && 1 <= n <= |names| && objs[p].name == AddNames(old(objs)[p0].name, names[..n])
      ensures ok && n == |names| ==> nc !in a.base
      ensures !ok ==> Ok(a, held)
    {
      hide Ok, Stable, Opt, AddNames, Shrunk, AddSlots, Mounted, MountAlong, From, Reached, Down, Tells, FileAt, KindsOf, Out;
      p, nc, n, nerr, ok := p0, c, |w.qids|, 0, false;
      ghost var h := held + multiset{c} + Opt(mh) + Opt(clone) + multiset{p0};
      assert h == held + Opt(clone) + multiset{p0} + multiset{c} + Opt(mh);
      var ncc: Option<Id>, k: nat;
      ncc, nmh, k := First(w.qids, |names|, ty, d, nomount, f, a, h);
      DownIs(Sp(a, nomount), old(objs)[p0].mtpt, f, w, names);
      if clone.Some? {
        OptIs(clone.value);
      }
      StillThere(old(objs), objs, a, h, ncc, nmh, c, p0, clone);
      if ncc == None && clone == None {
        NoOpt();
        assert h + Opt(ncc) + Opt(nmh) == held + multiset{p0} + multiset{c} + Opt(mh);
        Abandon(c, p0, mh, a, held);
        nerr := if w.qids == [] || w.qids[|w.qids| - 1].dir then |w.qids| + 1 else |w.qids|;
        TellsNo(nerr, n, nc, p, nmh);
        return;
      }
      ghost var v := objs;
      nc := Choose(ncc, nmh, clone, p0, a, held + multiset{c} + Opt(mh));
      SameAs(v, objs, p0);
      if ncc.Some? {
        n := k;
      }
      assert names[..|names|] == names;
      p := Arrive(c, p0, mh, nc, nmh, names[..n], a, held);
      ok := true;
      TellsOn(n, nerr, nc, p, nmh);
    }

    /** The round r, as a walk has it. */
    ghost predicate Tells(r: Round, ok: bool, n: nat, nerr: nat, c: Id, p: Id, mh: Option<Id>)
      reads this
    {
      r == if ok then On(n, SpotOf(c, p, mh)) else Stuck(nerr)
    }

    lemma TellsOn(n: nat, nerr: nat, c: Id, p: Id, mh: Option<Id>)
      ensures Tells(On(n, SpotOf(c, p, mh)), true, n, nerr, c, p, mh)
    {}

    lemma TellsNo(nerr: nat, n: nat, c: Id, p: Id, mh: Option<Id>)
      ensures Tells(Stuck(nerr), false, n, nerr, c, p, mh)
    {}

    /** The mount point found, or else the end of the walk. */
    method Choose(ncc: Option<Id>, nmh: Option<Id>, clone: Option<Id>, p0: Id, ghost a: Anchor,
        ghost held: multiset<Id>) returns (nc: Id)
      requires Ok(a, held + Opt(clone) + multiset{p0} + Opt(ncc) + Opt(nmh)) && (ncc.Some? <==> nmh.Some?) &&
          (ncc.Some? || clone.Some?)
      requires ncc.Some? ==> ncc.value in objs && objs[ncc.value].Chan?
      requires clone.Some? ==> clone.value in objs && objs[clone.value].Chan?
      modifies `objs
      ensures Ok(a, held + multiset{nc} + Opt(nmh) + multiset{p0}) && Shrunk(old(objs), objs) && p0 in objs
      ensures nc == if ncc.Some? then ncc.value else clone.value
      ensures nc in objs && objs[nc].Chan? && FileAt(objs, nc) == old(FileAt(objs, nc))
    {
      hide Ok, Opt, Shrunk;
      ShrunkSelf(objs);
      NoOpt();
      if ncc == None {
        nc := clone.value;
        OptIs(nc);
        assert held + Opt(clone) + multiset{p0} + Opt(ncc) + Opt(nmh) == held + multiset{nc} + Opt(nmh) + multiset{p0};
        OkHas(a, held + multiset{nc} + Opt(nmh) + multiset{p0}, p0);
      } else {
        nc := ncc.value;
        OptIs(nc);
        ghost var k := held + multiset{nc} + Opt(nmh) + multiset{p0};
        assert held + Opt(clone) + multiset{p0} + Opt(ncc) + Opt(nmh) == k + Opt(clone);
        DropOpt(clone, a, k);
        OkHas(a, k, nc);
        OkHas(a, k, p0);
        SameAs(old(objs), objs, nc);
      }
    }

    /** The names walked go to the path, and the walk moves on. */
    method Arrive(c: Id, p0: Id, mh: Option<Id>, nc: Id, nmh: Option<Id>, names: seq<string>, ghost a: Anchor,
        ghost held: multiset<Id>)
        returns (p: Id)
      requires Ok(a, held + multiset{c} + Opt(mh) + multiset{nc} + Opt(nmh) + multiset{p0}) && p0 in objs && objs[p0].Path?
      requires nc in objs && objs[nc].Chan? && (nmh.Some? ==> nmh.value in table)
      modifies `objs, `next
      ensures At(a, held, nc, p, nmh) && objs[p].name == AddNames(old(objs)[p0].name, names)
      ensures SpotOf(nc, p, nmh) == Spot(old(FileAt(objs, nc)),
        AddSlots(old(objs)[p0].mtpt, names, if nmh.Some? then From(a.base, nmh.value) else None), nmh)
    {
      hide Ok, Opt, Stable, AddNames, AddSlots, From;
      ghost var k := held + multiset{c} + Opt(mh) + multiset{nc} + Opt(nmh);
      OkOlder(a, k + multiset{p0});
      p := AddElems(p0, names, nmh, a, k);
      OkHas(a, k + multiset{p}, nc);
      ChanStays(old(objs), old(next), objs, nc);
      assert k + multiset{p} == held + multiset{c} + Opt(mh) + multiset{p} + multiset{nc} + Opt(nmh);
      p := Leave(c, p, mh, nc, nmh, a, held);
    }

    /** FirstMount, unless mount points are to be ignored. */
    method First(qids: seq<Qid>, ntry: nat, ty: nat, d: nat, nomount: bool, ghost f: File, ghost a: Anchor,
        ghost held: multiset<Id>)
        returns (nc: Option<Id>, nmh: Option<Id>, n: nat)
      requires Ok(a, held) && ntry >= 1 && f.ty == ty && f.dev == d
      modifies `objs
      ensures Ok(a, held + Opt(nc) + Opt(nmh)) && Shrunk(old(objs), objs)
      ensures Noticed(if nomount then None else MountAlong(Sp(a, nomount), f, qids, ntry - 1), a, nc, nmh, n)
    {
      hide Ok;
      nc, nmh, n := None, None, 0;
      assert held + Opt(None) + Opt(None) == held;
      if !nomount {
        nc, nmh, n := FirstMount(qids, ntry, ty, d, f, nomount, a, held);
      }
    }

    lemma StillThere(u: Objs, v: Objs, a: Anchor, held: multiset<Id>, x: Option<Id>, y: Option<Id>, c: Id, p: Id, clone: Option<Id>)
      requires Ok(a, held + Opt(x) + Opt(y)) && v == objs && Shrunk(u, v)
      requires c in held && p in held && (clone.Some? ==> clone.value in held)
      requires c in u && u[c].Chan? && p in u && u[p].Path? && (clone.Some? ==> clone.value in u && u[clone.value].Chan?)
      ensures c in v && v[c].Chan? && p in v && v[p].Path? && v[p].name == u[p].name && v[p].mtpt == u[p].mtpt
      ensures clone.Some? ==> clone.value in v && v[clone.value].Chan? && FileAt(v, clone.value) == FileAt(u, clone.value)
    {
      OkHas(a, held + Opt(x) + Opt(y), c);
      OkHas(a, held + Opt(x) + Opt(y), p);
      if clone.Some? {
        OkHas(a, held + Opt(x) + Opt(y), clone.value);
      }
    }

    /** One round of walk: n names further, or nothing held any more. */
    method Stage(c0: Id, p0: Id, mh0: Option<Id>, names: seq<string>, didmount: bool, nomount: bool, ghost a: Anchor,
        ghost held: multiset<Id>)
        returns (ok: bool, n: nat, nerr: nat, c: Id, p: Id, mh: Option<Id>)
      requires At(a, held, c0, p0, mh0) && names != [] && DeviceOk(dev) && didmount == mh0.Some?
      modifies `objs, `next
      ensures Tells(Batch(Sp(a, nomount), old(SpotOf(c0, p0, mh0)), names), ok, n, nerr, c, p, mh)
      ensures ok ==> At(a, held, c, p, mh) && 1 <= n <= |names| && objs[p].name == AddNames(old(objs)[p0].name, names[..n])
      ensures ok && n == |names| ==> (c in a.base <==> Uncrosses(old(SpotOf(c0, p0, mh0)).hist, names[0]))
      ensures !ok ==> Ok(a, held)
    {
      hide Ok, Stable, Opt, AddNames, AddName, DeviceOk, Crossed, Answer, Down, Up, Reached, Ntry, Uncrosses;
      NeverUp(SpotOf(c0, p0, mh0).hist, names[0]);
      ghost var t := SpotOf(c0, p0, mh0);
      ok, n, nerr, c, p, mh := false, 0, 0, c0, p0, mh0;
      if !objs[c].qid.dir {
        Abandon(c, p, mh, a, held);
        return;
      }
      var ntry, dotdot := Count(names);
      var seg := names[..ntry];
      if !dotdot && !nomount && !didmount {
        var found;
        found, c, mh, p := Domount(c, mh, p, nomount, a, held);
      }
      assert SpotOf(c, p, mh) == Ready(Sp(a, nomount), t, names[0]);
      ghost var u := SpotOf(c, p, mh);
      var w, clone, ty, d := Ask(c, p, mh, seg, nomount, a, held);
      ghost var f := if w.Some? then Answer(Sp(a, nomount), u, seg).value.0 else t.file;
      if w == None {
        NoOpt();
        assert held + Opt(clone) == held;
        Abandon(c, p, mh, a, held);
        nerr := 1;
        return;
      }
      if dotdot {
        NtryUp(names);
        assert seg == [".."];
        OptIs(clone.value);
        c, p := GoUp(c, p, mh, clone.value, a, held);
        ok, n, mh := true, 1, None;
        OneName(old(objs)[p0].name, names);
      } else {
        ok, n, nerr, c, p, mh := GoDown(c, p, mh, w.value, clone, seg, ty, d, nomount, f, a, held);
        assert ok ==> seg[..n] == names[..n];
      }
    }

    lemma OneName(m: Name, names: seq<string>)
      requires names != []
      ensures AddNames(m, names[..1]) == AddName(m, names[0])
    {
      assert names[..1][..0] == [];
    }

    /** A new channel gets another path and mount head; f is held afterwards instead of e. */
    method Setchan(c: Id, path: Option<Id>, umh: Option<Id>, ghost a: Anchor, ghost e: multiset<Id>, ghost f: multiset<Id>)
      requires Ctx(a, e) && PathsOk(objs) && Tabled(table, a.ext) && c in objs && c !in a.base && objs[c].Chan?
      requires e + Opt(objs[c].path) + Opt(objs[c].umh) == f + Opt(path) + Opt(umh)
      requires path.Some? ==> path.value in objs && objs[path.value].Path?
      requires umh.Some? ==> umh.value in objs && objs[umh.value].Mhead?
      modifies `objs
      ensures Ctx(a, f) && PathsOk(objs)
      ensures objs == old(objs)[c := old(objs)[c].(path := path, umh := umh)]
      ensures News(a.base, old(objs)) && (path.Some? ==> path.value in a.base) && (umh.Some? ==> umh.value in a.base) ==> News(a.base, objs)
    {
      hide Balanced, Out, Opt;
      var o := objs[c].(path := path, umh := umh);
      OutChan(objs[c]);
      OutChan(o);
      assert a.ext + e + Out(objs[c]) == a.ext + (e + Opt(objs[c].path) + Opt(objs[c].umh));
      assert a.ext + f + Out(o) == a.ext + (f + Opt(path) + Opt(umh));
      Change(objs, next, a.ext + e, a.ext + f, c, o);
      objs := objs[c := o];
    }

    lemma OutChan(o: Obj)
      requires o.Chan?
      ensures Out(o) == Opt(o.path) + Opt(o.umh)
      ensures forall y :: y in Out(o) <==> o.path == Some(y) || o.umh == Some(y)
    {}

    /** cclone: a new channel for the same file, with the same path. */
    method Cclone(c: Id, ghost a: Anchor, ghost held: multiset<Id>) returns (nc: Option<Id>)
      requires Ok(a, held + multiset{c}) && c in objs && objs[c].Chan? && DeviceOk(dev)
      modifies `objs, `next
      ensures Ok(a, held + multiset{c} + Opt(nc))
      ensures nc.Some? ==> nc.value in objs && objs[nc.value].Chan? && nc.value !in a.base
      ensures nc == None <==> old(dev(objs[c].ty, objs[c].dev, objs[c].qid, [])) == None
      ensures nc.Some? ==> nc.value !in old(objs) && Kept(old(objs), objs) && FileAt(objs, nc.value) == old(FileAt(objs, c))
    {
      hide Ok, Heap, Stable, DeviceOk;
      ghost var h := held + multiset{c};
      OkChanOut(a, h, c);
      var path := objs[c].path;
      var w;
      w, nc := Ewalk(c, [], a, h);
      if nc == None {
        return;
      }
      var n := nc.value;
      OptIs(n);
      if path.Some? {
        ghost var k := h + multiset{n};
        Hold(path.value, a, k);
        OkHas(a, k + multiset{path.value}, n);
        Setbare(n, path.value, a, k);
      }
    }

    /** A bare channel takes over a reference to a path. */
    method Setbare(n: Id, p: Id, ghost a: Anchor, ghost held: multiset<Id>)
      requires Ok(a, held + multiset{p}) && n in objs && Bare(objs[n]) && n !in a.base
      requires p in objs && objs[p].Path? && p in a.base
      modifies `objs
      ensures Ok(a, held) && n in objs && objs[n].Chan? && FileAt(objs, n) == old(FileAt(objs, n))
      ensures objs.Keys == old(objs).Keys && forall y :: y in objs && y != n ==> objs[y] == old(objs)[y]
    {
      hide Heap, News, PathsOk, Tabled;
      OkParts(a, held + multiset{p});
      OptIs(p);
      NoOpt();
      Setchan(n, Some(p), None, a, held + multiset{p}, held);
    }

    lemma OkChanOut(a: Anchor, held: multiset<Id>, c: Id)
      requires Ok(a, held) && c in objs && objs[c].Chan?
      ensures objs[c].path.Some? ==> objs[c].path.value in objs && objs[objs[c].path.value].Path? && objs[c].path.value in a.base
    {
      hide Links;
      AllOutInBase(a, objs, next, c);
      assert KindsOf(objs, objs[c]);
    }

    /** cunique: a channel that nobody else holds. The device may refuse to clone it, and
        the error then leaves the walk without giving up what it holds. */
    method Cunique(c: Id, ghost a: Anchor, ghost held: multiset<Id>) returns (r: Option<Id>)
      requires Ok(a, held + multiset{c}) && c in objs && objs[c].Chan? && DeviceOk(dev)
      modifies `objs, `next
      ensures r == None <==> old(objs[c].ref != 1 && dev(objs[c].ty, objs[c].dev, objs[c].qid, []) == None)
      ensures r == None ==> Ok(a, held + multiset{c})
      ensures r.Some? ==> Ok(a, held + multiset{r.value}) && r.value in objs && objs[r.value].Chan? && r.value !in a.base
      ensures r.Some? ==> Kept(old(objs), objs) && FileAt(objs, r.value) == old(FileAt(objs, c))
    {
      hide Ok, DeviceOk, Shrunk, Kept;
      KeptSelf(objs);
      if objs[c].ref != 1 {
        r := Cclone(c, a, held);
        if r == None {
          NoOpt();
          assert held + multiset{c} + Opt(r) == held + multiset{c};
          return;
        }
        ghost var v := objs;
        OptIs(r.value);
        assert held + multiset{c} + Opt(r) == held + multiset{r.value} + multiset{c};
        Drop(c, a, held + multiset{r.value});
        OkHas(a, held + multiset{r.value}, r.value);
        SameAs(v, objs, r.value);
        KeptShrunk(old(objs), v, objs);
      } else {
        r := Some(c);
        Sole(a, held, c);
      }
    }

    /** The device does not clone channels of this file. */
    predicate Uncloned(f: File) { WalkSpec.Ask(dev, f, []) == None }

    /** A channel held once is nobody else's exactly if it is new. */
    lemma NewAlone(a: Anchor, held: multiset<Id>, c: Id)
      requires Ok(a, held + multiset{c}) && c in objs && c !in held
      ensures objs[c].ref == 1 <==> c !in a.base
    {
      hide Out, KindsOf;
      var h := held + multiset{c};
      if c in a.base {
        AnchoredRef(a, objs, next, h, c);
      } else {
        assert c !in a.ext && (a.ext + h)[c] == 1;
        if Links(objs, next, c) > 0 {
          LinkFrom(objs, next, c);
          var i :| i in objs && i < next && c in Out(objs[i]);
          AllOutInBase(a, objs, next, i);
        }
      }
    }

    lemma Sole(a: Anchor, held: multiset<Id>, c: Id)
      requires Ok(a, held + multiset{c}) && c in objs && objs[c].ref <= 1
      ensures c !in a.base
    {
      SoleHolder(objs, next, table, a, held, c);
    }

    /** The new channel gets the path that was built for it, and no mount head. */
    method Install(c: Id, p: Id, ghost a: Anchor)
      requires Ok(a, multiset{p} + multiset{c}) && c in objs && c !in a.base && objs[c].Chan? && p in objs && objs[p].Path?
      modifies `objs
      ensures Ctx(a, multiset{c}) && PathsOk(objs) && Tabled(table, a.ext)
      ensures c in objs && objs[c].Chan? && objs[c].path == Some(p) && p in objs && objs[p].Path? &&
          objs[p].name == old(objs)[p].name
      ensures FileAt(objs, c) == old(FileAt(objs, c)) && objs[p].mtpt == old(objs)[p].mtpt
    {
      hide Heap, News, PathsOk, Tabled, Opt, Shrunk;
      ghost var h := multiset{p} + multiset{c};
      OkParts(a, h);
      var path, umh := objs[c].path, objs[c].umh;
      OptIs(p);
      NoOpt();
      ghost var u, f := objs, multiset{c} + Opt(path) + Opt(umh);
      assert h + Opt(path) + Opt(umh) == f + Opt(Some(p)) + Opt(None);
      Setchan(c, Some(p), None, a, h, f);
      ghost var v := objs;
      CloseOpt(umh, a, multiset{c} + Opt(path));
      ghost var w := objs;
      CloseOpt(path, a, multiset{c});
      ShrunkOn(v, w, objs);
      CtxHas(a, multiset{c}, c);
      SameAs(v, objs, c);
      CtxPath(a, multiset{c}, c);
      SameAs(v, objs, p);
    }

    lemma CtxHas(a: Anchor, held: multiset<Id>, x: Id)
      requires Ctx(a, held) && x in held
      ensures x in objs
    {
      HeldIn(objs, next, table, a, held, x);
    }

    lemma CtxPath(a: Anchor, held: multiset<Id>, c: Id)
      requires Ctx(a, held) && c in objs && objs[c].Chan? && objs[c].path.Some?
      ensures objs[c].path.value in objs && objs[objs[c].path.value].Path?
    {
      assert KindsOf(objs, objs[c]);
    }

    method CloseOpt(x: Option<Id>, ghost a: Anchor, ghost held: multiset<Id>)
      requires Ctx(a, held + Opt(x)) && PathsOk(objs) && Tabled(table, a.ext)
      modifies `objs
      ensures Ctx(a, held) && PathsOk(objs) && Shrunk(old(objs), objs)
    {
      hide Heap, PathsOk, Tabled, Shrunk;
      if x.Some? {
        TabledBy(a, held);
        Close(x.value, a, held);
        ShrunkOk(old(objs), objs, a.base);
      } else {
        ShrunkSelf(objs);
        assert held + Opt(x) == held;
      }
    }

    /** walk: all the way or not at all. E is what holds objects besides the caller's
        channel cp. A refused walk leaves every channel, path and mount head, counts and
        all, as it was. A walk that goes through changes nothing but counts of what was
        there, and exchanges cp for a channel for the file that the walk leads to, with
        the names added to its path and its mount history. Only the error of a failing
        clone at the end leaves something held: that is when the walk gets there, ends
        with a channel that others have too, and the device does not clone it. */
    method Walk(cp: Id, names: seq<string>, nomount: bool, ghost E: multiset<Id>)
        returns (o: Outcome, r: Id, nerr: nat, ghost leak: multiset<Id>)
      requires Balanced(objs, next, E + multiset{cp}) && TableOk(objs, table, E + multiset{cp}) && Tabled(table, E)
      requires PathsOk(objs) && DeviceOk(dev)
      requires cp in objs && objs[cp].Chan? && objs[cp].path.Some?
      modifies `objs, `next
      ensures o == Refused <==> old(Way(cp, names, nomount)).Nowhere?
      ensures o == Refused ==> objs == old(objs) && old(Way(cp, names, nomount)) == Nowhere(nerr)
      ensures o == Walked ==> && Balanced(objs, next, E + multiset{r}) && TableOk(objs, table, E + multiset{r}) && PathsOk(objs)
                              && r in objs && r !in old(objs) && objs[r].Chan? && objs[r].path.Some?
                              && objs[r].path.value in objs && objs[objs[r].path.value].Path?
                              && (forall x :: x in objs && x in old(objs) ==> Same(old(objs)[x], objs[x]))
      ensures o == Walked ==> && nerr == |names|
                              && old(Way(cp, names, nomount)).There?
                              && FileAt(objs, r) == old(Way(cp, names, nomount)).spot.file
                              && objs[objs[r].path.value].mtpt == old(Way(cp, names, nomount)).spot.hist
                              && old(objs[cp].path.value in objs && objs[objs[cp].path.value].Path?)
                              && objs[objs[r].path.value].name == AddNames(old(objs[objs[cp].path.value].name), names)
      ensures o == Raised <==> && old(Way(cp, names, nomount)).There?
                               && old(Shared(Space(objs, table, dev, nomount), SpotOf(cp, objs[cp].path.value, None), names))
                               && Uncloned(old(Way(cp, names, nomount)).spot.file)
      ensures o == Raised ==> |leak| == 2 && Balanced(objs, next, E + multiset{cp} + leak)
    {
      hide Balanced, TableOk, PathsOk, DeviceOk, Tabled, Ok, Stable, Shrunk, Kept, AddNames, Out, KindsOf, Opt, Batch, Uncrosses;
      ghost var a := Anchor(objs, next, E + multiset{cp});
      Begin(a, cp, E);
      var c, p, mh: Option<Id> := cp, objs[cp].path.value, None;
      leak, r, nerr := multiset{}, cp, 0;
      ghost var none: multiset<Id> := multiset{};
      ghost var name, way := objs[p].name, Way(cp, names, nomount);
      assert way == Batches(Sp(a, nomount), SpotOf(c, p, mh), names);
      Start(c, p, a);
      assert names[0..] == names;
      var nhave: nat := 0;
      ghost var shared := Shared(Sp(a, nomount), SpotOf(c, p, mh), names);
      assert AddNames(name, names[..0]) == name by { AddNone(name); }
      while nhave < |names|
        invariant nhave <= |names| && At(a, none, c, p, mh)
        invariant objs[p].name == AddNames(name, names[..nhave])
        invariant way == Shift(Batches(Sp(a, nomount), SpotOf(c, p, mh), names[nhave..]), nhave)
        invariant shared == if nhave == |names| then c in a.base else Shared(Sp(a, nomount), SpotOf(c, p, mh), names[nhave..])
        decreases |names| - nhave
      {
        var ok, n;
        ghost var t := SpotOf(c, p, mh);
        ok, n, nerr, c, p, mh := Stage(c, p, mh, names[nhave..], mh.Some?, nomount, a, none);
        if !ok {
          nerr := nhave + nerr;
          Back(a);
          assert way == Nowhere(nerr);
          o := Refused;
          return;
        }
        AddNamesAfter(name, names[..nhave], names[nhave..][..n]);
        assert names[..nhave] + names[nhave..][..n] == names[..nhave + n];
        assert names[nhave..][n..] == names[nhave + n..];
        ShiftTwice(Batches(Sp(a, nomount), SpotOf(c, p, mh), names[nhave + n..]), n, nhave);
        SharedOn(Sp(a, nomount), t, names[nhave..]);
        nhave := nhave + n;
      }
      assert names[..nhave] == names && names[nhave..] == [];
      assert way == There(SpotOf(c, p, mh));
      var done := Arrived(c, p, mh, a);
      if done == None {
        o, leak := Raised, multiset{p} + multiset{c};
        Leaked(a, cp, E, leak);
        return;
      }
      o, r, nerr := Walked, done.value, nhave;
      Exchange(cp, r, p, a, E);
    }

    /** Where walking names from the channel cp leads. */
    ghost function Way(cp: Id, names: seq<string>, nomount: bool): End
      reads this
      requires cp in objs && objs[cp].Chan? && objs[cp].path.Some?
    {
      Batches(Space(objs, table, dev, nomount), SpotOf(cp, objs[cp].path.value, None), names)
    }

    /** And that is where one name at a time leads. */
    lemma WayBySteps(cp: Id, names: seq<string>, nomount: bool)
      requires cp in objs && objs[cp].Chan? && objs[cp].path.Some?
      requires Stepwise(dev) && DirsOk(Space(objs, table, dev, nomount)) && "." !in names
      ensures Way(cp, names, nomount) == Steps(Space(objs, table, dev, nomount), SpotOf(cp, objs[cp].path.value, None), names)
    {
      BatchesAreSteps(Space(objs, table, dev, nomount), SpotOf(cp, objs[cp].path.value, None), names);
    }

    /** A walk to a name in a union: when the names before it lead to t, which the i-th head
        of the table is the first for, the members of the union are asked in the order of
        its list. The walk fails exactly if all refuse, and ends at the file that the first
        which does not refuse leads to. */
    lemma WayIntoUnion(cp: Id, front: seq<string>, name: string, t: Spot, i: nat)
      requires cp in objs && objs[cp].Chan? && objs[cp].path.Some?
      requires Stepwise(dev) && DirsOk(Space(objs, table, dev, false)) && "." !in front && name != "." && name != ".."
      requires Way(cp, front, false) == There(t) && t.file.qid.dir && t.head == None
      requires i < |table| && OnHead(objs, table[i], t.file) && (forall j :: 0 <= j < i ==> !OnHead(objs, table[j], t.file))
      requires objs[table[i]].mount != [] && FileAt(objs, objs[table[i]].mount[0]).qid.dir
      ensures var s, l, e := Space(objs, table, dev, false), objs[table[i]].mount, Way(cp, front + [name], false);
              && (e.Nowhere? <==> AllRefuse(s, l, name)) && (e.Nowhere? ==> e.nerr == |front| + 1)
              && (e.There? ==> LedByFirst(s, l, name, e.spot.file))
    {
      hide Stepwise, DirsOk, Batches, Steps, Step, AllRefuse, LedByFirst, OnHead;
      var s := Space(objs, table, dev, false);
      WayBySteps(cp, front, false);
      WayBySteps(cp, front + [name], false);
      StepsChain(s, SpotOf(cp, objs[cp].path.value, None), front, name);
      StepIntoUnion(s, t, name, i);
    }

    /** A device that clones nothing, and a channel of one of its files: a walk without
        names gets there and then raises, with two references left over. */
    static method WalkRaises() returns (o: Outcome, ghost leak: multiset<Id>)
      ensures o == Raised && |leak| == 2
    {
      var root := Path(1, Name("/", []), [None]);
      var objs := map[0 := root, 1 := Chan(1, 0, 0, Qid(0, true), Some(0), None)];
      var n := new Namespace(objs, 2, [], (_, _, _, _) => None);
      AloneBalanced(objs);
      ghost var e: multiset<Id> := multiset{};
      assert e + multiset{1} == multiset{1};
      var r, nerr;
      o, r, nerr, leak := n.Walk(1, [], false, e);
    }

    lemma Begin(a: Anchor, cp: Id, E: multiset<Id>)
      requires Balanced(objs, next, E + multiset{cp}) && TableOk(objs, table, E + multiset{cp}) && Tabled(table, E) && PathsOk(objs)
      requires a == Anchor(objs, next, E + multiset{cp}) && cp in objs && objs[cp].Chan? && objs[cp].path.Some?
      ensures Ok(a, multiset{}) && objs[cp].path.value in objs && objs[objs[cp].path.value].Path?
    {
      assert a.ext + multiset{} == a.ext;
      assert KindsOf(objs, objs[cp]);
    }

    /** A walk begins with references to the channel and its path. */
    method Start(c: Id, p: Id, ghost a: Anchor)
      requires Ok(a, multiset{}) && c in objs && objs[c].Chan? && p in objs && objs[p].Path?
      modifies `objs
      ensures At(a, multiset{}, c, p, None) && objs[p].name == old(objs)[p].name && SpotOf(c, p, None) == old(SpotOf(c, p, None))
    {
      hide Ok, Shrunk, Opt;
      ghost var none: multiset<Id> := multiset{};
      NoOpt();
      Hold(p, a, none);
      ghost var v := objs;
      Hold(c, a, none + multiset{p});
      ShrunkOn(old(objs), v, objs);
      SameAs(old(objs), objs, p);
      SameAs(old(objs), objs, c);
      assert none + multiset{p} + multiset{c} == none + multiset{p} + multiset{c} + Opt(None);
    }

    lemma Back(a: Anchor)
      requires Ok(a, multiset{})
      ensures objs == a.base
    {
      assert a.ext + multiset{} == a.ext;
      Restored(a, objs, next);
    }

    lemma Leaked(a: Anchor, cp: Id, E: multiset<Id>, leak: multiset<Id>)
      requires Ok(a, leak) && a.ext == E + multiset{cp}
      ensures Balanced(objs, next, E + multiset{cp} + leak)
    {}

    /** The end of a walk: the channel, made its own, gets the path that was built. */
    method Arrived(c: Id, p: Id, mh: Option<Id>, ghost a: Anchor) returns (r: Option<Id>)
      requires At(a, multiset{}, c, p, mh) && DeviceOk(dev)
      modifies `objs, `next
      ensures r == None <==> c in a.base && old(Uncloned(FileAt(objs, c)))
      ensures r == None ==> Ok(a, multiset{p} + multiset{c})
      ensures r.Some? ==> && Ctx(a, multiset{r.value}) && PathsOk(objs) && Tabled(table, a.ext)
                          && r.value in objs && r.value !in a.base && objs[r.value].Chan? && objs[r.value].path == Some(p)
                          && p in objs && objs[p].Path? && objs[p].name == old(objs)[p].name
                          && SpotOf(r.value, p, None) == old(SpotOf(c, p, None))
    {
      hide Ok, Shrunk, Opt, DeviceOk, Heap, PathsOk, Kept;
      ghost var h := multiset{p} + multiset{c};
      assert multiset{} + multiset{p} + multiset{c} + Opt(mh) == h + Opt(mh);
      DropOpt(mh, a, h);
      ghost var v := objs;
      OkHas(a, h, p);
      OkHas(a, h, c);
      SameAs(old(objs), v, p);
      SameAs(old(objs), v, c);
      NewAlone(a, multiset{p}, c);
      r := Cunique(c, a, multiset{p});
      if r.Some? {
        OkHas(a, multiset{p} + multiset{r.value}, p);
        KeptAt(v, objs, p);
        Install(r.value, p, a);
      }
    }

    /** The caller's reference moves from cp to the new channel. */
    method Exchange(cp: Id, r: Id, p: Id, ghost a: Anchor, ghost E: multiset<Id>)
      requires Ctx(a, multiset{r}) && a.ext == E + multiset{cp} && PathsOk(objs) && Tabled(table, E)
      requires r in objs && r !in a.base && objs[r].Chan? && objs[r].path == Some(p) && p in objs && objs[p].Path?
      modifies `objs
      ensures Balanced(objs, next, E + multiset{r}) && TableOk(objs, table, E + multiset{r}) && PathsOk(objs)
      ensures r in objs && objs[r].Chan? && objs[r].path == Some(p)
      ensures p in objs && objs[p].Path? && objs[p].name == old(objs)[p].name && SpotOf(r, p, None) == old(SpotOf(r, p, None))
      ensures forall x :: x in objs && x in a.base ==> Same(a.base[x], objs[x])
    {
      hide Balanced, TableOk, PathsOk, Shrunk;
      ghost var bare, e, u := Anchor(map[], 0, multiset{}), E + multiset{r}, objs;
      Reanchor(a, bare, cp, r, E);
      TabledMore(E, bare.ext + e);
      Close(cp, bare, e);
      assert bare.ext + e == e;
      ShrunkOk(u, objs, map[]);
      CtxHas(bare, e, r);
      SameAs(u, objs, r);
      CtxPath(bare, e, r);
      SameAs(u, objs, p);
      forall x | x in objs && x in a.base ensures Same(a.base[x], objs[x]) {
        SameAs(u, objs, x);
      }
    }

    lemma Reanchor(a: Anchor, bare: Anchor, cp: Id, r: Id, E: multiset<Id>)
      requires Ctx(a, multiset{r}) && a.ext == E + multiset{cp} && bare == Anchor(map[], 0, multiset{})
      ensures Ctx(bare, E + multiset{r} + multiset{cp})
    {
      assert a.ext + multiset{r} == bare.ext + (E + multiset{r} + multiset{cp});
    }
  }

  /** What is in both has not changed but for counts. */
  predicate Kept(u: Objs, v: Objs) {
    forall x :: x in u && x in v ==> Same(u[x], v[x])
  }

  lemma KeptSelf(u: Objs)
    ensures Kept(u, u)
  {}

  lemma KeptShrunk(u: Objs, v: Objs, w: Objs)
    requires Kept(u, v) && Shrunk(v, w)
    ensures Kept(u, w)
  {}

  lemma KeptAt(u: Objs, v: Objs, x: Id)
    requires Kept(u, v) && x in u && x in v
    ensures Same(u[x], v[x])
  {}

  lemma AloneBalanced(objs: Objs)
    requires objs == map[0 := Path(1, Name("/", []), [None]), 1 := Chan(1, 0, 0, Qid(0, true), Some(0), None)]
    ensures Balanced(objs, 2, multiset{1})
  {
    var m: seq<Option<Id>> := [None];
    assert Slots(m) == multiset{} by { assert m[..0] == []; }
    forall x | x in objs ensures objs[x].ref == multiset{1}[x] + Links(objs, 2, x) {
      assert Links(objs, 2, x) == Links(objs, 1, x) + Out(objs[1])[x];
      assert Links(objs, 1, x) == Links(objs, 0, x) + Out(objs[0])[x];
    }
  }

  datatype Outcome = Walked | Refused | Raised

  /** A channel as newchan makes it. */
  predicate Bare(o: Obj) { o.Chan? && o.path == None && o.umh == None }

  /** A name with several elements added one by one. */
  function AddNames(n: Name, names: seq<string>): Name {
    if names == [] then n else AddName(AddNames(n, names[..|names| - 1]), names[|names| - 1])
  }

  lemma AddNone(n: Name)
    ensures AddNames(n, []) == n
  {}

  lemma AddNamesOn(n: Name, names: seq<string>, i: nat)
    requires i < |names|
    ensures AddNames(n, names[..i + 1]) == AddName(AddNames(n, names[..i]), names[i])
  {
    assert names[..i + 1][..i] == names[..i];
  }

  lemma {:induction false} AddNamesAfter(n: Name, xs: seq<string>, ys: seq<string>)
    ensures AddNames(n, xs + ys) == AddNames(AddNames(n, xs), ys)
  {
    if ys == [] {
      assert xs + ys == xs;
    } else {
      var k := |ys| - 1;
      AddNamesAfter(n, xs, ys[..k]);
      assert (xs + ys)[..|xs + ys| - 1] == xs + ys[..k];
    }
  }

  function Last(objs: Objs, p: Id): Option<Id>
    requires p in objs && objs[p].Path?
  {
    var m := objs[p].mtpt;
    if m == [] then None else m[|m| - 1]
  }

  /** The channels of a history are there, and were there before. */
  predicate SlotsOk(base: Objs, objs: Objs, m: seq<Option<Id>>) {
    forall i :: 0 <= i < |m| && m[i].Some? ==> m[i].value in objs && m[i].value in base && objs[m[i].value].Chan?
  }

  /** From u to v objects come and go, counts and paths change, and nothing else. */
  predicate Stable(u: Objs, nu: Id, v: Objs) {
    && (forall x :: x in u && x in v ==> if u[x].Path? then v[x].Path? else Same(u[x], v[x]))
    && (forall x :: x in v ==> x in u || x >= nu)
  }

  predicate Older(u: Objs, nu: Id) { forall x :: x in u ==> x < nu }

  lemma StableTrans(u: Objs, nu: Id, v: Objs, nv: Id, w: Objs)
    requires Stable(u, nu, v) && Stable(v, nv, w) && nu <= nv && Older(u, nu)
    ensures Stable(u, nu, w)
  {}

  lemma StableShrunk(u: Objs, nu: Id, v: Objs)
    requires Shrunk(u, v)
    ensures Stable(u, nu, v)
  {}

  lemma StableCopy(u: Objs, nu: Id, v: Objs, w: Objs, r: Id)
    requires r !in u && r >= nu && Shrunk(u, v - {r}) && Shrunk(v, w) && u.Keys + {r} == v.Keys
    ensures Stable(u, nu, w)
  {}

  lemma StablePut(u: Objs, nu: Id, p: Id, o: Obj)
    requires p in u && u[p].Path? && o.Path?
    ensures Stable(u, nu, u[p := o])
  {}

  lemma StableNew(u: Objs, nu: Id, v: Objs, c: Id)
    requires v.Keys == u.Keys + {c} && c >= nu && forall x :: x in u ==> v[x] == u[x]
    ensures Stable(u, nu, v)
  {}

  /** What only one local reference holds is new. */
  lemma SoleHolder(objs: Objs, next: Id, table: seq<Id>, a: Anchor, held: multiset<Id>, x: Id)
    requires Heap(objs, next, table, a, held + multiset{x}) && x in objs && objs[x].ref <= 1
    ensures x !in a.base
  {
    if x in a.base {
      AnchoredRef(a, objs, next, held + multiset{x}, x);
    }
  }

  lemma SlotKinds(base: Objs, objs: Objs, o: Obj)
    requires o.Path? && SlotsOk(base, objs, o.mtpt)
    ensures KindsOf(objs, o) && forall y :: y in Out(o) ==> y in base
  {
    forall y | y in Out(o) ensures y in base {
      SlotsIn(o.mtpt, y);
    }
  }

  lemma SlotsBack(m: seq<Option<Id>>, i: nat)
    requires i < |m|
    ensures Slots(m[..i + 1]) == Slots(m[..i]) + Opt(m[i])
  {
    assert m[..i + 1][..i] == m[..i];
  }

  lemma OutIs(o: Obj)
    requires o.Path?
    ensures Out(o) == Slots(o.mtpt)
  {}

  lemma SlotThere(objs: Objs, next: Id, table: seq<Id>, a: Anchor, held: multiset<Id>, p: Id, i: nat)
    requires Heap(objs, next, table, a, held) && p in objs && objs[p].Path? && i < |objs[p].mtpt| && objs[p].mtpt[i].Some?
    ensures objs[p].mtpt[i].value in objs && objs[objs[p].mtpt[i].value].Chan?
  {
    assert KindsOf(objs, objs[p]);
  }

  lemma CopyKinds(objs: Objs, next: Id, table: seq<Id>, a: Anchor, held: multiset<Id>, p: Id, o: Obj)
    requires Heap(objs, next, table, a, held) && p in objs && objs[p].Path? && o.Path? && o.mtpt == objs[p].mtpt
    ensures KindsOf(objs, o)
  {
    assert KindsOf(objs, objs[p]);
  }

  /** Everything refers to what was there before. */
  lemma AllOutInBase(a: Anchor, objs: Objs, next: Id, x: Id)
    requires Anchored(a, objs, next) && News(a.base, objs) && x in objs
    ensures forall y :: y in Out(objs[x]) ==> y in a.base
  {
    hide KindsOf, Out;
    if x in a.base {
      SameOut(a.base[x], objs[x]);
      forall y | y in Out(a.base[x]) ensures y in a.base {
        OutIn(a.base, a.base[x], y);
      }
    }
  }

  /** A copy of a path is as new as it should be. */
  lemma CopyNews(objs: Objs, next: Id, table: seq<Id>, a: Anchor, held: multiset<Id>, p: Id, o: Obj)
    requires Heap(objs, next, table, a, held) && News(a.base, objs) && PathsOk(objs)
    requires p in objs && objs[p].Path? && o.Path? && o.mtpt == objs[p].mtpt && o.name == objs[p].name
    ensures News(a.base, objs[next := o]) && PathsOk(objs[next := o])
  {
    hide KindsOf, Links, TableOk, Balanced;
    AllOutInBase(a, objs, next, p);
    assert Out(o) == Out(objs[p]);
  }

  lemma AddHeap(objs: Objs, next: Id, table: seq<Id>, a: Anchor, held: multiset<Id>, o: Obj)
    requires Heap(objs, next, table, a, held + Out(o)) && o.ref == 1 && KindsOf(objs, o) && !o.Mhead?
    requires Tabled(table, a.ext + held)
    ensures next !in objs && Heap(objs[next := o], next + 1, table, a, held + multiset{next}) && next !in a.base
  {
    hide Balanced, KindsOf, Out;
    assert a.ext + (held + Out(o)) == a.ext + held + Out(o);
    assert a.ext + (held + multiset{next}) == a.ext + held + multiset{next};
    Add(objs, next, a.ext + held, o);
  }
}
