/**
 Mount tables as values (cmount and cunmount of kern/chan.c, pgrpcpy of kern/pgrp.c).
 Every file mounted upon has a head with the list of what is mounted there, and every
 entry has the number of its mount.
 */
module MountSpec {
  import opened Bytes

  const MREPL: nat := 0
  const MBEFORE: nat := 1
  const MAFTER: nat := 2
  const MCREATE: nat := 4

  function Order(flag: nat): nat { flag % 4 }

  predicate Creatable(flag: nat) { flag / MCREATE % 2 == 1 }

  /** mchan is the channel a mount device speaks through. */
  datatype Chan = Chan(ty: nat, dev: nat, path: nat, dir: bool, mchan: Option<Chan>)

  datatype Key = Key(ty: nat, dev: nat, path: nat)

  function KeyOf(c: Chan): Key { Key(c.ty, c.dev, c.path) }

  /** eqchan without the version. */
  predicate Eqchan(a: Chan, b: Chan) { a.path == b.path && a.ty == b.ty && a.dev == b.dev }

  datatype Mnt = Mnt(id: nat, to: Chan, flag: nat, spec: Option<string>)

  datatype Head = Head(from: Chan, list: seq<Mnt>)

  type Table = map<Key, Head>

  /** The mount table, and the last number given to a mount. */
  datatype Ns = Ns(table: Table, last: nat)

  datatype Done = Mounted(id: nat) | Unmounted | Emount | Eunmount | Eunion

  /** The members of a union, mounted anew; the first of them gets number id. */
  function Copies(l: seq<Mnt>, flag: nat, id: nat): seq<Mnt> {
    if l == [] then [] else [Mnt(id, l[0].to, flag, l[0].spec)] + Copies(l[1..], flag, id + 1)
  }

  /** What is mounted, with the rest of the union umh if it is the first of one. */
  function Brought(umh: seq<Mnt>, c: Chan, flag: nat, spec: Option<string>, id: nat): seq<Mnt> {
    [Mnt(id, c, flag, spec)]
    + if umh == [] then [] else Copies(umh[1..], if Order(flag) == MREPL then MAFTER else Order(flag), id + 1)
  }

  function Joined(list: seq<Mnt>, l: seq<Mnt>, flag: nat): seq<Mnt> {
    if Order(flag) == MREPL then l else if Order(flag) == MAFTER then list + l else l + list
  }

  predicate Mountable(c: Chan, from: Chan, flag: nat, umh: seq<Mnt>) {
    && c.dir == from.dir && (!from.dir ==> Order(flag) == MREPL)
    && !(Creatable(flag) && umh != [] && (|umh| > 1 || !Creatable(umh[0].flag)))
  }

  /** The list before the mount: a file not mounted upon joins its own union. */
  function Under(s: Ns, from: Chan, flag: nat): (Head, nat) {
    var k := KeyOf(from);
    if k in s.table then (s.table[k], s.last)
    else if Order(flag) == MREPL then (Head(from, []), s.last)
    else (Head(from, [Mnt(s.last + 1, from, 0, None)]), s.last + 1)
  }

  function Cmount(s: Ns, c: Chan, from: Chan, flag: nat, spec: Option<string>, umh: seq<Mnt>): (Ns, Done) {
    if !Mountable(c, from, flag, umh) then (s, Emount)
    else
      var (h, last) := Under(s, from, flag);
      var l := Brought(umh, c, flag, spec, last + 1);
      (Ns(s.table[KeyOf(from) := h.(list := Joined(h.list, l, flag))], last + |l|), Mounted(last + 1))
  }

  predicate Is(m: Mnt, c: Chan) { Eqchan(m.to, c) || (m.to.mchan.Some? && Eqchan(m.to.mchan.value, c)) }

  /** The first entry for c, or the length. */
  function Find(l: seq<Mnt>, c: Chan): (n: nat)
    ensures n <= |l| && (n < |l| ==> Is(l[n], c)) && forall i :: 0 <= i < n ==> !Is(l[i], c)
  {
    if l == [] || Is(l[0], c) then 0 else 1 + Find(l[1..], c)
  }

  function Cunmount(s: Ns, mnt: Chan, mounted: Option<Chan>): (Ns, Done) {
    var k := KeyOf(mnt);
    if k !in s.table then (s, Eunmount)
    else if mounted == None then (s.(table := s.table - {k}), Unmounted)
    else
      var l := s.table[k].list;
      var n := Find(l, mounted.value);
      if n == |l| then (s, Eunion)
      else if |l| == 1 then (s.(table := s.table - {k}), Unmounted)
      else (s.(table := s.table[k := s.table[k].(list := l[..n] + l[n + 1..])]), Unmounted)
  }

  // ---- What every table keeps ----

  /** Which files are directories. */
  type Kinds = Key -> bool

  /** Every head is under its own key and has something mounted, directories on a
      directory and files on a file; no two entries have the same number. */
  ghost predicate TableOk(s: Ns, kind: Kinds) {
    && (forall k :: k in s.table ==> HeadOk(s.table[k], k, kind))
    && (forall k, i :: k in s.table && 0 <= i < |s.table[k].list| ==> EntryOk(s, s.table[k], s.table[k].list[i]))
    && Distinct(s.table)
  }

  predicate HeadOk(h: Head, k: Key, kind: Kinds) { KeyOf(h.from) == k && h.list != [] && h.from.dir == kind(k) }

  predicate EntryOk(s: Ns, h: Head, m: Mnt) { m.id <= s.last && m.to.dir == h.from.dir }

  ghost predicate Distinct(t: Table) {
    forall k, i, l, j :: k in t && 0 <= i < |t[k].list| && l in t && 0 <= j < |t[l].list| && t[k].list[i].id == t[l].list[j].id
                         ==> k == l && i == j
  }

  datatype Op =
    | Mount(c: Chan, from: Chan, flag: nat, spec: Option<string>, umh: seq<Mnt>)
    | Unmount(from: Chan, mounted: Option<Chan>)

  /** A channel that stands for a union is of the kind of its members. */
  predicate OpOk(o: Op, kind: Kinds) {
    o.Mount? ==> o.from.dir == kind(KeyOf(o.from)) && forall i :: 0 <= i < |o.umh| ==> o.umh[i].to.dir == o.c.dir
  }

  function Apply(s: Ns, o: Op): Ns {
    match o
    case Mount(c, from, flag, spec, umh) => Cmount(s, c, from, flag, spec, umh).0
    case Unmount(from, mounted) => Cunmount(s, from, mounted).0
  }

  function Run(s: Ns, ops: seq<Op>): Ns
    decreases |ops|
  {
    if ops == [] then s else Run(Apply(s, ops[0]), ops[1..])
  }

  lemma {:induction false} CopiesAt(l: seq<Mnt>, flag: nat, id: nat)
    ensures |Copies(l, flag, id)| == |l|
    ensures forall i :: 0 <= i < |l| ==> Copies(l, flag, id)[i] == Mnt(id + i, l[i].to, flag, l[i].spec)
  {
    if l != [] {
      CopiesAt(l[1..], flag, id + 1);
    }
  }

  lemma CopiesOnce(l: seq<Mnt>, flag: nat, id: nat)
    ensures Copies(l, flag, id) == if l == [] then [] else [Mnt(id, l[0].to, flag, l[0].spec)] + Copies(l[1..], flag, id + 1)
  {}

  lemma BroughtAt(umh: seq<Mnt>, c: Chan, flag: nat, spec: Option<string>, id: nat)
    ensures var l := Brought(umh, c, flag, spec, id);
            && |l| == (if umh == [] then 1 else |umh|) && l[0] == Mnt(id, c, flag, spec)
            && forall i :: 0 <= i < |l| ==> l[i].id == id + i && (i > 0 ==> l[i].to == umh[i].to && l[i].spec == umh[i].spec)
  {
    if umh != [] {
      CopiesAt(umh[1..], if Order(flag) == MREPL then MAFTER else Order(flag), id + 1);
    }
  }

  /** Replacing the list of one head, by old entries of it and entries with new numbers. */
  lemma PutKeeps(s: Ns, kind: Kinds, k: Key, h: Head, last: nat)
    requires TableOk(s, kind) && s.last <= last && HeadOk(h, k, kind)
    requires forall i :: 0 <= i < |h.list| ==> EntryOk(Ns(s.table, last), h, h.list[i])
    requires forall i, j :: 0 <= i < j < |h.list| ==> h.list[i].id != h.list[j].id
    requires forall i :: 0 <= i < |h.list| ==> h.list[i].id > s.last || (k in s.table && h.list[i] in s.table[k].list)
    ensures TableOk(Ns(s.table[k := h], last), kind)
  {
    var t := s.table[k := h];
    forall l, i | l in t && 0 <= i < |t[l].list| ensures EntryOk(Ns(t, last), t[l], t[l].list[i]) {
      if l != k {
        assert EntryOk(s, s.table[l], s.table[l].list[i]);
      } else {
        assert EntryOk(Ns(s.table, last), h, h.list[i]);
      }
    }
    forall l, i | l in s.table && l != k && 0 <= i < |s.table[l].list|
      ensures forall j :: 0 <= j < |h.list| ==> h.list[j].id != s.table[l].list[i].id
    {
      assert EntryOk(s, s.table[l], s.table[l].list[i]);
      forall j | 0 <= j < |h.list| ensures h.list[j].id != s.table[l].list[i].id {
        if h.list[j].id <= s.last {
          var n :| 0 <= n < |s.table[k].list| && s.table[k].list[n] == h.list[j];
        }
      }
    }
  }

  lemma MountKeeps(s: Ns, kind: Kinds, c: Chan, from: Chan, flag: nat, spec: Option<string>, umh: seq<Mnt>)
    requires TableOk(s, kind) && OpOk(Mount(c, from, flag, spec, umh), kind)
    ensures TableOk(Cmount(s, c, from, flag, spec, umh).0, kind)
  {
    hide TableOk, EntryOk, Joined, Brought, Mountable;
    if Mountable(c, from, flag, umh) {
      var k := KeyOf(from);
      var (h, last) := Under(s, from, flag);
      var l := Brought(umh, c, flag, spec, last + 1);
      UnderOk(s, kind, from, flag);
      BroughtOk(s, umh, c, from, flag, spec, last);
      JoinedOk(s, h, l, flag, last);
      PutKeeps(s, kind, k, h.(list := Joined(h.list, l, flag)), last + |l|);
    }
  }

  lemma UnderOk(s: Ns, kind: Kinds, from: Chan, flag: nat)
    requires TableOk(s, kind) && from.dir == kind(KeyOf(from))
    ensures var k := KeyOf(from);
            var (h, last) := Under(s, from, flag);
            && KeyOf(h.from) == k && h.from.dir == kind(k) && s.last <= last
            && (forall i :: 0 <= i < |h.list| ==> EntryOk(Ns(s.table, last), h, h.list[i]) &&
                                                  (h.list[i].id > s.last || (k in s.table && h.list[i] in s.table[k].list)))
            && (forall i, j :: 0 <= i < j < |h.list| ==> h.list[i].id != h.list[j].id)
  {
    var k := KeyOf(from);
    if k in s.table {
      assert HeadOk(s.table[k], k, kind);
      forall i | 0 <= i < |s.table[k].list| ensures EntryOk(s, s.table[k], s.table[k].list[i]) {}
    }
  }

  lemma BroughtOk(s: Ns, umh: seq<Mnt>, c: Chan, from: Chan, flag: nat, spec: Option<string>, last: nat)
    requires Mountable(c, from, flag, umh) && forall i :: 0 <= i < |umh| ==> umh[i].to.dir == c.dir
    ensures var l := Brought(umh, c, flag, spec, last + 1);
            l != [] && forall i :: 0 <= i < |l| ==> l[i].id == last + 1 + i && l[i].to.dir == from.dir
  {
    BroughtAt(umh, c, flag, spec, last + 1);
  }

  lemma JoinedOk(s: Ns, h: Head, l: seq<Mnt>, flag: nat, last: nat)
    requires forall i :: 0 <= i < |h.list| ==> EntryOk(Ns(s.table, last), h, h.list[i])
    requires forall i, j :: 0 <= i < j < |h.list| ==> h.list[i].id != h.list[j].id
    requires l != [] && forall i :: 0 <= i < |l| ==> l[i].id == last + 1 + i && l[i].to.dir == h.from.dir
    ensures var m := Joined(h.list, l, flag);
            && m != [] && (forall i :: 0 <= i < |m| ==> EntryOk(Ns(s.table, last + |l|), h.(list := m), m[i]) &&
                                                        (m[i] in h.list || m[i].id > last))
            && (forall i, j :: 0 <= i < j < |m| ==> m[i].id != m[j].id)
  {
    forall i | 0 <= i < |h.list| ensures h.list[i].id <= last {
      assert EntryOk(Ns(s.table, last), h, h.list[i]);
    }
  }

  lemma {:induction false} UnmountKeeps(s: Ns, kind: Kinds, mnt: Chan, mounted: Option<Chan>)
    requires TableOk(s, kind)
    ensures TableOk(Cunmount(s, mnt, mounted).0, kind)
  {
    var k := KeyOf(mnt);
    if k in s.table && mounted.Some? && |s.table[k].list| > 1 && Find(s.table[k].list, mounted.value) < |s.table[k].list| {
      var l, n := s.table[k].list, Find(s.table[k].list, mounted.value);
      var m := l[..n] + l[n + 1..];
      forall i | 0 <= i < |m| ensures m[i] == l[if i < n then i else i + 1] && EntryOk(s, s.table[k], m[i]) && m[i] in l {
        assert EntryOk(s, s.table[k], l[if i < n then i else i + 1]);
      }
      assert HeadOk(s.table[k], k, kind);
      PutKeeps(s, kind, k, s.table[k].(list := m), s.last);
    }
  }

  /** Over every run of mounts and unmounts no head is ever empty. */
  lemma {:induction false} RunKeepsTable(s: Ns, kind: Kinds, ops: seq<Op>)
    requires TableOk(s, kind) && forall o :: o in ops ==> OpOk(o, kind)
    ensures TableOk(Run(s, ops), kind)
    decreases |ops|
  {
    if ops != [] {
      assert OpOk(ops[0], kind);
      match ops[0] {
        case Mount(c, from, flag, spec, umh) => MountKeeps(s, kind, c, from, flag, spec, umh);
        case Unmount(from, mounted) => UnmountKeeps(s, kind, from, mounted);
      }
      RunKeepsTable(Apply(s, ops[0]), kind, ops[1..]);
    }
  }

  // ---- What one call undoes ----

  /** Unmounting what was just mounted, by itself and in a union, gives the old list back
      exactly when it is not found at an earlier place of the list. A file that was not
      mounted upon before stays in a union by itself. */
  lemma UnmountUndoes(s: Ns, c: Chan, from: Chan, flag: nat, spec: Option<string>, umh: seq<Mnt>)
    requires Mountable(c, from, flag, umh) && |umh| <= 1 && Order(flag) in {MBEFORE, MAFTER}
    requires KeyOf(from) in s.table ==> forall i :: 0 <= i < |s.table[KeyOf(from)].list| ==>
        s.table[KeyOf(from)].list[i].id <= s.last
    requires KeyOf(from) in s.table ==> s.table[KeyOf(from)].list != []
    ensures var u := Under(s, from, flag).0;
            Cunmount(Cmount(s, c, from, flag, spec, umh).0, from, Some(c)).0.table == s.table[KeyOf(from) := u]
            <==> Order(flag) == MBEFORE || forall i :: 0 <= i < |u.list| ==> !Is(u.list[i], c)
  {
    hide Joined, Find, Is, Mountable;
    var k, u, last := KeyOf(from), Under(s, from, flag).0, Under(s, from, flag).1;
    var x := Mnt(last + 1, c, flag, spec);
    var m := Joined(u.list, [x], flag);
    MountedAlone(s, c, from, flag, spec, umh);
    JoinedUndone(u.list, x, c, flag);
    var n := Find(m, c);
    UnmountedAt(Ns(s.table[k := u.(list := m)], last + 1), from, c, n);
    PutBoth(s.table, k, u, m, m[..n] + m[n + 1..]);
  }

  lemma MountedAlone(s: Ns, c: Chan, from: Chan, flag: nat, spec: Option<string>, umh: seq<Mnt>)
    requires Mountable(c, from, flag, umh) && |umh| <= 1
    ensures var (u, last) := Under(s, from, flag);
            Cmount(s, c, from, flag, spec, umh).0
            == Ns(s.table[KeyOf(from) := u.(list := Joined(u.list, [Mnt(last + 1, c, flag, spec)], flag))], last + 1)
    ensures Eqchan(c, c) && forall m: Mnt :: m.to == c ==> Is(m, c)
  {
    assert Brought(umh, c, flag, spec, Under(s, from, flag).1 + 1) == [Mnt(Under(s, from, flag).1 + 1, c, flag, spec)];
  }

  lemma UnmountedAt(s: Ns, from: Chan, c: Chan, n: nat)
    requires KeyOf(from) in s.table && |s.table[KeyOf(from)].list| > 1
    requires n == Find(s.table[KeyOf(from)].list, c) < |s.table[KeyOf(from)].list|
    ensures var h := s.table[KeyOf(from)];
            Cunmount(s, from, Some(c)).0.table == s.table[KeyOf(from) := h.(list := h.list[..n] + h.list[n + 1..])]
  {}

  lemma PutTwice(t: Table, k: Key, u: Head, v: Head)
    ensures t[k := u][k] == u && t[k := u][k := v] == t[k := v]
  {}

  lemma PutBoth(t: Table, k: Key, u: Head, m: seq<Mnt>, r: seq<Mnt>)
    ensures t[k := u.(list := m)][k := u.(list := r)] == t[k := u] <==> r == u.list
  {
    assert t[k := u.(list := m)][k := u.(list := r)][k] == u.(list := r) && t[k := u][k] == u;
    if r == u.list {
      assert u.(list := r) == u;
      assert t[k := u.(list := m)][k := u] == t[k := u];
    }
  }

  lemma JoinedUndone(l: seq<Mnt>, x: Mnt, c: Chan, flag: nat)
    requires Order(flag) in {MBEFORE, MAFTER} && Is(x, c) && forall i :: 0 <= i < |l| ==> l[i] != x
    ensures var m := Joined(l, [x], flag);
            var n := Find(m, c);
            |m| == |l| + 1 && n < |m| && (m[..n] + m[n + 1..] == l <==>
                Order(flag) == MBEFORE || forall i :: 0 <= i < |l| ==> !Is(l[i], c))
  {
    var m := Joined(l, [x], flag);
    var n := Find(m, c);
    assert m[if Order(flag) == MBEFORE then 0 else |l|] == x;
    var r := m[..n] + m[n + 1..];
    if Order(flag) == MBEFORE {
      assert m[1..] == l && m[0] == x && n == 0;
      assert r == l;
    } else {
      assert m[|l|] == x && forall i :: 0 <= i < |l| ==> m[i] == l[i];
      if n == |l| {
        assert r == l;
      } else {
        assert r[|r| - 1] == x && Is(l[n], c);
      }
    }
  }

  /** A mount that replaces, and its unmount, leave no mount point. */
  lemma ReplaceUndone(s: Ns, c: Chan, from: Chan, flag: nat, spec: Option<string>, umh: seq<Mnt>)
    requires Mountable(c, from, flag, umh) && |umh| <= 1 && Order(flag) == MREPL
    ensures Cunmount(Cmount(s, c, from, flag, spec, umh).0, from, Some(c)).0.table == s.table - {KeyOf(from)}
  {
    var x := Mnt(Under(s, from, flag).1 + 1, c, flag, spec);
    assert Brought(umh, c, flag, spec, x.id) == [x] && Is(x, c);
    assert Find([x], c) == 0;
  }

  // ---- Copies of a table ----

  /** An entry but for its number. */
  predicate Like(m: Mnt, n: Mnt) { m.(id := n.id) == n }

  predicate LikeAll(l: seq<Mnt>, m: seq<Mnt>) {
    |l| == |m| && forall i :: 0 <= i < |l| ==> Like(l[i], m[i])
  }

  /** u is t but for the numbers, and they are in the same order. */
  ghost predicate Copied(t: Table, u: Table) {
    && u.Keys == t.Keys
    && (forall k :: k in t ==> u[k].from == t[k].from && LikeAll(t[k].list, u[k].list))
    && (forall k, i, l, j :: k in t && 0 <= i < |t[k].list| && l in t && 0 <= j < |t[l].list| ==>
          (t[k].list[i].id < t[l].list[j].id <==> u[k].list[i].id < u[l].list[j].id))
  }

  lemma CopyKeeps(s: Ns, kind: Kinds, r: Ns)
    requires TableOk(s, kind) && Copied(s.table, r.table)
    requires forall k, i :: k in r.table && 0 <= i < |r.table[k].list| ==> r.table[k].list[i].id <= r.last
    ensures TableOk(r, kind)
  {
    forall k | k in r.table ensures HeadOk(r.table[k], k, kind) {
      assert HeadOk(s.table[k], k, kind);
    }
    forall k, i | k in r.table && 0 <= i < |r.table[k].list| ensures EntryOk(r, r.table[k], r.table[k].list[i]) {
      assert EntryOk(s, s.table[k], s.table[k].list[i]) && Like(s.table[k].list[i], r.table[k].list[i]);
    }
    forall k, i, l, j | k in r.table && 0 <= i < |r.table[k].list| && l in r.table && 0 <= j < |r.table[l].list|
                        && r.table[k].list[i].id == r.table[l].list[j].id
      ensures k == l && i == j
    {
      assert s.table[k].list[i].id == s.table[l].list[j].id;
    }
  }
}
