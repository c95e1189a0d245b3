/**
 What mounting and unmounting do to a table, place by place: which file, which entry of
 its list, and what is left alone (cmount and cunmount of kern/chan.c).
 */
module MountLaws {
  import opened Bytes
  import opened MountSpec

  /** The same file, but perhaps another version of it. */
  predicate SameFile(a: Chan, b: Chan) { a.ty == b.ty && a.dev == b.dev && a.path == b.path }

  /** The entry is for c, or speaks through it. */
  predicate For(m: Mnt, c: Chan) { SameFile(m.to, c) || (m.to.mchan.Some? && SameFile(m.to.mchan.value, c)) }

  /** Nothing differs but at k. */
  ghost predicate Elsewhere(t: Table, u: Table, k: Key) {
    forall j :: j != k ==> (j in t <==> j in u) && (j in t ==> u[j] == t[j])
  }

  /** Unmounting everything leaves nothing mounted on the file, and all other files alone. */
  lemma UnmountAll(s: Ns, mnt: Chan)
    ensures var k := Key(mnt.ty, mnt.dev, mnt.path);
            var (t, d) := Cunmount(s, mnt, None);
            && (d == Eunmount <==> k !in s.table) && (d == Unmounted <==> k in s.table)
            && k !in t.table && Elsewhere(s.table, t.table, k) && t.last == s.last
  {}

  /** m is l without its n-th entry. */
  predicate Without(l: seq<Mnt>, m: seq<Mnt>, n: nat) {
    && n < |l| && |m| == |l| - 1
    && (forall i :: 0 <= i < n ==> m[i] == l[i]) && forall i :: n < i < |l| ==> m[i - 1] == l[i]
  }

  /** Unmounting one channel takes out the first entry for it, and the mount point with the
      last entry; it fails, and changes nothing, exactly if the file is not mounted upon or
      none of its entries is for the channel. */
  lemma UnmountOne(s: Ns, mnt: Chan, c: Chan)
    ensures var k := Key(mnt.ty, mnt.dev, mnt.path);
            var (t, d) := Cunmount(s, mnt, Some(c));
            var l := if k in s.table then s.table[k].list else [];
            && (d == Eunmount <==> k !in s.table)
            && (d == Eunion <==> k in s.table && forall i :: 0 <= i < |l| ==> !For(l[i], c))
            && (d == Unmounted || t == s) && (d == Eunmount || d == Eunion || d == Unmounted)
            && Elsewhere(s.table, t.table, k) && t.last == s.last
            && (d == Unmounted ==>
                  exists n :: 0 <= n < |l| && For(l[n], c) && (forall i :: 0 <= i < n ==> !For(l[i], c))
                              && if |l| == 1 then k !in t.table
                                 else k in t.table && t.table[k].from == s.table[k].from && Without(l, t.table[k].list, n))
  {
    hide Find, Is, For, Without;
    var k := KeyOf(mnt);
    if k in s.table {
      var l := s.table[k].list;
      var n := Find(l, c);
      FindFor(l, c);
      if n < |l| {
        TakenOut(l, n);
      }
    }
  }

  lemma FindFor(l: seq<Mnt>, c: Chan)
    ensures var n := Find(l, c); n <= |l| && (n < |l| ==> For(l[n], c)) && forall i :: 0 <= i < n ==> !For(l[i], c)
  {
    assert forall i :: 0 <= i < |l| ==> (Is(l[i], c) <==> For(l[i], c));
  }

  lemma TakenOut(l: seq<Mnt>, n: nat)
    requires n < |l|
    ensures Without(l, l[..n] + l[n + 1..], n)
  {}

  /** What a mount refuses: a directory for a file or the other way round, a union of
      files, and creation in what is a union or may not be created in. */
  predicate Refused(c: Chan, from: Chan, flag: nat, umh: seq<Mnt>) {
    || c.dir != from.dir
    || (!from.dir && flag % 4 != 0)
    || (flag / 4 % 2 == 1 && (|umh| > 1 || (|umh| == 1 && umh[0].flag / 4 % 2 == 0)))
  }

  /** The entries that come: the channel, and the other members of its union in order, which
      are put after it when it replaces; they are numbered in turn. */
  predicate Come(n: seq<Mnt>, c: Chan, flag: nat, spec: Option<string>, umh: seq<Mnt>, id: nat) {
    && |n| == (if |umh| > 1 then |umh| else 1)
    && n[0] == Mnt(id, c, flag, spec)
    && forall i :: 1 <= i < |n| ==> n[i] == Mnt(id + i, umh[i].to, if flag % 4 == 0 then 2 else flag % 4, umh[i].spec)
  }

  /** The entries that are there already: those of the mount point, or the file itself when
      it is to be in the union. */
  predicate Was(o: seq<Mnt>, s: Ns, from: Chan, flag: nat) {
    var k := Key(from.ty, from.dev, from.path);
    if k in s.table then o == s.table[k].list
    else if flag % 4 == 0 then o == []
    else |o| == 1 && o[0] == Mnt(s.last + 1, from, 0, None)
  }

  lemma ComeIs(c: Chan, flag: nat, spec: Option<string>, umh: seq<Mnt>, id: nat)
    ensures Come(Brought(umh, c, flag, spec, id), c, flag, spec, umh, id)
  {
    if umh != [] {
      CopiesAt(umh[1..], if Order(flag) == MREPL then MAFTER else Order(flag), id + 1);
    }
  }

  /** A mount replaces what is there (0), goes before it (1) or after it (2), and gives the
      first entry's number; when it is refused nothing changes. */
  lemma MountPlaces(s: Ns, c: Chan, from: Chan, flag: nat, spec: Option<string>, umh: seq<Mnt>)
    ensures var k := Key(from.ty, from.dev, from.path);
            var (t, d) := Cmount(s, c, from, flag, spec, umh);
            && (d == Emount <==> Refused(c, from, flag, umh)) && (d == Emount ==> t == s)
            && Elsewhere(s.table, t.table, k)
            && (d != Emount ==>
                  && d.Mounted? && k in t.table && t.table[k].from == (if k in s.table then s.table[k].from else from)
                  && exists o, n :: Was(o, s, from, flag) && Come(n, c, flag, spec, umh, d.id)
                                    && t.last == d.id + |n| - 1
                                    && d.id == s.last + 1 + (if k !in s.table && flag % 4 != 0 then 1 else 0)
                                    && t.table[k].list == if flag % 4 == 0 then n else if flag % 4 == 2 then o + n else n + o)
  {
    if Mountable(c, from, flag, umh) {
      var (h, last) := Under(s, from, flag);
      ComeIs(c, flag, spec, umh, last + 1);
      assert Was(h.list, s, from, flag);
      var n := Brought(umh, c, flag, spec, last + 1);
      assert Come(n, c, flag, spec, umh, last + 1);
    }
  }
}
