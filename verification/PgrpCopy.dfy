/**
 Copying a mount table (pgrpcpy and pgrpinsert of kern/pgrp.c). The copied entries are
 first kept in a list ordered by their old numbers, and then get new numbers in turn.
 */
module PgrpCopy {
  import opened Bytes
  import opened MountSpec
  import opened Mounts

  predicate Increasing(s: seq<nat>) { forall i, j :: 0 <= i < j < |s| ==> s[i] < s[j] }

  /** s are the numbers of the entries of l. */
  ghost predicate Numbers(l: seq<Mount>, s: seq<nat>)
    reads l`mountid
  {
    |l| == |s| && forall i :: 0 <= i < |l| ==> l[i].mountid == s[i]
  }

  /** l are the entries reached from b by order. */
  ghost predicate Ordered(b: Mount?, l: seq<Mount>)
    reads l`order
  {
    && b == (if l == [] then null else l[0])
    && (forall i {:trigger l[i].order} :: 0 <= i < |l| ==> l[i].order == if i + 1 < |l| then l[i + 1] else null)
    && Apart(l)
  }

  function Inserted<T>(l: seq<T>, n: nat, x: T): seq<T>
    requires n <= |l|
  {
    l[..n] + [x] + l[n..]
  }

  /** Where a number belongs. */
  function Rank(s: seq<nat>, id: nat): (n: nat)
    ensures n <= |s| && (forall i :: 0 <= i < n ==> s[i] <= id) && (n < |s| ==> id < s[n])
  {
    if s == [] || id < s[0] then 0 else 1 + Rank(s[1..], id)
  }

  lemma RankIs(s: seq<nat>, id: nat, n: nat)
    requires n <= |s| && (forall i :: 0 <= i < n ==> s[i] <= id) && (n < |s| ==> id < s[n])
    ensures Rank(s, id) == n
  {}

  /** Puts m between p and f. */
  method Hook(order: Mount?, p: Mount?, f: Mount?, m: Mount, ghost l: seq<Mount>, ghost n: nat) returns (o: Mount?)
    requires Ordered(order, l) && m !in l && n <= |l|
    requires f == (if n < |l| then l[n] else null) && p == (if n == 0 then null else l[n - 1])
    modifies m`order, l`order
    ensures Ordered(o, Inserted(l, n, m))
  {
    o := order;
    m.order := f;
    if p == null {
      o := m;
    } else {
      p.order := m;
    }
    ghost var k := Inserted(l, n, m);
    forall i {:trigger k[i].order} | 0 <= i < |k| ensures k[i].order == if i + 1 < |k| then k[i + 1] else null {
      if i < n {
        assert k[i] == l[i] && old(l[i].order) == if i + 1 < |l| then l[i + 1] else null;
      } else if i > n {
        assert k[i] == l[i - 1] && old(l[i - 1].order) == if i < |l| then l[i] else null;
      }
    }
  }

  /** pgrpinsert: m goes before the first entry with a greater number. */
  method Pgrpinsert(order: Mount?, m: Mount, ghost l: seq<Mount>, ghost s: seq<nat>) returns (o: Mount?)
    requires Ordered(order, l) && Numbers(l, s) && m !in l
    modifies m`order, l`order
    ensures |l| == |s| && Ordered(o, Inserted(l, Rank(s, m.mountid), m))
  {
    var f, p: Mount? := order, null;
    ghost var n := 0;
    while f != null && f.mountid <= m.mountid
      invariant n <= |l| && f == (if n < |l| then l[n] else null) && p == (if n == 0 then null else l[n - 1])
      invariant Ordered(order, l) && forall i :: 0 <= i < n ==> s[i] <= m.mountid
      decreases |l| - n
    {
      p, f := f, f.order;
      n := n + 1;
    }
    RankIs(s, m.mountid, n);
    o := Hook(order, p, f, m, l, n);
  }

  lemma InsertedKeeps(l: seq<Mount>, s: seq<nat>, m: Mount)
    requires Numbers(l, s) && Increasing(s) && m.mountid !in s
    ensures var n := Rank(s, m.mountid);
            Numbers(Inserted(l, n, m), Inserted(s, n, m.mountid)) && Increasing(Inserted(s, n, m.mountid))
  {
    var n := Rank(s, m.mountid);
    assert forall i :: 0 <= i < n ==> s[i] in s;
    var k, t := Inserted(l, n, m), Inserted(s, n, m.mountid);
    InsertedIncreasing(s, n, m.mountid, t);
    forall i | 0 <= i < |k| ensures k[i].mountid == t[i] {
      assert k[i] == if i < n then l[i] else if i == n then m else l[i - 1];
    }
  }

  lemma InsertedIncreasing(s: seq<nat>, n: nat, x: nat, t: seq<nat>)
    requires Increasing(s) && n <= |s| && t == Inserted(s, n, x)
    requires (forall i :: 0 <= i < n ==> s[i] < x) && (n < |s| ==> x < s[n])
    ensures Increasing(t)
  {
    forall i, j | 0 <= i < j < |t| ensures t[i] < t[j] {
      assert t[i] == if i < n then s[i] else if i == n then x else s[i - 1];
      assert t[j] == if j < n then s[j] else if j == n then x else s[j - 1];
      assert n < j ==> s[n] <= s[j - 1];
    }
  }

  lemma Members<T>(l: seq<T>, n: nat, m: T)
    requires n <= |l|
    ensures forall x :: x in Inserted(l, n, m) <==> x in l || x == m
  {
    assert l == l[..n] + l[n..];
  }

  /** An entry copied, into the ordered list. */
  method Copyone(m: Mount, order: Mount?, ghost v: Mnt, ghost l: seq<Mount>, ghost s: seq<nat>)
      returns (n: Mount, o: Mount?, ghost k: seq<Mount>, ghost t: seq<nat>)
    requires m.Has(v) && Ordered(order, l) && Numbers(l, s) && Increasing(s) && v.id !in s
    modifies l`order
    ensures fresh(n) && List(n, [n], [v]) && Ordered(o, k) && Numbers(k, t) && Increasing(t)
    ensures (forall x :: x in k <==> x in l || x == n) && (forall x :: x in t <==> x in s || x == v.id)
  {
    hide Ordered, Numbers, Increasing, Rank, List, Inserted;
    n := new Mount(m.to, m.mflag, m.spec, m.mountid);
    o := Pgrpinsert(order, n, l, s);
    InsertedKeeps(l, s, n);
    Members(l, Rank(s, n.mountid), n);
    Members(s, Rank(s, n.mountid), n.mountid);
    k, t := Inserted(l, Rank(s, n.mountid), n), Inserted(s, Rank(s, n.mountid), n.mountid);
    One(n, v);
  }

  /** The numbers t are those of s and those of the entries d. */
  ghost predicate Adds(t: seq<nat>, s: seq<nat>, d: seq<Mnt>) {
    forall x :: x in t <==> x in s || exists i :: 0 <= i < |d| && d[i].id == x
  }

  lemma AddsOne(u: seq<nat>, t: seq<nat>, s: seq<nat>, d: seq<Mnt>, i: nat)
    requires i < |d| && Adds(t, s, d[..i]) && forall x :: x in u <==> x in t || x == d[i].id
    ensures Adds(u, s, d[..i + 1])
  {
    var e, f := d[..i], d[..i + 1];
    forall x ensures x in u <==> x in s || exists j :: 0 <= j < |f| && f[j].id == x {
      if j :| 0 <= j < |f| && f[j].id == x {
        if j < i {
          assert e[j].id == x;
        }
      }
      if x in t && x !in s {
        var j :| 0 <= j < |e| && e[j].id == x;
        assert f[j].id == x;
      }
      if x == d[i].id {
        assert f[i].id == x;
      }
    }
  }

  lemma NewNumber(t: seq<nat>, s: seq<nat>, d: seq<Mnt>, i: nat)
    requires i < |d| && Adds(t, s, d[..i]) && d[i].id !in s && forall j, k :: 0 <= j < k < |d| ==> d[j].id != d[k].id
    ensures d[i].id !in t
  {
    assert forall j :: 0 <= j < i ==> d[..i][j].id != d[i].id;
  }

  /** One mount list copied. The entries also go to the ordered list. */
  method Copylist(f0: Mount?, order: Mount?, ghost l: seq<Mount>, ghost s: seq<nat>, ghost from: seq<Mount>, ghost d: seq<Mnt>)
      returns (first: Mount?, o: Mount?, ghost nodes: seq<Mount>, ghost k: seq<Mount>, ghost t: seq<nat>)
    requires List(f0, from, d) && Ordered(order, l) && Numbers(l, s) && Increasing(s)
    requires forall i :: 0 <= i < |d| ==> d[i].id !in s
    requires forall i, j :: 0 <= i < j < |d| ==> d[i].id != d[j].id
    modifies l`order
    ensures List(first, nodes, d) && fresh(nodes) && Ordered(o, k) && Numbers(k, t) && Increasing(t)
    ensures forall x :: x in k <==> x in l || x in nodes
    ensures Adds(t, s, d)
  {
    hide List, Chain, Holds, Apart, Ordered, Numbers, Increasing, Adds;
    var m, link: Mount? := f0, null;
    first, o, nodes, k, t := null, order, [], l, s;
    Nothing();
    AddsNone(s);
    ghost var i := 0;
    Ends(m, from, d);
    assert from[0..] == from && d[0..] == d && d[..0] == [];
    while m != null
      invariant i <= |d| == |from| && List(m, from[i..], d[i..])
      invariant List(first, nodes, d[..i]) && fresh(nodes) && (link == if nodes == [] then null else nodes[|nodes| - 1])
      invariant Ordered(o, k) && Numbers(k, t) && Increasing(t) && Adds(t, s, d[..i])
      invariant forall x :: x in k <==> x in l || x in nodes
      decreases |d| - i
    {
      FirstOf(m, from[i..], d[i..]);
      Ends(first, nodes, d[..i]);
      assert forall j :: 0 <= j < |k| ==> k[j] in k && (k[j] in l || fresh(k[j]));
      NewNumber(t, s, d, i);
      var n;
      ghost var t0 := t;
      n, o, k, t := Copyone(m, o, d[i], k, t);
      AddsOne(t, t0, s, d, i);
      if link == null {
        assert d[..i] == [] && d[..i + 1] == [d[i]];
        first := n;
        nodes := [n];
      } else {
        assert link in nodes;
        Heads(first, nodes, d[..i]);
        Link(link, n, first, nodes, d[..i], [n], [d[i]]);
        nodes := nodes + [n];
      }
      link := n;
      m := m.next;
      assert d[..i + 1] == d[..i] + [d[i]] && from[i..][1..] == from[i + 1..] && d[i..][1..] == d[i + 1..];
      i := i + 1;
    }
    Ends(m, from[i..], d[i..]);
    assert d[..i] == d;
  }

  lemma AddsNone(s: seq<nat>)
    ensures Adds(s, s, [])
  {}

  lemma Heads(b: Mount?, l: seq<Mount>, d: seq<Mnt>)
    requires List(b, l, d) && l != []
    ensures b == l[0]
  {}

  /** A new head for the same file with the list copied. */
  method Copymhead(f: Mhead, order: Mount?, ghost d: seq<Mnt>, ghost l: seq<Mount>, ghost s: seq<nat>)
      returns (mh: Mhead, o: Mount?, ghost k: seq<Mount>, ghost t: seq<nat>)
    requires f.Has(d) && Ordered(order, l) && Numbers(l, s) && Increasing(s)
    requires (forall i :: 0 <= i < |d| ==> d[i].id !in s) && (forall i, j :: 0 <= i < j < |d| ==> d[i].id != d[j].id)
    modifies l`order
    ensures fresh(mh) && fresh(mh.nodes) && mh.from == f.from && mh.Has(d)
    ensures Ordered(o, k) && Numbers(k, t) && Increasing(t)
    ensures Elems(k) == Elems(l) + Elems(mh.nodes) && (forall i :: 0 <= i < |k| ==> k[i] in l || fresh(k[i]))
    ensures forall x :: x in t <==> x in s || exists i :: 0 <= i < |d| && d[i].id == x
  {
    hide List, Ordered, Numbers, Increasing;
    var first;
    ghost var nodes;
    first, o, nodes, k, t := Copylist(f.mount, order, l, s, f.nodes, d);
    mh := new Mhead(f.from);
    mh.mount, mh.nodes := first, nodes;
    assert forall i :: 0 <= i < |k| ==> k[i] in k;
  }

  /** One mount head copied into to, behind the heads of its chain. */
  method Copyhead(to: Pgrp, f: Mhead, order: Mount?, ghost d: seq<Mnt>, ghost done: Table, ghost l: seq<Mount>, ghost s: seq<nat>)
      returns (o: Mount?, ghost k: seq<Mount>, ghost t: seq<nat>)
    requires to.Has(done) && KeyOf(f.from) !in done && f.Has(d) && (forall i, j :: 0 <= i < j < |d| ==> d[i].id != d[j].id)
    requires Ordered(order, l) && Numbers(l, s) && Increasing(s) && forall i :: 0 <= i < |d| ==> d[i].id !in s
    requires Elems(l) == to.Nodes()
    modifies to, l`order
    ensures to.Has(done[KeyOf(f.from) := Head(f.from, d)])
    ensures Ordered(o, k) && Numbers(k, t) && Increasing(t)
    ensures Elems(k) == to.Nodes()
    ensures forall i :: 0 <= i < |k| ==> k[i] in l || fresh(k[i])
    ensures forall x :: x in t <==> x in s || exists i :: 0 <= i < |d| && d[i].id == x
    ensures forall h :: h in to.heads.Values ==> h in old(to.heads).Values || fresh(h)
  {
    hide HashOk, Mhead.Has, Ordered, Numbers, Increasing, Elems, Pgrp.Nodes;
    var mh;
    mh, o, k, t := Copymhead(f, order, d, l, s);
    to.Enter(mh, d, done);
  }

  /** The entries get new numbers, in order. */
  method Renumber(order: Mount?, ids: Ref, ghost l: seq<Mount>)
    requires Ordered(order, l)
    modifies l`mountid, ids`n
    ensures ids.n == old(ids.n) + |l| && forall i :: 0 <= i < |l| ==> l[i].mountid == old(ids.n) + 1 + i
  {
    var m := order;
    ghost var i := 0;
    while m != null
      invariant i <= |l| && m == (if i < |l| then l[i] else null) && ids.n == old(ids.n) + i
      invariant forall j :: 0 <= j < i ==> l[j].mountid == old(ids.n) + 1 + j
      decreases |l| - i
    {
      assert l[i].order == if i + 1 < |l| then l[i + 1] else null;
      m.mountid := ids.Incref();
      m := m.order;
      i := i + 1;
    }
  }

  /** The table with the number of place i in s exchanged for base + 1 + i. */
  function Renumbered(t: Table, s: seq<nat>, base: nat): (u: Table)
    ensures u.Keys == t.Keys
  {
    map k | k in t :: Head(t[k].from, RenumberedList(t[k].list, s, base))
  }

  function RenumberedList(l: seq<Mnt>, s: seq<nat>, base: nat): (m: seq<Mnt>)
    ensures |m| == |l| && forall i :: 0 <= i < |l| ==> m[i] == l[i].(id := base + Rank(s, l[i].id))
  {
    seq(|l|, i requires 0 <= i < |l| => l[i].(id := base + Rank(s, l[i].id)))
  }

  lemma RankMember(s: seq<nat>, i: nat)
    requires Increasing(s) && i < |s|
    ensures Rank(s, s[i]) == i + 1
  {
    RankIs(s, s[i], i + 1);
  }

  /** Numbers that all are in an increasing sequence keep their order. */
  lemma RenumberedCopies(t: Table, s: seq<nat>, base: nat)
    requires Increasing(s) && forall k, i :: k in t && 0 <= i < |t[k].list| ==> t[k].list[i].id in s
    ensures Copied(t, Renumbered(t, s, base))
    ensures var u := Renumbered(t, s, base);
            forall k, i :: k in u && 0 <= i < |u[k].list| ==> base < u[k].list[i].id <= base + |s|
  {
    hide Rank, Increasing;
    var u := Renumbered(t, s, base);
    forall k | k in t ensures u[k].from == t[k].from && LikeAll(t[k].list, u[k].list) {}
    forall k, i, l, j | k in t && 0 <= i < |t[k].list| && l in t && 0 <= j < |t[l].list|
      ensures t[k].list[i].id < t[l].list[j].id <==> u[k].list[i].id < u[l].list[j].id
      ensures base < u[k].list[i].id <= base + |s|
    {
      RankOrder(s, t[k].list[i].id, t[l].list[j].id);
    }
  }

  lemma RankOrder(s: seq<nat>, x: nat, y: nat)
    requires Increasing(s) && x in s && y in s
    ensures (x < y <==> Rank(s, x) < Rank(s, y)) && 0 < Rank(s, x) <= |s|
  {
    var i :| 0 <= i < |s| && s[i] == x;
    var j :| 0 <= j < |s| && s[j] == y;
    RankMember(s, i);
    RankMember(s, j);
  }

  /** done are the keys of the heads in the first i chains, and of the first j in the next. */
  ghost predicate Walked(hash: seq<seq<Mhead>>, heads: map<Key, Mhead>, done: set<Key>, i: nat, j: nat) {
    && HashOk(hash, heads) && i <= MNTHASH && (if i < MNTHASH then j <= |hash[i]| else j == 0) && done <= heads.Keys
    && forall q :: q in heads ==> (q in done <==> q.path % MNTHASH < i || (q.path % MNTHASH == i && heads[q] in hash[i][..j]))
  }

  lemma WalkOn(hash: seq<seq<Mhead>>, heads: map<Key, Mhead>, done: set<Key>, i: nat, j: nat)
    requires Walked(hash, heads, done, i, j) && i < MNTHASH && j < |hash[i]|
    ensures Own(heads, hash[i][j]) && KeyOf(hash[i][j].from) !in done
    ensures Walked(hash, heads, done + {KeyOf(hash[i][j].from)}, i, j + 1)
  {
    var f := hash[i][j];
    assert Own(heads, f) && f.from.path % MNTHASH == i;
    assert f !in hash[i][..j];
    forall q | q in heads
      ensures heads[q] in hash[i][..j + 1] <==> heads[q] in hash[i][..j] || q == KeyOf(f.from)
    {
      assert hash[i][..j + 1] == hash[i][..j] + [f];
    }
  }

  lemma WalkNext(hash: seq<seq<Mhead>>, heads: map<Key, Mhead>, done: set<Key>, i: nat)
    requires i < MNTHASH && i < |hash| && Walked(hash, heads, done, i, |hash[i]|)
    ensures Walked(hash, heads, done, i + 1, 0)
  {
    assert hash[i][..|hash[i]|] == hash[i];
  }

  lemma WalkDone(hash: seq<seq<Mhead>>, heads: map<Key, Mhead>, done: set<Key>)
    requires Walked(hash, heads, done, MNTHASH, 0)
    ensures done == heads.Keys
  {}

  /** What has been copied: done is part of t, and all its entries are in the ordered list. */
  ghost predicate Copying(to: Pgrp, t: Table, done: Table, order: Mount?, l: seq<Mount>, s: seq<nat>)
    reads to, to.heads.Values, to.Nodes()`next, to.Nodes()`mountid, to.Nodes()`mflag, l`order, l`mountid
  {
    && to.Has(done) && (forall q :: q in done ==> q in t && done[q] == t[q])
    && Ordered(order, l) && Numbers(l, s) && Increasing(s)
    && Elems(l) == to.Nodes() && NumbersOf(done, s)
  }

  ghost predicate NumbersOf(done: Table, s: seq<nat>) {
    && (forall q, i :: q in done && 0 <= i < |done[q].list| ==> done[q].list[i].id in s)
    && forall x :: x in s ==> exists q, i :: q in done && 0 <= i < |done[q].list| && done[q].list[i].id == x
  }

  lemma NumbersNew(t: Table, done: Table, q: Key, s: seq<nat>)
    requires Distinct(t) && NumbersOf(done, s) && q in t && q !in done && forall p :: p in done ==> p in t && done[p] == t[p]
    ensures forall i :: 0 <= i < |t[q].list| ==> t[q].list[i].id !in s
    ensures forall i, j :: 0 <= i < j < |t[q].list| ==> t[q].list[i].id != t[q].list[j].id
  {}

  lemma NumbersMore(done: Table, q: Key, h: Head, s: seq<nat>, r: seq<nat>)
    requires NumbersOf(done, s) && q !in done
    requires forall x :: x in r <==> x in s || exists i :: 0 <= i < |h.list| && h.list[i].id == x
    ensures NumbersOf(done[q := h], r)
  {
    var d := done[q := h];
    forall x | x in r ensures exists p, i :: p in d && 0 <= i < |d[p].list| && d[p].list[i].id == x {
      if x in s {
        var p, i :| p in done && 0 <= i < |done[p].list| && done[p].list[i].id == x;
        assert p in d && d[p].list[i].id == x;
      } else {
        var i :| 0 <= i < |h.list| && h.list[i].id == x;
        assert q in d && d[q].list[i].id == x;
      }
    }
  }

  /** The next head copied. */
  method Copynext(to: Pgrp, f: Mhead, order: Mount?, ghost t: Table, ghost done: Table, ghost l: seq<Mount>, ghost s: seq<nat>)
      returns (o: Mount?, ghost k: seq<Mount>, ghost r: seq<nat>)
    requires Distinct(t) && Copying(to, t, done, order, l, s)
    requires KeyOf(f.from) in t && KeyOf(f.from) !in done && f.from == t[KeyOf(f.from)].from && f.Has(t[KeyOf(f.from)].list)
    modifies to, l`order
    ensures Copying(to, t, done[KeyOf(f.from) := t[KeyOf(f.from)]], o, k, r)
    ensures forall i :: 0 <= i < |k| ==> k[i] in l || fresh(k[i])
  {
    hide Ordered, Numbers, Increasing, Distinct, NumbersOf, Mhead.Has, Pgrp.Has;
    ghost var q := KeyOf(f.from);
    NumbersNew(t, done, q, s);
    o, k, r := Copyhead(to, f, order, t[q].list, done, l, s);
    NumbersMore(done, q, t[q], s, r);
  }

  /** One hash chain copied. */
  method Copychain(to: Pgrp, from: Pgrp, i: nat, order: Mount?, ghost t: Table, ghost done: Table, ghost l: seq<Mount>,
      ghost s: seq<nat>)
      returns (o: Mount?, ghost all: Table, ghost k: seq<Mount>, ghost r: seq<nat>)
    requires from.Has(t) && to != from && Distinct(t) && Copying(to, t, done, order, l, s)
    requires i < MNTHASH && Walked(from.mnthash, from.heads, done.Keys, i, 0)
    modifies to, l`order
    ensures from.Has(t) && Copying(to, t, all, o, k, r) && Walked(from.mnthash, from.heads, all.Keys, i + 1, 0)
    ensures forall j :: 0 <= j < |k| ==> k[j] in l || fresh(k[j])
  {
    hide HashOk, Ordered, Copying, Distinct, Walked, HeadIs, Mhead.Has;
    o, all, k, r := order, done, l, s;
    var j := 0;
    from.HasHashed(t);
    from.HashLen();
    while j < |from.mnthash[i]|
      invariant from.Has(t) && Copying(to, t, all, o, k, r) && j <= |from.mnthash[i]|
      invariant Walked(from.mnthash, from.heads, all.Keys, i, j)
      invariant forall n :: 0 <= n < |k| ==> k[n] in l || fresh(k[n])
    {
      var f := from.mnthash[i][j];
      WalkOn(from.mnthash, from.heads, all.Keys, i, j);
      from.Got(t, KeyOf(f.from));
      ghost var was := all;
      o, k, r := Copynext(to, f, o, t, all, k, r);
      all := was[KeyOf(f.from) := t[KeyOf(f.from)]];
      assert all.Keys == was.Keys + {KeyOf(f.from)};
      j := j + 1;
    }
    WalkNext(from.mnthash, from.heads, all.Keys, i);
  }

  /** All hash chains copied, with the old numbers. */
  method Copyall(to: Pgrp, from: Pgrp, ghost t: Table) returns (order: Mount?, ghost done: Table, ghost l: seq<Mount>,
      ghost s: seq<nat>)
    requires from.Has(t) && to != from && to.Has(map[]) && Distinct(t)
    modifies to
    ensures from.Has(t) && Copying(to, t, done, order, l, s) && done.Keys == t.Keys && forall n :: 0 <= n < |l| ==> fresh(l[n])
  {
    hide HashOk, Ordered, Copying, Distinct, Walked, HeadIs, Mhead.Has, Pgrp.Has;
    order, done, l, s := null, map[], [], [];
    Begin(to, from, t);
    assert done.Keys == {};
    var i := 0;
    while i < MNTHASH
      invariant i <= MNTHASH && from.Has(t) && Copying(to, t, done, order, l, s)
      invariant Walked(from.mnthash, from.heads, done.Keys, i, 0)
      invariant forall n :: 0 <= n < |l| ==> fresh(l[n])
    {
      order, done, l, s := Copychain(to, from, i, order, t, done, l, s);
      i := i + 1;
    }
    WalkDone(from.mnthash, from.heads, done.Keys);
    from.HasHashed(t);
  }

  /** pgrpcpy: to gets a table of the same mounts, with new numbers in the same order. */
  method Pgrpcpy(to: Pgrp, from: Pgrp, ids: Ref, ghost t: Table) returns (ghost u: Table)
    requires from.Has(t) && to != from && to.Has(map[]) && Distinct(t)
    modifies to, ids
    ensures to.Has(u) && Copied(t, u)
    ensures forall k, i :: k in u && 0 <= i < |u[k].list| ==> old(ids.n) < u[k].list[i].id <= ids.n
  {
    hide HashOk, Ordered, Copying, Distinct, HeadIs, Mhead.Has, Pgrp.Has;
    var order;
    ghost var done, l, s;
    order, done, l, s := Copyall(to, from, t);
    u := Finish(to, order, ids, t, done, l, s);
  }

  lemma Begin(to: Pgrp, from: Pgrp, t: Table)
    requires from.Has(t) && to.Has(map[])
    ensures Copying(to, t, map[], null, [], []) && Walked(from.mnthash, from.heads, {}, 0, 0)
  {}

  /** The new numbers are the places of the old. */
  method Renumberall(order: Mount?, ids: Ref, ghost l: seq<Mount>, ghost s: seq<nat>)
    requires Ordered(order, l) && Numbers(l, s) && Increasing(s)
    modifies l`mountid, ids`n
    ensures ids.n == old(ids.n) + |s| && forall x :: x in Elems(l) ==> x.mountid == old(ids.n) + Rank(s, old(x.mountid))
  {
    Renumber(order, ids, l);
    forall i | 0 <= i < |l| ensures l[i].mountid == old(ids.n) + Rank(s, old(l[i].mountid)) {
      RankMember(s, i);
    }
  }

  /** A head with the list of h, all of it in the ordered list. */
  ghost predicate Shape(m: Mhead, h: Head, l: seq<Mount>)
    reads m, m.nodes`next, m.nodes`mountid, m.nodes`mflag
  {
    && m.from == h.from && Chain(m.mount, m.nodes) && Apart(m.nodes) && Holds(m.nodes, h.list)
    && forall i :: 0 <= i < |m.nodes| ==> m.nodes[i] in Elems(l)
  }

  method Renumberheads(ghost heads: map<Key, Mhead>, order: Mount?, ids: Ref, ghost t: Table, ghost l: seq<Mount>,
      ghost s: seq<nat>)
    requires Ordered(order, l) && Numbers(l, s) && Increasing(s) && heads.Keys == t.Keys &&
        forall k :: k in t ==> Shape(heads[k], t[k], l)
    modifies l`mountid, ids`n
    ensures ids.n == old(ids.n) + |s| && forall k :: k in t ==> HeadIs(heads[k], Renumbered(t, s, old(ids.n))[k])
  {
    hide Ordered, Numbers, Increasing, Elems, Rank, HeadIs, Renumbered, Chain, Apart;
    ghost var base := ids.n;
    Renumberall(order, ids, l, s);
    forall k | k in t ensures HeadIs(heads[k], Renumbered(t, s, base)[k]) {
      RenumberedAt(t, s, base, k);
      ghost var nodes, u := heads[k].nodes, Renumbered(t, s, base)[k];
      assert old(Shape(heads[k], t[k], l));
      forall i | 0 <= i < |nodes| ensures nodes[i].Has(u.list[i]) {
        assert nodes[i] in Elems(l) && old(nodes[i].Has(t[k].list[i]));
      }
      HeadHolds(heads[k], u);
    }
  }

  method Finish(to: Pgrp, order: Mount?, ids: Ref, ghost t: Table, ghost done: Table, ghost l: seq<Mount>,
      ghost s: seq<nat>) returns (ghost u: Table)
    requires Copying(to, t, done, order, l, s) && done.Keys == t.Keys
    modifies l`mountid, ids`n
    ensures to.Has(u) && Copied(t, u)
    ensures forall k, i :: k in u && 0 <= i < |u[k].list| ==> old(ids.n) < u[k].list[i].id <= ids.n
  {
    hide HashOk, Ordered, Numbers, Increasing, Renumbered, Chain, Apart, HeadIs, Holds;
    assert done == t;
    u := Renumbered(t, s, ids.n);
    RenumberedCopies(t, s, ids.n);
    forall k | k in t ensures Shape(to.heads[k], t[k], l) {
      to.Got(t, k);
      assert forall i :: 0 <= i < |to.heads[k].nodes| ==> to.heads[k].nodes[i] in to.heads[k].nodes;
    }
    Renumberheads(to.heads, order, ids, t, l, s);
  }

  lemma HeadHolds(m: Mhead, h: Head)
    requires m.from == h.from && Chain(m.mount, m.nodes) && Apart(m.nodes) && Holds(m.nodes, h.list)
    ensures HeadIs(m, h)
  {}

  lemma RenumberedAt(t: Table, s: seq<nat>, base: nat, k: Key)
    requires k in t
    ensures Renumbered(t, s, base)[k] == Head(t[k].from, RenumberedList(t[k].list, s, base))
  {}
}
