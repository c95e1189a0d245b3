/**
 Mount lists as linked entries (cmount and cunmount of kern/chan.c; newmount, pgrpinsert
 and pgrpcpy of kern/pgrp.c). They carry out MountSpec on the entries in place.
 */
module Mounts {
  import opened Bytes
  import opened MountSpec

  const MNTHASH: nat := 32

  class Ref {
    var n: nat

    constructor (n: nat)
      ensures this.n == n
    {
      this.n := n;
    }

    method Incref() returns (r: nat)
      modifies `n
      ensures n == r == old(n) + 1
    {
      n := n + 1;
      r := n;
    }
  }

  class Mount {
    var mountid: nat
    var next: Mount?
    var order: Mount?
    var mflag: nat
    const to: Chan
    const spec: Option<string>

    /** newmount, with the number it got. */
    constructor (to: Chan, flag: nat, spec: Option<string>, id: nat)
      ensures Has(Mnt(id, to, flag, spec)) && next == null && order == null
    {
      this.to, mflag, this.spec, mountid, next, order := to, flag, spec, id, null, null;
    }

    predicate Has(m: Mnt)
      reads `mountid, `mflag
    {
      m == Mnt(mountid, to, mflag, spec)
    }
  }

  ghost predicate Chain(b: Mount?, l: seq<Mount>)
    reads l`next
  {
    && b == (if l == [] then null else l[0])
    && (forall i {:trigger l[i].next} :: 0 <= i < |l| ==> l[i].next == if i + 1 < |l| then l[i + 1] else null)
  }

  ghost predicate Apart(l: seq<Mount>) {
    forall i, j :: 0 <= i < j < |l| ==> l[i] != l[j]
  }

  ghost predicate Holds(l: seq<Mount>, d: seq<Mnt>)
    reads l`mountid, l`mflag
  {
    |l| == |d| && forall i :: 0 <= i < |l| ==> l[i].Has(d[i])
  }

  /** l are the entries reached from b, with the values d. */
  ghost predicate List(b: Mount?, l: seq<Mount>, d: seq<Mnt>)
    reads l`next, l`mountid, l`mflag
  {
    Chain(b, l) && Apart(l) && Holds(l, d)
  }

  function Elems(l: seq<Mount>): set<Mount> { set x | x in l }

  predicate Disjoint(l: seq<Mount>, m: seq<Mount>) { forall x :: x in l ==> x !in m }

  lemma Append(b: Mount, c: Mount?, l: seq<Mount>, d: seq<Mnt>, m: seq<Mount>, e: seq<Mnt>)
    requires l != [] && b == l[0] && Apart(l) && Apart(m) && Disjoint(l, m) && Holds(l, d) && Holds(m, e)
    requires Chain(c, m) && l[|l| - 1].next == c
    requires forall i {:trigger l[i].next} :: 0 <= i < |l| - 1 ==> l[i].next == l[i + 1]
    ensures List(b, l + m, d + e)
  {
    var n, f := l + m, d + e;
    forall j {:trigger n[j].next} | 0 <= j < |n| ensures n[j].next == if j + 1 < |n| then n[j + 1] else null {
      if j >= |l| {
        assert m[j - |l|].next == if j - |l| + 1 < |m| then m[j - |l| + 1] else null;
      } else {
        assert n[j] == l[j] && (j < |l| - 1 ==> l[j].next == l[j + 1]);
      }
    }
    forall i, j | 0 <= i < j < |n| ensures n[i] != n[j] {
      if i < |l| <= j {
        assert l[i] in l && m[j - |l|] in m;
      }
    }
  }

  /** Puts a list behind the last entry f of another. */
  method Link(f: Mount, c: Mount?, ghost b: Mount, ghost l: seq<Mount>, ghost d: seq<Mnt>, ghost m: seq<Mount>, ghost e: seq<Mnt>)
    requires List(b, l, d) && List(c, m, e) && Disjoint(l, m) && f == l[|l| - 1]
    modifies f`next
    ensures List(b, l + m, d + e)
  {
    assert f in l;
    f.next := c;
    Append(b, c, l, d, m, e);
  }

  /** Walks to the end of a list and puts another there. */
  method Join(b: Mount, c: Mount?, ghost l: seq<Mount>, ghost d: seq<Mnt>, ghost m: seq<Mount>, ghost e: seq<Mnt>)
    requires List(b, l, d) && List(c, m, e) && Disjoint(l, m)
    modifies l`next
    ensures List(b, l + m, d + e)
  {
    var f := b;
    ghost var i := 0;
    while f.next != null
      invariant i < |l| && f == l[i] && List(b, l, d) && List(c, m, e)
      decreases |l| - i
    {
      f := f.next;
      i := i + 1;
    }
    EndAt(b, l, i);
    Link(f, c, b, l, d, m, e);
  }

  class Mhead {
    const from: Chan
    var mount: Mount?
    ghost var nodes: seq<Mount>

    /** newmhead */
    constructor (from: Chan)
      ensures this.from == from && nodes == [] && Has([])
    {
      this.from, mount, nodes := from, null, [];
    }

    ghost predicate Has(d: seq<Mnt>)
      reads this, nodes`next, nodes`mountid, nodes`mflag
    {
      List(mount, nodes, d)
    }

    /** The file mounted upon joins its union. */
    method Self(ids: Ref)
      requires Has([])
      modifies this`mount, this`nodes, ids
      ensures ids.n == old(ids.n) + 1 && Has([Mnt(ids.n, from, 0, None)]) && fresh(nodes)
    {
      var id := ids.Incref();
      var n := new Mount(from, 0, None, id);
      mount, nodes := n, [n];
    }

    /** The rest of a union, mounted anew behind nm. */
    static method Copyunion(nm: Mount, um0: Mount?, flg: nat, ids: Ref, ghost v: Mnt, ghost l: seq<Mount>, ghost d: seq<Mnt>)
        returns (ghost chain: seq<Mount>)
      requires nm.Has(v) && nm.next == null && nm !in l && List(um0, l, d)
      modifies nm`next, ids
      ensures List(nm, chain, [v] + Copies(d, flg, old(ids.n) + 1)) && ids.n == old(ids.n) + |d|
      ensures chain != [] && chain[0] == nm && fresh(chain[1..])
    {
      hide Copies, List, Holds, Apart;
      chain := [nm];
      ghost var val := [v];
      One(nm, v);
      var h, um := nm, um0;
      ghost var i := 0;
      assert l[0..] == l && d[0..] == d;
      Ends(um, l, d);
      ghost var all := Copies(d, flg, ids.n + 1);
      while um != null
        invariant i <= |l| == |d| && List(um, l[i..], d[i..]) && ids.n == old(ids.n) + i
        invariant List(nm, chain, val) && chain != [] && h == chain[|chain| - 1] && chain[0] == nm && fresh(chain[1..])
        invariant [v] + all == val + Copies(d[i..], flg, ids.n + 1)
        decreases |l| - i
      {
        ghost var k := ids.n + 1;
        FirstOf(um, l[i..], d[i..]);
        var id := ids.Incref();
        var f := new Mount(um.to, flg, um.spec, id);
        One(f, Mnt(id, um.to, flg, um.spec));
        assert h == nm || h in chain[1..];
        ghost var x := Mnt(id, um.to, flg, um.spec);
        Link(h, f, nm, chain, val, [f], [x]);
        CopiesOnce(d[i..], flg, k);
        assert d[i..][1..] == d[i + 1..] && l[i..][1..] == l[i + 1..];
        assert [x] + Copies(d[i + 1..], flg, k + 1) == Copies(d[i..], flg, k);
        assert val + ([x] + Copies(d[i + 1..], flg, k + 1)) == val + [x] + Copies(d[i + 1..], flg, k + 1);
        chain, val := chain + [f], val + [x];
        h := f;
        um := um.next;
        i := i + 1;
      }
      Ends(um, l[i..], d[i..]);
      CopiesOnce(d[i..], flg, ids.n + 1);
      assert [v] + all == val;
    }

    /** newmount, and the rest of the union that c is the first of. */
    static method Bring(c: Chan, flag: nat, spec: Option<string>, mh: Mhead?, ids: Ref, ghost umh: seq<Mnt>)
        returns (id: nat, nm: Mount, ghost chain: seq<Mount>)
      requires if mh == null then umh == [] else mh.Has(umh)
      modifies ids
      ensures chain != [] && chain[0] == nm && fresh(chain) && List(nm, chain, Brought(umh, c, flag, spec, id))
      ensures id == old(ids.n) + 1 && ids.n == old(ids.n) + |Brought(umh, c, flag, spec, id)|
    {
      hide Copies, List, Holds, Apart, Chain;
      id := ids.Incref();
      nm := new Mount(c, flag, spec, id);
      ghost var v, flg := Mnt(id, c, flag, spec), if Order(flag) == MREPL then MAFTER else Order(flag);
      chain := [nm];
      One(nm, v);
      if mh != null {
        Ends(mh.mount, mh.nodes, umh);
      }
      CopiesAt(if umh == [] then [] else umh[1..], flg, id + 1);
      if mh != null && mh.mount != null {
        FirstOf(mh.mount, mh.nodes, umh);
        chain := Copyunion(nm, mh.mount.next, if Order(flag) == MREPL then MAFTER else Order(flag), ids, v,
            mh.nodes[1..], umh[1..]);
        assert chain == [nm] + chain[1..];
      } else {
        assert Brought(umh, c, flag, spec, id) == [v];
      }
    }

    /** cmount once the head is found: umh is what c stands for, if it is a union. */
    method Bind(c: Chan, flag: nat, spec: Option<string>, mh: Mhead?, ids: Ref, ghost d: seq<Mnt>,
        ghost umh: seq<Mnt>) returns (id: nat)
      requires Has(d) && (if mh == null then umh == [] else mh.Has(umh))
      modifies this`mount, this`nodes, nodes`next, ids
      ensures Has(Joined(d, Brought(umh, c, flag, spec, id), flag)) && id == old(ids.n) + 1
      ensures ids.n == old(ids.n) + |Brought(umh, c, flag, spec, id)|
      ensures forall x :: x in nodes ==> x in old(nodes) || fresh(x)
    {
      hide Brought, List, Holds, Apart, Chain;
      var nm;
      ghost var chain;
      id, nm, chain := Bring(c, flag, spec, mh, ids, umh);
      ghost var e, was, wd := Brought(umh, c, flag, spec, id), nodes, d;
      Ends(mount, nodes, d);
      if mount != null && Order(flag) == MREPL {
        mount, nodes := null, [];
        was, wd := [], [];
        Nothing();
      }
      if mount != null && Order(flag) == MAFTER {
        Join(mount, nm, was, wd, chain, e);
        nodes := was + chain;
      } else {
        Join(nm, mount, chain, e, was, wd);
        mount, nodes := nm, chain + was;
        assert wd == [] ==> e + wd == e && wd + e == e;
      }
    }

    /** Takes the entry f, the n'th, out of the list; p is the one before. */
    method Cut(f: Mount, p: Mount?, ghost d: seq<Mnt>, ghost n: nat)
      requires Has(d) && n < |nodes| && f == nodes[n] && p == if n == 0 then null else nodes[n - 1]
      modifies this`mount, this`nodes, nodes`next
      ensures |d| == |old(nodes)| && Has(d[..n] + d[n + 1..]) && forall x :: x in nodes ==> x in old(nodes)
    {
      hide Holds;
      ghost var l := nodes;
      Without(mount, l, d, n);
      NextOf(mount, l, n);
      assert n > 0 ==> l[n - 1].next == l[n];
      if p == null {
        mount := f.next;
      } else {
        p.next := f.next;
      }
      nodes := l[..n] + l[n + 1..];
      f.next := null;
      forall j {:trigger nodes[j].next} | 0 <= j < |nodes| ensures nodes[j].next == if j + 1 < |nodes| then nodes[j + 1] else null {
        ghost var i := if j < n then j else j + 1;
        assert nodes[j] == l[i] && l[i] != f;
        if i + 1 != n {
          assert old(l[i].next) == if i + 1 < |l| then l[i + 1] else null;
        }
      }
      assert List(mount, nodes, d[..n] + d[n + 1..]);
    }

    /** cunmount once the head is found: takes off the first entry for c. */
    method Unbind(c: Chan, ghost d: seq<Mnt>) returns (found: bool)
      requires Has(d)
      modifies this`mount, this`nodes, nodes`next
      ensures var n := Find(d, c); found == (n < |d|) && Has(if found then d[..n] + d[n + 1..] else d)
      ensures forall x :: x in nodes ==> x in old(nodes)
    {
      hide Is, Holds, Chain, Apart;
      var f, p: Mount? := mount, null;
      ghost var n := 0;
      Ends(mount, nodes, d);
      if d != [] {
        FirstOf(mount, nodes, d);
      }
      while f != null
        invariant n <= |nodes| == |d| && f == (if n < |nodes| then nodes[n] else null) &&
            p == (if n == 0 then null else nodes[n - 1])
        invariant nodes == old(nodes) && mount == old(mount) && Has(d) && forall i :: 0 <= i < n ==> !Is(d[i], c)
        decreases |nodes| - n
      {
        Value(nodes, d, n);
        if Eqchan(f.to, c) || (f.to.mchan.Some? && Eqchan(f.to.mchan.value, c)) {
          FindIs(d, c, n);
          Cut(f, p, d, n);
          found := true;
          return;
        }
        NextOf(mount, nodes, n);
        p, f := f, f.next;
        n := n + 1;
      }
      FindNone(d, c);
      found := false;
    }
  }

  lemma NextOf(b: Mount?, l: seq<Mount>, i: nat)
    requires Chain(b, l) && i < |l|
    ensures l[i].next == if i + 1 < |l| then l[i + 1] else null
  {}

  lemma Value(l: seq<Mount>, d: seq<Mnt>, i: nat)
    requires Holds(l, d) && i < |l|
    ensures |l| == |d| && l[i].Has(d[i]) && forall c :: Is(d[i], c) == (Eqchan(l[i].to, c) || (l[i].to.mchan.Some? &&
                                                        Eqchan(l[i].to.mchan.value, c)))
  {}

  lemma FindIs(d: seq<Mnt>, c: Chan, n: nat)
    requires n < |d| && Is(d[n], c) && forall i :: 0 <= i < n ==> !Is(d[i], c)
    ensures Find(d, c) == n
  {}

  lemma FindNone(d: seq<Mnt>, c: Chan)
    requires forall i :: 0 <= i < |d| ==> !Is(d[i], c)
    ensures Find(d, c) == |d|
  {}

  lemma Without(b: Mount?, l: seq<Mount>, d: seq<Mnt>, n: nat)
    requires List(b, l, d) && n < |l|
    ensures |l| == |d| && Apart(l[..n] + l[n + 1..]) && Holds(l[..n] + l[n + 1..], d[..n] + d[n + 1..])
    ensures l[n] !in l[..n] + l[n + 1..]
  {
    var m, e := l[..n] + l[n + 1..], d[..n] + d[n + 1..];
    forall i | 0 <= i < |m| ensures m[i].Has(e[i]) && m[i] == l[if i < n then i else i + 1] {
      assert l[if i < n then i else i + 1].Has(d[if i < n then i else i + 1]);
    }
  }

  /** newmhead, with the file itself in its union if it is to be one. */
  method Newmhead(from: Chan, flag: nat, ids: Ref) returns (m: Mhead)
    modifies ids
    ensures fresh(m) && fresh(m.nodes) && m.from == from
    ensures var (h, last) := Under(Ns(map[], old(ids.n)), from, flag); m.Has(h.list) && ids.n == last
  {
    m := new Mhead(from);
    if Order(flag) != MREPL {
      m.Self(ids);
    }
  }

  lemma Nothing()
    ensures List(null, [], [])
  {}

  lemma One(m: Mount, v: Mnt)
    requires m.Has(v) && m.next == null
    ensures List(m, [m], [v])
  {}

  lemma EndAt(b: Mount?, l: seq<Mount>, i: nat)
    requires Chain(b, l) && i < |l| && l[i].next == null
    ensures i == |l| - 1
  {}

  lemma Ends(b: Mount?, l: seq<Mount>, d: seq<Mnt>)
    requires List(b, l, d)
    ensures |l| == |d| && (b == null <==> l == [])
  {}

  lemma FirstOf(b: Mount, l: seq<Mount>, d: seq<Mnt>)
    requires List(b, l, d)
    ensures l != [] && d != [] && b == l[0] && b.Has(d[0]) && List(b.next, l[1..], d[1..])
  {
    assert l[0].next == if 1 < |l| then l[1] else null;
    forall i {:trigger l[1..][i].next} | 0 <= i < |l[1..]|
      ensures l[1..][i].next == if i + 1 < |l[1..]| then l[1..][i + 1] else null
    {
      assert l[i + 1].next == if i + 2 < |l| then l[i + 2] else null;
    }
    forall i | 0 <= i < |l[1..]| ensures l[1..][i].Has(d[1..][i]) {
      assert l[i + 1].Has(d[i + 1]);
    }
  }

  ghost predicate HeadIs(m: Mhead, h: Head)
    reads m, m.nodes`next, m.nodes`mountid, m.nodes`mflag
  {
    m.from == h.from && m.Has(h.list)
  }

  /** The entries of the lists of all heads. */
  ghost function NodesOf(heads: map<Key, Mhead>): set<Mount>
    reads heads.Values
  {
    set k, x | k in heads && x in heads[k].nodes :: x
  }

  ghost predicate Own(heads: map<Key, Mhead>, h: Mhead) { KeyOf(h.from) in heads && heads[KeyOf(h.from)] == h }

  /** The mount heads are in the chain of their hash value. */
  ghost predicate HashOk(hash: seq<seq<Mhead>>, heads: map<Key, Mhead>) {
    && |hash| == MNTHASH
    && (forall k :: k in heads ==> heads[k] in hash[k.path % MNTHASH] && KeyOf(heads[k].from) == k)
    && (forall i, j :: 0 <= i < MNTHASH && 0 <= j < |hash[i]| ==> Own(heads, hash[i][j]) && hash[i][j].from.path % MNTHASH == i)
    && (forall i, j, k :: 0 <= i < MNTHASH && 0 <= j < k < |hash[i]| ==> hash[i][j] != hash[i][k])
  }

  lemma NodesPut(heads: map<Key, Mhead>, m: Mhead)
    requires KeyOf(m.from) !in heads
    ensures var h := heads[KeyOf(m.from) := m];
            && NodesOf(h) == NodesOf(heads) + Elems(m.nodes)
            && forall k, x :: k in h && x in h[k].nodes ==> x in NodesOf(h)
  {
    var k0, h := KeyOf(m.from), heads[KeyOf(m.from) := m];
    assert forall k :: k in heads ==> k in h && h[k] == heads[k];
    assert k0 in h && h[k0] == m;
    forall x ensures x in NodesOf(h) <==> x in NodesOf(heads) || x in m.nodes {
      if x in NodesOf(heads) {
        var k :| k in heads && x in heads[k].nodes;
        assert k in h && x in h[k].nodes;
      }
    }
  }

  lemma HashPut(hash: seq<seq<Mhead>>, heads: map<Key, Mhead>, m: Mhead)
    requires HashOk(hash, heads) && KeyOf(m.from) !in heads
    ensures var i := m.from.path % MNTHASH; HashOk(hash[i := hash[i] + [m]], heads[KeyOf(m.from) := m])
  {
    var i := m.from.path % MNTHASH;
    var g, h := hash[i := hash[i] + [m]], heads[KeyOf(m.from) := m];
    forall j | 0 <= j < |hash[i]| ensures hash[i][j] != m {
      assert Own(heads, hash[i][j]);
    }
    forall k | k in h ensures h[k] in g[k.path % MNTHASH] {
      if k != KeyOf(m.from) {
        assert heads[k] in hash[k.path % MNTHASH];
      } else {
        assert g[i][|hash[i]|] == m;
      }
    }
    forall l, j | 0 <= l < MNTHASH && 0 <= j < |g[l]| ensures Own(h, g[l][j]) {
      assert j < |hash[l]| ==> Own(heads, hash[l][j]);
    }
  }

  /** A head is in no other chain. */
  lemma NotElsewhere(hash: seq<seq<Mhead>>, heads: map<Key, Mhead>, m: Mhead, l: nat, j: nat)
    requires HashOk(hash, heads) && l < MNTHASH && j < |hash[l]| && l != m.from.path % MNTHASH
    ensures hash[l][j] != m
  {}

  lemma HashDrop(hash: seq<seq<Mhead>>, heads: map<Key, Mhead>, m: Mhead, n: nat)
    requires HashOk(hash, heads) && Own(heads, m) && n < |hash[m.from.path % MNTHASH]| && hash[m.from.path % MNTHASH][n] == m
    ensures var i := m.from.path % MNTHASH; HashOk(hash[i := hash[i][..n] + hash[i][n + 1..]], heads - {KeyOf(m.from)})
  {
    var i := m.from.path % MNTHASH;
    var c := hash[i][..n] + hash[i][n + 1..];
    var g, h := hash[i := c], heads - {KeyOf(m.from)};
    assert forall j :: 0 <= j < |c| ==> c[j] == hash[i][if j < n then j else j + 1];
    forall j | 0 <= j < |c| ensures c[j] != m {}
    forall k | k in h ensures h[k] in g[k.path % MNTHASH] {
      var l := k.path % MNTHASH;
      var j :| 0 <= j < |hash[l]| && hash[l][j] == heads[k];
      if l == i {
        assert j != n;
        assert c[if j < n then j else j - 1] == heads[k];
      }
    }
    forall l, j | 0 <= l < MNTHASH && 0 <= j < |g[l]| ensures Own(h, g[l][j]) {
      if l == i {
        assert Own(heads, hash[i][if j < n then j else j + 1]);
      } else {
        assert Own(heads, hash[l][j]);
        NotElsewhere(hash, heads, m, l, j);
      }
    }
  }

  class Pgrp {
    var mnthash: seq<seq<Mhead>>
    ghost var heads: map<Key, Mhead>

    ghost function Nodes(): set<Mount>
      reads this, heads.Values
    {
      NodesOf(heads)
    }

    ghost predicate Hashed()
      reads this
    {
      HashOk(mnthash, heads)
    }

    ghost predicate Separate()
      reads this, heads.Values
    {
      forall k, l :: k in heads && l in heads && k != l ==> Disjoint(heads[k].nodes, heads[l].nodes)
    }

    ghost predicate Holding(t: Table)
      reads this, heads.Values, Nodes()`next, Nodes()`mountid, Nodes()`mflag
    {
      && heads.Keys == t.Keys
      && (forall k, x :: k in heads && x in heads[k].nodes ==> x in Nodes())
      && forall k :: k in heads ==> HeadIs(heads[k], t[k])
    }

    /** The mount table. */
    ghost predicate Has(t: Table)
      reads this, heads.Values, Nodes()`next, Nodes()`mountid, Nodes()`mflag
    {
      Hashed() && Separate() && Holding(t)
    }

    /** newpgrp */
    constructor ()
      ensures Has(map[])
    {
      mnthash, heads := seq(MNTHASH, _ => []), map[];
    }

    /** Looks for the head of the file of c in its hash chain; l is its place there. */
    method Lookup(c: Chan) returns (m: Mhead?, l: nat)
      requires Hashed()
      ensures m == if KeyOf(c) in heads then heads[KeyOf(c)] else null
      ensures m != null ==> |mnthash| == MNTHASH && l < |mnthash[c.path % MNTHASH]| && mnthash[c.path % MNTHASH][l] == m
    {
      var i := c.path % MNTHASH;
      l := 0;
      while l < |mnthash[i]|
        invariant l <= |mnthash[i]| && forall k :: 0 <= k < l ==> !Eqchan(mnthash[i][k].from, c)
      {
        m := mnthash[i][l];
        assert Own(heads, m);
        if Eqchan(m.from, c) {
          return;
        }
        l := l + 1;
      }
      m := null;
    }

    /** Puts a new head at the end of its chain. */
    method Enter(m: Mhead, ghost d: seq<Mnt>, ghost t: Table)
      requires Has(t) && KeyOf(m.from) !in heads && m.Has(d)
      requires forall k :: k in heads ==> Disjoint(heads[k].nodes, m.nodes) && Disjoint(m.nodes, heads[k].nodes)
      modifies this
      ensures Has(t[KeyOf(m.from) := Head(m.from, d)]) && heads == old(heads)[KeyOf(m.from) := m]
      ensures Nodes() == old(Nodes()) + Elems(m.nodes)
    {
      hide Mhead.Has, Disjoint, HashOk, Elems, NodesOf;
      var i := m.from.path % MNTHASH;
      forall k | k in heads ensures heads[k].Has(t[k].list) && heads[k].from == t[k].from {
        Got(t, k);
      }
      HashPut(mnthash, heads, m);
      HashLen();
      NodesPut(heads, m);
      mnthash := mnthash[i := mnthash[i] + [m]];
      heads := heads[KeyOf(m.from) := m];
      forall k | k in heads ensures HeadIs(heads[k], t[KeyOf(m.from) := Head(m.from, d)][k]) {
      }
    }

    lemma HashLen()
      requires Hashed()
      ensures |mnthash| == MNTHASH
    {}

    /** Only the list of m has changed, to that of h, and what it has was its own or is new. */
    lemma Put(t: Table, m: Mhead, h: Head)
      requires Hashed() && heads.Keys == t.Keys && KeyOf(m.from) in heads && heads[KeyOf(m.from)] == m
      requires m.from == h.from && m.Has(h.list)
      requires forall k :: k in heads && heads[k] != m ==> HeadIs(heads[k], t[k])
      requires forall k, l :: k in heads && l in heads && k != l ==> Disjoint(heads[k].nodes, heads[l].nodes)
      ensures Has(t[KeyOf(m.from) := h])
    {
      forall k | k in heads ensures HeadIs(heads[k], t[KeyOf(m.from) := h][k]) {
        assert KeyOf(heads[k].from) == k;
      }
    }

    lemma Got(t: Table, k: Key)
      requires Has(t) && k in t
      ensures k in heads && heads[k].from == t[k].from && heads[k].Has(t[k].list) && KeyOf(t[k].from) == k
      ensures forall x :: x in heads[k].nodes ==> x in Nodes()
    {
      assert HeadIs(heads[k], t[k]);
    }

    method BindAt(m: Mhead, c: Chan, flag: nat, spec: Option<string>, mh: Mhead?, ids: Ref, ghost t: Table,
        ghost umh: seq<Mnt>) returns (id: nat)
      requires Has(t) && KeyOf(m.from) in heads && heads[KeyOf(m.from)] == m
      requires if mh == null then umh == [] else mh.Has(umh)
      modifies heads.Values, Nodes(), ids
      ensures var k := KeyOf(m.from);
              Has(t[k := t[k].(list := Joined(t[k].list, Brought(umh, c, flag, spec, id), flag))])
              && id == old(ids.n) + 1 && ids.n == old(ids.n) + |Brought(umh, c, flag, spec, id)|
    {
      hide Mhead.Has, Joined, Brought;
      ghost var key := KeyOf(m.from);
      Got(t, key);
      forall k | k in heads && heads[k] != m ensures Disjoint(heads[k].nodes, m.nodes) && heads[k].Has(t[k].list) &&
          heads[k].from == t[k].from {
        Got(t, k);
        assert KeyOf(heads[k].from) == k;
      }
      id := m.Bind(c, flag, spec, mh, ids, t[key].list, umh);
      forall k | k in heads && heads[k] != m
        ensures heads[k].Has(t[k].list)
        ensures Disjoint(heads[k].nodes, m.nodes) && Disjoint(m.nodes, heads[k].nodes)
      {
        assert old(Disjoint(heads[k].nodes, m.nodes));
        assert old(heads[k].Has(t[k].list));
        assert heads[k].nodes == old(heads[k].nodes) && heads[k].mount == old(heads[k].mount);
        assert forall x :: x in heads[k].nodes ==> x.next == old(x.next) && x.mountid == old(x.mountid) && x.mflag == old(x.mflag);
      }
      Put(t, m, t[key].(list := Joined(t[key].list, Brought(umh, c, flag, spec, id), flag)));
    }

    /** cmount: mh is the head of the union that c stands for, if it does. */
    method Cmount(c: Chan, from: Chan, flag: nat, spec: Option<string>, mh: Mhead?, ids: Ref, ghost t: Table,
        ghost umh: seq<Mnt>) returns (r: Done)
      requires Has(t) && if mh == null then umh == [] else mh.Has(umh)
      modifies this, heads.Values, Nodes(), ids
      ensures var (s, d) := MountSpec.Cmount(Ns(t, old(ids.n)), c, from, flag, spec, umh);
              r == d && ids.n == s.last && Has(s.table)
    {
      hide Has, Joined, Brought, Mhead.Has;
      if c.dir != from.dir || (!from.dir && Order(flag) != MREPL) {
        return Emount;
      }
      FirstFlag(mh, umh);
      if Creatable(flag) && mh != null && mh.mount != null && (mh.mount.next != null || !Creatable(mh.mount.mflag)) {
        return Emount;
      }
      ghost var (h, last) := Under(Ns(t, ids.n), from, flag);
      var m := Place(from, flag, ids, t);
      PutTwice(t, KeyOf(from), h, h.(list := Joined(h.list, Brought(umh, c, flag, spec, last + 1), flag)));
      var id := BindAt(m, c, flag, spec, mh, ids, t[KeyOf(from) := h], umh);
      r := Mounted(id);
    }

    /** The head for the file of from, made if there is none. */
    method Place(from: Chan, flag: nat, ids: Ref, ghost t: Table) returns (m: Mhead)
      requires Has(t)
      modifies this, ids
      ensures var (h, last) := Under(Ns(t, old(ids.n)), from, flag);
              Has(t[KeyOf(from) := h]) && ids.n == last && Own(heads, m) && KeyOf(m.from) == KeyOf(from)
      ensures forall x :: x in heads.Values ==> x in old(heads).Values || fresh(x)
      ensures forall x :: x in Nodes() ==> x in old(Nodes()) || fresh(x)
    {
      hide HashOk, Mhead.Has, HeadIs;
      HasHashed(t);
      var l, at := Lookup(from);
      if l == null {
        m := Make(from, flag, ids, t);
      } else {
        m := l;
        Got(t, KeyOf(from));
        assert t[KeyOf(from) := t[KeyOf(from)]] == t;
      }
    }

    /** A new head in its chain. */
    method Make(from: Chan, flag: nat, ids: Ref, ghost t: Table) returns (m: Mhead)
      requires Has(t) && KeyOf(from) !in t
      modifies this, ids
      ensures var (h, last) := Under(Ns(t, old(ids.n)), from, flag); Has(t[KeyOf(from) := h]) && ids.n == last
      ensures Own(heads, m) && KeyOf(m.from) == KeyOf(from) && heads == old(heads)[KeyOf(from) := m] && fresh(m)
      ensures forall x :: x in Nodes() ==> x in old(Nodes()) || fresh(x)
    {
      hide HashOk, Mhead.Has, HeadIs, NodesOf, Hashed;
      m := Newmhead(from, flag, ids);
      Enter(m, Under(Ns(map[], old(ids.n)), from, flag).0.list, t);
    }

    lemma HasHashed(t: Table)
      requires Has(t)
      ensures Hashed() && heads.Keys == t.Keys
    {}

    lemma FirstFlag(mh: Mhead?, umh: seq<Mnt>)
      requires if mh == null then umh == [] else mh.Has(umh)
      ensures mh == null || mh.mount == null <==> umh == []
      ensures umh != [] ==> (mh.mount.next != null <==> |umh| > 1) && mh.mount.mflag == umh[0].flag
    {
      if umh != [] {
        FirstOf(mh.mount, mh.nodes, umh);
        Ends(mh.mount.next, mh.nodes[1..], umh[1..]);
      }
    }

    /** Takes a head out of its chain. */
    method Leave(m: Mhead, l: nat, ghost t: Table)
      requires Has(t) && Own(heads, m) && |mnthash| == MNTHASH
      requires l < |mnthash[m.from.path % MNTHASH]| && mnthash[m.from.path % MNTHASH][l] == m
      modifies this
      ensures Has(t - {KeyOf(m.from)}) && heads == old(heads) - {KeyOf(m.from)}
    {
      hide Mhead.Has, Disjoint, HashOk, HeadIs;
      var i := m.from.path % MNTHASH;
      HashDrop(mnthash, heads, m, l);
      mnthash := mnthash[i := mnthash[i][..l] + mnthash[i][l + 1..]];
      heads := heads - {KeyOf(m.from)};
    }

    /** The list of m without the first entry for c, if it has one. */
    method UnbindAt(m: Mhead, c: Chan, ghost t: Table) returns (found: bool)
      requires Has(t) && Own(heads, m)
      modifies heads.Values, Nodes()
      ensures var h := t[KeyOf(m.from)];
              var n := Find(h.list, c);
              && found == (n < |h.list|)
              && Has(t[KeyOf(m.from) := if found then h.(list := h.list[..n] + h.list[n + 1..]) else h])
              && (found ==> (m.mount == null <==> |h.list| == 1))
    {
      hide Mhead.Has;
      ghost var key := KeyOf(m.from);
      Got(t, key);
      ghost var d := t[key].list;
      forall k | k in heads && heads[k] != m ensures Disjoint(heads[k].nodes, m.nodes) && heads[k].Has(t[k].list) &&
          heads[k].from == t[k].from {
        Got(t, k);
        assert KeyOf(heads[k].from) == k;
      }
      found := m.Unbind(c, d);
      forall k | k in heads && heads[k] != m
        ensures heads[k].Has(t[k].list)
        ensures Disjoint(heads[k].nodes, m.nodes) && Disjoint(m.nodes, heads[k].nodes)
      {
        assert old(Disjoint(heads[k].nodes, m.nodes));
        assert old(heads[k].Has(t[k].list));
        assert heads[k].nodes == old(heads[k].nodes) && heads[k].mount == old(heads[k].mount);
        assert forall x :: x in heads[k].nodes ==> x.next == old(x.next) && x.mountid == old(x.mountid) && x.mflag == old(x.mflag);
      }
      ghost var e := if found then d[..Find(d, c)] + d[Find(d, c) + 1..] else d;
      EmptyIs(m, e);
      Put(t, m, t[key].(list := e));
    }

    lemma EmptyIs(m: Mhead, d: seq<Mnt>)
      requires m.Has(d)
      ensures m.mount == null <==> d == []
    {}

    /** cunmount: of everything, or of one thing mounted. The last takes the head along. */
    method Cunmount(mnt: Chan, mounted: Option<Chan>, ghost ids: nat, ghost t: Table) returns (r: Done)
      requires Has(t)
      modifies this, heads.Values, Nodes()
      ensures var (s, d) := MountSpec.Cunmount(Ns(t, ids), mnt, mounted); r == d && ids == s.last && Has(s.table)
    {
      hide HashOk, Mhead.Has, HeadIs, Find;
      HasHashed(t);
      var m, l := Lookup(mnt);
      if m == null {
        return Eunmount;
      }
      ghost var k := KeyOf(mnt);
      Got(t, k);
      if mounted == None {
        Unmountall(m, l, t);
        return Unmounted;
      }
      r := Unmountone(m, l, mounted.value, t);
    }

    /** The part of cunmount for everything: the head loses its list. */
    method Unmountall(m: Mhead, l: nat, ghost t: Table)
      requires Has(t) && Own(heads, m) && |mnthash| == MNTHASH
      requires l < |mnthash[m.from.path % MNTHASH]| && mnthash[m.from.path % MNTHASH][l] == m
      modifies this, m`mount
      ensures Has(t - {KeyOf(m.from)}) && m.mount == null
    {
      hide HashOk, Mhead.Has;
      Leave(m, l, t);
      Gone(m);
      m.mount := null;
    }

    lemma Gone(m: Mhead)
      requires Hashed() && KeyOf(m.from) !in heads
      ensures forall k :: k in heads ==> heads[k] != m
    {}

    /** The part of cunmount for one thing mounted. */
    method Unmountone(m: Mhead, l: nat, c: Chan, ghost t: Table) returns (r: Done)
      requires Has(t) && Own(heads, m) && |mnthash| == MNTHASH
      requires l < |mnthash[m.from.path % MNTHASH]| && mnthash[m.from.path % MNTHASH][l] == m
      modifies this, heads.Values, Nodes()
      ensures var k := KeyOf(m.from);
              var d := t[k].list;
              var n := Find(d, c);
              && r == (if n == |d| then Eunion else Unmounted)
              && Has(if n == |d| then t else if |d| == 1 then t - {k} else t[k := t[k].(list := d[..n] + d[n + 1..])])
    {
      hide HashOk, Mhead.Has, HeadIs, Find;
      ghost var k := KeyOf(m.from);
      ghost var h := t[k];
      var found := UnbindAt(m, c, t);
      if !found {
        assert t[k := h] == t;
        return Eunion;
      }
      ghost var n := Find(h.list, c);
      if m.mount == null {
        ghost var u := t[k := h.(list := h.list[..n] + h.list[n + 1..])];
        Leave(m, l, u);
        assert u - {k} == t - {k};
      }
      r := Unmounted;
    }
  }
}
