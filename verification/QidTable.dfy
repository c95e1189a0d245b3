/**
 The table of exportfs/exportfs.c that gives every file of the host, known by type, dev
 and path, a qid path of its own. Paths are seen as unsigned 64-bit numbers, whose top
 16 bits are replaced when two files would share one.
 */
module QidTable {
  import opened Bytes

  const NQIDTAB := 32
  const QIDPATH := 0x1_0000_0000_0000  // one more than the mask of 48 bits
  const NEWQIDS := 0x1_0000            // newqid runs from 1 to one less than this

  datatype Key = Key(ty: int, dev: int, path: nat)

  datatype Entry = Entry(key: Key, ref: int, uniqpath: nat)

  /** The path tried on a collision: (path & QIDPATH) | newqid<<48. */
  function Candidate(path: nat, newqid: nat): nat { path % QIDPATH + newqid * QIDPATH }

  lemma CandidatesDiffer(path: nat, m: nat, n: nat)
    requires m != n
    ensures Candidate(path, m) != Candidate(path, n)
  {}

  /** The values newqid takes after start, up to q; the count wraps from 65535 to 1. */
  predicate Tried(start: nat, q: nat, wrapped: bool, k: nat) {
    0 < k < NEWQIDS && if wrapped then k > start || k <= q else start < k <= q
  }

  /** Different candidates in use belong to different entries. */
  lemma {:induction false} InUse(tried: set<nat>, path: nat, m: map<Key, Entry>, held: set<Key>)
    requires held <= m.Keys
    requires forall k :: k in tried ==> exists j :: j in held && m[j].uniqpath == Candidate(path, k)
    ensures |tried| <= |held|
  {
    if tried != {} {
      var k :| k in tried;
      var j :| j in held && m[j].uniqpath == Candidate(path, k);
      forall k' | k' in tried - {k} ensures exists j' :: j' in held - {j} && m[j'].uniqpath == Candidate(path, k') {
        var j' :| j' in held && m[j'].uniqpath == Candidate(path, k');
        CandidatesDiffer(path, k, k');
        assert j' in held - {j};
      }
      InUse(tried - {k}, path, m, held - {j});
    }
  }

  function Upto(n: nat): set<nat> { if n == 0 then {} else Upto(n - 1) + {n} }

  lemma {:induction false} UptoSize(n: nat)
    ensures |Upto(n)| == n && forall k :: k in Upto(n) <==> 0 < k <= n
  {
    if n > 0 {
      UptoSize(n - 1);
    }
  }

  ghost predicate Used(m: map<Key, Entry>, path: nat) {
    exists j :: j in m && m[j].uniqpath == path
  }

  /** With n candidates in use there are n entries; a full turn of newqid needs 65535. */
  lemma Turn(path: nat, m: map<Key, Entry>, n: nat)
    requires forall k :: 0 < k <= n ==> Used(m, Candidate(path, k))
    ensures |m| >= n
  {
    UptoSize(n);
    var all := Upto(n);
    forall k | k in all ensures exists j :: j in m.Keys && m[j].uniqpath == Candidate(path, k) {
      assert Used(m, Candidate(path, k));
      var j :| j in m && m[j].uniqpath == Candidate(path, k);
      assert j in m.Keys;
    }
    InUse(all, path, m, m.Keys);
    assert |m| == |m.Keys|;
  }

  /** Whether the collision loop can end: the path itself, or one of the 65535 that newqid
      makes of it, is not in use. Without one, every path it tries is taken. */
  ghost predicate Findable(m: map<Key, Entry>, path: nat) {
    !Used(m, path) || exists k :: 0 < k < NEWQIDS && !Used(m, Candidate(path, k))
  }

  /** With fewer than 65535 entries it always can. */
  lemma FewEntries(m: map<Key, Entry>, path: nat)
    requires |m| < NEWQIDS - 1
    ensures Findable(m, path)
  {
    if forall k :: 0 < k <= NEWQIDS - 1 ==> Used(m, Candidate(path, k)) {
      Turn(path, m, NEWQIDS - 1);
    }
  }

  lemma NotAllTried(m: map<Key, Entry>, path: nat, start: nat, q: nat, wrapped: bool)
    requires Findable(m, path) && Used(m, path) && start < NEWQIDS
    requires forall k :: Tried(start, q, wrapped, k) ==> Used(m, Candidate(path, k))
    ensures !(wrapped && q == start) && !(!wrapped && start == 0 && q == NEWQIDS - 1)
  {
    var k :| 0 < k < NEWQIDS && !Used(m, Candidate(path, k));
    assert !Tried(start, q, wrapped, k);
  }

  /** newqid after n rounds of the loop. */
  function Round(newqid: nat, n: nat): nat {
    if n == 0 then newqid
    else
      var q := Round(newqid, n - 1) + 1;
      if q >= NEWQIDS then 1 else q
  }

  /** The path the loop looks at in round n. */
  function PathAt(path: nat, newqid: nat, n: nat): nat {
    if n == 0 then path else Candidate(path, Round(newqid, n))
  }

  lemma {:induction false} RoundUp(newqid: nat, n: nat)
    requires newqid + n < NEWQIDS
    ensures Round(newqid, n) == newqid + n
  {
    if n > 0 {
      RoundUp(newqid, n - 1);
    }
  }

  lemma {:induction false} RoundIn(newqid: nat, n: nat)
    requires newqid < NEWQIDS && n > 0
    ensures 0 < Round(newqid, n) < NEWQIDS
  {
    if n > 1 {
      RoundIn(newqid, n - 1);
    }
  }

  lemma {:induction false} RoundOn(newqid: nat, m: nat, n: nat)
    ensures Round(newqid, m + n) == Round(Round(newqid, m), n)
  {
    if n > 0 {
      RoundOn(newqid, m, n - 1);
    }
  }

  /** The loop comes to every value of newqid. */
  lemma Comes(newqid: nat, k: nat) returns (n: nat)
    requires newqid < NEWQIDS && 0 < k < NEWQIDS
    ensures n > 0 && Round(newqid, n) == k
  {
    hide Round;
    if k > newqid {
      n := k - newqid;
      RoundUp(newqid, n);
    } else {
      var m: nat := NEWQIDS - 1 - newqid;
      RoundUp(newqid, m);
      RoundOn(newqid, m, 1);
      AtTop();
      RoundOn(newqid, m + 1, k - 1);
      RoundUp(1, k - 1);
      n := m + k;
    }
  }

  lemma AtTop()
    ensures Round(NEWQIDS - 1, 1) == 1
  {}

  /** The collision loop ends, in some round, exactly if a path is findable. */
  lemma EndsExactly(m: map<Key, Entry>, path: nat, newqid: nat)
    requires newqid < NEWQIDS
    ensures (exists n: nat :: !Used(m, PathAt(path, newqid, n))) <==> Findable(m, path)
  {
    hide Round, Candidate;
    if Findable(m, path) {
      if !Used(m, path) {
        assert !Used(m, PathAt(path, newqid, 0));
      } else {
        var k :| 0 < k < NEWQIDS && !Used(m, Candidate(path, k));
        var n := Comes(newqid, k);
        assert !Used(m, PathAt(path, newqid, n));
      }
    }
    if n: nat :| !Used(m, PathAt(path, newqid, n)) && n > 0 {
      RoundIn(newqid, n);
    }
  }

  /** Entry e is in chain h, where it belongs, and in the map. */
  predicate Placed(e: Entry, h: nat, hash: nat -> nat, m: map<Key, Entry>) {
    hash(e.key.path) == h && e.key in m && m[e.key] == e
  }

  /** A chain whose entries are placed, one for each file. */
  predicate ChainOk(c: seq<Entry>, h: nat, hash: nat -> nat, m: map<Key, Entry>) {
    && (forall i :: 0 <= i < |c| ==> Placed(c[i], h, hash, m))
    && (forall i, j :: 0 <= i < j < |c| ==> c[i].key != c[j].key)
  }

  predicate Chains(t: seq<seq<Entry>>, hash: nat -> nat, m: map<Key, Entry>) {
    && |t| == NQIDTAB
    && (forall h :: 0 <= h < NQIDTAB ==> ChainOk(t[h], h, hash, m))
  }

  predicate Found(k: Key, t: seq<seq<Entry>>, hash: nat -> nat, m: map<Key, Entry>) {
    && |t| == NQIDTAB && hash(k.path) < NQIDTAB
    && (k in m ==> m[k].key == k && m[k] in t[hash(k.path)] && m[k].ref > 0)
  }

  ghost predicate AllFound(t: seq<seq<Entry>>, hash: nat -> nat, m: map<Key, Entry>) {
    forall k :: Found(k, t, hash, m)
  }

  /** No two entries have the same unique path. */
  predicate Unique(m: map<Key, Entry>) {
    forall j, k :: j in m && k in m && j != k ==> m[j].uniqpath != m[k].uniqpath
  }

  lemma Added(t: seq<seq<Entry>>, hash: nat -> nat, m: map<Key, Entry>, e: Entry)
    requires Chains(t, hash, m) && AllFound(t, hash, m) && e.key !in m && e.ref > 0 && hash(e.key.path) < NQIDTAB
    ensures var h := hash(e.key.path);
            Chains(t[h := [e] + t[h]], hash, m[e.key := e]) && AllFound(t[h := [e] + t[h]], hash, m[e.key := e])
  {
    var h := hash(e.key.path);
    var u, n := t[h := [e] + t[h]], m[e.key := e];
    forall g | 0 <= g < NQIDTAB ensures ChainOk(u[g], g, hash, n) {
      assert ChainOk(t[g], g, hash, m);
      forall i | 0 <= i < |u[g]| ensures Placed(u[g][i], g, hash, n) {
        assert g != h || i > 0 ==> Placed(t[g][if g == h then i - 1 else i], g, hash, m);
      }
      if g == h {
        forall i, j | 0 <= i < j < |u[g]| ensures u[g][i].key != u[g][j].key {
          assert Placed(t[g][j - 1], g, hash, m);
        }
      }
    }
    forall k ensures Found(k, u, hash, n) {
      assert Found(k, t, hash, m);
      assert e in u[h];
      assert hash(k.path) == h ==> forall x :: x in t[h] ==> x in u[h];
    }
  }

  lemma Replaced(t: seq<seq<Entry>>, hash: nat -> nat, m: map<Key, Entry>, i: nat, e: Entry)
    requires Chains(t, hash, m) && AllFound(t, hash, m) && e.key in m && e.ref > 0 && hash(e.key.path) < NQIDTAB
    requires i < |t[hash(e.key.path)]| && t[hash(e.key.path)][i] == m[e.key]
    ensures var h := hash(e.key.path);
            Chains(t[h := t[h][i := e]], hash, m[e.key := e]) && AllFound(t[h := t[h][i := e]], hash, m[e.key := e])
  {
    var h := hash(e.key.path);
    var u, n := t[h := t[h][i := e]], m[e.key := e];
    assert ChainOk(t[h], h, hash, m) && Placed(t[h][i], h, hash, m) && Found(e.key, t, hash, m);
    forall g | 0 <= g < NQIDTAB ensures ChainOk(u[g], g, hash, n) {
      assert ChainOk(t[g], g, hash, m);
      forall j | 0 <= j < |u[g]| ensures Placed(u[g][j], g, hash, n) {
        assert Placed(t[g][j], g, hash, m);
      }
    }
    forall k ensures Found(k, u, hash, n) {
      assert Found(k, t, hash, m);
      if k == e.key {
        assert u[h][i] == e;
      } else if k in m && hash(k.path) == h {
        var j :| 0 <= j < |t[h]| && t[h][j] == m[k];
        assert u[h][j] == m[k];
      }
    }
  }

  lemma Removed(t: seq<seq<Entry>>, hash: nat -> nat, m: map<Key, Entry>, i: nat, k: Key)
    requires Chains(t, hash, m) && AllFound(t, hash, m) && k in m && hash(k.path) < NQIDTAB
    requires i < |t[hash(k.path)]| && t[hash(k.path)][i] == m[k]
    ensures var h := hash(k.path);
            var u := t[h := t[h][..i] + t[h][i + 1..]];
            Chains(u, hash, m - {k}) && AllFound(u, hash, m - {k})
  {
    var h := hash(k.path);
    var c := t[h][..i] + t[h][i + 1..];
    var u, n := t[h := c], m - {k};
    assert ChainOk(t[h], h, hash, m) && Placed(t[h][i], h, hash, m) && Found(k, t, hash, m);
    forall g | 0 <= g < NQIDTAB ensures ChainOk(u[g], g, hash, n) {
      assert ChainOk(t[g], g, hash, m);
      forall j | 0 <= j < |u[g]| ensures Placed(u[g][j], g, hash, n) {
        assert Placed(t[g][if g == h && j >= i then j + 1 else j], g, hash, m);
      }
    }
    forall x ensures Found(x, u, hash, n) {
      assert Found(x, t, hash, m);
      if x in n && hash(x.path) == h {
        var j :| 0 <= j < |t[h]| && t[h][j] == m[x];
        assert c[if j < i then j else j - 1] == m[x];
      }
    }
  }

  class Table {
    const hash: nat -> nat         // qidhash: any function into the chains
    const tab: array<seq<Entry>>
    var newqid: nat
    ghost var m: map<Key, Entry>   // the same entries, by key

    ghost predicate Valid()
      reads this, tab
    {
      && Chains(tab[..], hash, m)
      && AllFound(tab[..], hash, m)
      && Unique(m)
      && newqid < NEWQIDS
    }

    constructor (hash: nat -> nat)
      requires forall p: nat :: hash(p) < NQIDTAB
      ensures Valid() && m == map[] && newqid == 0 && this.hash == hash && fresh(tab)
    {
      this.hash := hash;
      tab := new seq<Entry>[NQIDTAB](_ => []);
      newqid, m := 0, map[];
      new;
      assert forall k: Key :: Found(k, tab[..], hash, m);
    }

    method Qidlookup(k: Key) returns (e: Option<Entry>)
      requires Valid()
      ensures e == if k in m then Some(m[k]) else None
    {
      assert Found(k, tab[..], hash, m);
      var c := tab[hash(k.path)];
      assert c == tab[..][hash(k.path)] && ChainOk(c, hash(k.path), hash, m);
      var i := 0;
      while i < |c|
        invariant i <= |c| && forall j :: 0 <= j < i ==> c[j].key != k
      {
        if c[i].key == k {
          assert Placed(c[i], hash(k.path), hash, m);
          return Some(c[i]);
        }
        i := i + 1;
      }
      e := None;
    }

    method Qidexists(path: nat) returns (found: bool)
      requires Valid()
      ensures found <==> Used(m, path)
    {
      var h := 0;
      while h < NQIDTAB
        invariant h <= NQIDTAB
        invariant forall g, j :: 0 <= g < h && 0 <= j < |tab[g]| ==> tab[g][j].uniqpath != path
      {
        var c, i := tab[h], 0;
        assert ChainOk(tab[..][h], h, hash, m);
        while i < |c|
          invariant i <= |c| && forall j :: 0 <= j < i ==> c[j].uniqpath != path
        {
          if c[i].uniqpath == path {
            assert Placed(c[i], h, hash, m);
            return true;
          }
          i := i + 1;
        }
        h := h + 1;
      }
      Nowhere(path);
      found := false;
    }

    lemma Nowhere(path: nat)
      requires Valid() && forall g, j :: 0 <= g < NQIDTAB && 0 <= j < |tab[g]| ==> tab[g][j].uniqpath != path
      ensures !Used(m, path)
    {
      forall k | k in m ensures m[k].uniqpath != path {
        assert Found(k, tab[..], hash, m);
        var j :| 0 <= j < |tab[hash(k.path)]| && tab[hash(k.path)][j] == m[k];
      }
    }

    /** The entry of a file: the one it has, with another reference, or a new one with a
        path no entry has. The search ends as long as some path is left for it. */
    method Uniqueqid(k: Key) returns (e: Entry)
      requires Valid() && (k in m || Findable(m, k.path))
      modifies `newqid, `m, tab
      ensures Valid() && m == old(m)[k := e] && e.key == k
      ensures k in old(m) ==> e == old(m)[k].(ref := old(m)[k].ref + 1) && newqid == old(newqid)
      ensures k !in old(m) ==> e.ref == 1 && !Used(old(m), e.uniqpath)
      ensures k !in old(m) && !Used(old(m), k.path) ==> e.uniqpath == k.path && newqid == old(newqid)
      ensures k !in old(m) && Used(old(m), k.path) ==> e.uniqpath == Candidate(k.path, newqid) && newqid > 0
    {
      var q := Qidlookup(k);
      FoundAt(k);
      if q.Some? {
        e := q.value.(ref := q.value.ref + 1);
        Replace(e);
        return;
      }
      var path := Newpath(k.path);
      e := Entry(k, 1, path);
      Add(e);
    }

    /** The collision loop. */
    method Newpath(path0: nat) returns (path: nat)
      requires Valid() && Findable(m, path0)
      modifies `newqid
      ensures Valid() && !Used(m, path)
      ensures if Used(m, path0) then path == Candidate(path0, newqid) && newqid > 0 else path == path0 && newqid == old(newqid)
    {
      path := path0;
      ghost var start, wrapped := newqid, false;
      var found := Qidexists(path);
      while found
        invariant newqid < NEWQIDS
        invariant if wrapped then 0 < newqid <= start else start <= newqid
        invariant found <==> Used(m, path)
        invariant (path == path0 && !wrapped && newqid == start) || (path == Candidate(path0, newqid) && newqid > 0 &&
            Used(m, path0))
        invariant forall k :: Tried(start, newqid, wrapped, k) && (k != newqid || found) ==> Used(m, Candidate(path0, k))
        decreases if wrapped then start - newqid else NEWQIDS + start - newqid
      {
        NotAllTried(m, path0, start, newqid, wrapped);
        path := path % QIDPATH;
        newqid := newqid + 1;
        if newqid >= NEWQIDS {
          newqid, wrapped := 1, true;
        }
        path := path + newqid * QIDPATH;
        found := Qidexists(path);
      }
    }

    method Add(e: Entry)
      requires Valid() && e.key !in m && e.ref > 0 && !Used(m, e.uniqpath)
      modifies `m, tab
      ensures Valid() && m == old(m)[e.key := e]
    {
      hide Chains, AllFound;
      FoundAt(e.key);
      var h := hash(e.key.path);
      Added(tab[..], hash, m, e);
      tab[h] := [e] + tab[h];
      m := m[e.key := e];
      assert tab[..] == old(tab[..])[h := [e] + old(tab[..])[h]];
    }

    lemma FoundAt(k: Key)
      requires Valid()
      ensures Found(k, tab[..], hash, m) && tab.Length == NQIDTAB
    {}

    /** The place of a key in its chain. */
    method Place(k: Key) returns (i: nat)
      requires Valid() && k in m
      ensures hash(k.path) < tab.Length && i < |tab[hash(k.path)]| && tab[hash(k.path)][i] == m[k]
    {
      FoundAt(k);
      var c := tab[hash(k.path)];
      assert ChainOk(tab[..][hash(k.path)], hash(k.path), hash, m);
      i := 0;
      while c[i].key != k
        invariant i < |c| && m[k] in c[i..]
        decreases |c| - i
      {
        i := i + 1;
      }
      assert Placed(c[i], hash(k.path), hash, m);
    }

    method Replace(e: Entry)
      requires Valid() && e.key in m && e.ref > 0 && e.uniqpath == m[e.key].uniqpath
      modifies `m, tab
      ensures Valid() && m == old(m)[e.key := e]
    {
      hide Chains, AllFound;
      FoundAt(e.key);
      var h := hash(e.key.path);
      var i := Place(e.key);
      Replaced(tab[..], hash, m, i, e);
      tab[h] := tab[h][i := e];
      m := m[e.key := e];
      assert tab[..] == old(tab[..])[h := old(tab[..])[h][i := e]];
    }

    /** Gives up a reference; the entry goes with the last one. */
    method Freeqid(k: Key)
      requires Valid() && k in m
      modifies `m, tab
      ensures Valid()
      ensures m == if old(m)[k].ref > 1 then old(m)[k := old(m)[k].(ref := old(m)[k].ref - 1)] else old(m) - {k}
    {
      hide Chains, AllFound;
      FoundAt(k);
      var h := hash(k.path);
      var i := Place(k);
      var e := tab[h][i];
      if e.ref - 1 > 0 {
        Replace(e.(ref := e.ref - 1));
        return;
      }
      Removed(tab[..], hash, m, i, k);
      tab[h] := tab[h][..i] + tab[h][i + 1..];
      m := m - {k};
      ghost var was := old(tab[..])[h];
      assert tab[..] == old(tab[..])[h := was[..i] + was[i + 1..]];
    }
  }
}
