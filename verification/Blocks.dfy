/**
 Blocks and linked lists of blocks, as in kern/allocb.c and the block-list half
 of kern/qio.c. A block is a buffer with the window rp..wp of its data; addresses
 are counted from the start of the buffer. The value of a list is the list of the
 data of its blocks, and the list is correct when every operation has the effect
 on the flattened bytes that its callers count on.
 */
module Blocks {
  import opened Bytes

  const HDRSPC := 64
  const TLRSPC := 16
  const BLOCKALIGN := 8

  function Round(n: nat): nat { (n + BLOCKALIGN - 1) / BLOCKALIGN * BLOCKALIGN }

  /** The addresses _allocb chooses; start is the address after the Block header. */
  function Base(start: nat): nat { Round(start) }

  function Lim(start: nat, size: nat): nat { (start + size + TLRSPC + HDRSPC) / BLOCKALIGN * BLOCKALIGN }

  function First(start: nat, size: nat): int { Lim(start, size) - Round(size + TLRSPC) }

  /** The buffer lies inside the allocation, the data starts aligned with at least
      48 bytes before it and room for size + TLRSPC bytes after it: the panic of
      _allocb cannot happen. */
  lemma AllocbFits(start: nat, size: nat)
    ensures start <= Base(start) && Lim(start, size) <= start + size + TLRSPC + HDRSPC
    ensures Base(start) + 48 <= First(start, size) <= Base(start) + HDRSPC
    ensures First(start, size) + size + TLRSPC <= Lim(start, size)
    ensures First(start, size) % BLOCKALIGN == 0
  {}

  /** The full HDRSPC is not guaranteed: of the 64 bytes the rounding can take 16. */
  lemma HeadroomCanBe48()
    ensures First(1, 1) == Base(1) + 48
  {}

  /** A block and its buffer are one allocation, so the buffer is part of the object. */
  class Block {
    const size: nat       // lim - base
    var mem: seq<byte>    // the bytes from base to lim
    var rp: nat           // first unconsumed byte
    var wp: nat           // first empty byte
    var next: Block?

    constructor (start: nat, n: nat)
      ensures rp == wp == First(start, n) - Base(start) && rp >= 48
      ensures size == Lim(start, n) - Base(start) && rp + n + TLRSPC <= size
      ensures next == null && Has([])
    {
      AllocbFits(start, n);
      size := Lim(start, n) - Base(start);
      mem := seq(Lim(start, n) - Base(start), i => 0);
      rp, wp := First(start, n) - Base(start), First(start, n) - Base(start);
      next := null;
    }

    ghost predicate Has(data: seq<byte>)
      reads `mem, `rp, `wp
    {
      |mem| == size && rp <= wp <= size && mem[rp..wp] == data
    }

    lemma Length(data: seq<byte>)
      requires Has(data)
      ensures wp - rp == |data| && wp <= size
    {}

    /** memmove(wp, p, |p|); wp += |p| */
    method Copy(p: seq<byte>, ghost data: seq<byte>)
      requires Has(data) && wp + |p| <= size
      modifies `mem, `wp
      ensures Has(data + p) && wp == old(wp) + |p|
    {
      mem := mem[..wp] + p + mem[wp + |p|..];
      wp := wp + |p|;
    }

    /** The first n bytes of the data. */
    method Peek(n: nat, ghost data: seq<byte>) returns (p: seq<byte>)
      requires Has(data) && n <= |data|
      ensures p == data[..n]
    {
      p := mem[rp..rp + n];
    }

    method Skip(n: nat, ghost data: seq<byte>)
      requires Has(data) && n <= |data|
      modifies `rp
      ensures Has(data[n..]) && rp == old(rp) + n
    {
      rp := rp + n;
    }

    /** Leaves p in the block, k bytes on, as its only data. */
    method Put(k: nat, p: seq<byte>, ghost data: seq<byte>)
      requires Has(data) && k + |p| <= |data|
      modifies `mem, `rp, `wp
      ensures Has(p)
    {
      rp := rp + k;
      wp := rp + |p|;
      mem := mem[..rp] + p + mem[wp..];
    }

    /** rp -= |p|; memmove(rp, p, |p|) */
    method Restore(p: seq<byte>, ghost data: seq<byte>)
      requires Has(data) && |p| <= rp
      modifies `mem, `rp
      ensures Has(p + data) && rp == old(rp) - |p|
    {
      rp := rp - |p|;
      mem := mem[..rp] + p + mem[rp + |p|..];
    }

    method Trim(n: nat, ghost data: seq<byte>)
      requires Has(data) && n <= |data|
      modifies `wp
      ensures Has(data[..|data| - n]) && wp == old(wp) - n
    {
      wp := wp - n;
    }
  }

  ghost predicate Chain(b: Block?, l: seq<Block>)
    reads l`next
  {
    && b == (if l == [] then null else l[0])
    && (forall i {:trigger l[i].next} :: 0 <= i < |l| ==> l[i].next == if i + 1 < |l| then l[i + 1] else null)
  }

  ghost predicate Apart(l: seq<Block>) {
    forall i, j :: 0 <= i < j < |l| ==> l[i] != l[j]
  }

  /** The blocks of l hold the strings of d. */
  ghost predicate Holds(l: seq<Block>, d: seq<seq<byte>>)
    reads l`mem, l`rp, l`wp
  {
    && |l| == |d|
    && forall i :: 0 <= i < |l| ==> l[i].Has(d[i])
  }

  /** A well-formed list: l are the blocks reached from b, and d is their data. */
  ghost predicate List(b: Block?, l: seq<Block>, d: seq<seq<byte>>)
    reads l`next, l`mem, l`rp, l`wp
  {
    Chain(b, l) && Apart(l) && Holds(l, d)
  }

  lemma Uncons(b: Block?, l: seq<Block>, d: seq<seq<byte>>)
    requires List(b, l, d) && l != []
    ensures d != [] && b == l[0] && l[0].Has(d[0]) && List(l[0].next, l[1..], d[1..])
    ensures l[0] !in l[1..]
  {
    assert l[0].next == if 1 < |l| then l[1] else null;
    forall i {:trigger l[1..][i].next} | 0 <= i < |l[1..]|
      ensures l[1..][i].next == if i + 1 < |l[1..]| then l[1..][i + 1] else null
    {
      assert l[i + 1].next == if i + 2 < |l| then l[i + 2] else null;
    }
    forall i | 0 <= i < |l[1..]| ensures l[1..][i].Has(d[1..][i]) {
      assert l[i + 1].Has(d[i + 1]);
    }
  }

  lemma Cons(b: Block, l: seq<Block>, x: seq<byte>, d: seq<seq<byte>>)
    requires List(b.next, l, d) && b.Has(x) && b !in l
    ensures List(b, [b] + l, [x] + d)
  {
    var m, e := [b] + l, [x] + d;
    forall i {:trigger m[i].next} | 0 <= i < |m| ensures m[i].next == if i + 1 < |m| then m[i + 1] else null {
      if i > 0 {
        assert l[i - 1].next == if i < |l| then l[i] else null;
      }
    }
    forall i | 0 <= i < |m| ensures m[i].Has(e[i]) {
      if i > 0 {
        assert l[i - 1].Has(d[i - 1]);
      }
    }
    forall i, j | 0 <= i < j < |m| ensures m[i] != m[j] {
      assert m[j] in l;
    }
  }

  /** What Shift does to the strings. */
  function Shifted(d: seq<seq<byte>>, i: nat): seq<seq<byte>>
    requires |d| >= 2 && i <= |d[1]|
  {
    [d[0] + d[1][..i]] + ([d[1][i..]] + d[2..])
  }

  lemma ShiftedFlat(d: seq<seq<byte>>, i: nat)
    requires |d| >= 2 && i <= |d[1]|
    ensures Flat(Shifted(d, i)) == Flat(d)
  {
    var x, y, z := d[0], d[1][..i], d[1][i..];
    assert d[1] == y + z && d[1..][1..] == d[2..];
    FlatCons(x + y, [z] + d[2..]);
    FlatCons(z, d[2..]);
  }

  lemma Parts(b: Block?, l: seq<Block>, d: seq<seq<byte>>)
    requires List(b, l, d) && |l| >= 2
    ensures |d| >= 2 && l[0].Has(d[0]) && l[1].Has(d[1]) && l[0].next == l[1] && List(l[1].next, l[2..], d[2..])
    ensures l[0] != l[1] && l[0] !in l[2..] && l[1] !in l[2..]
    ensures l == [l[0]] + ([l[1]] + l[2..])
  {
    Uncons(b, l, d);
    Uncons(l[0].next, l[1..], d[1..]);
    assert l[1..][1..] == l[2..] && d[1..][1..] == d[2..] && l[1] in l[1..];
    assert forall x :: x in l[2..] ==> x in l[1..];
  }

  /** Moves the first i bytes of the second block to the end of the first. */
  method Shift(bp: Block, nbp: Block, i: nat, ghost l: seq<Block>, ghost d: seq<seq<byte>>)
    requires List(bp, l, d) && |l| >= 2 && nbp == l[1]
    requires i <= |d[1]| && bp.wp + i <= bp.size
    modifies bp`wp, bp`mem, nbp`rp
    ensures List(bp, l, Shifted(d, i)) && bp.wp == old(bp.wp) + i
  {
    Parts(bp, l, d);
    hide *;
    var p := nbp.Peek(i, d[1]);
    bp.Copy(p, d[0]);
    nbp.Skip(i, d[1]);
    Cons(nbp, l[2..], d[1][i..], d[2..]);
    Cons(bp, [nbp] + l[2..], d[0] + d[1][..i], [d[1][i..]] + d[2..]);
    ShiftedIs(d, i);
  }

  lemma ShiftedIs(d: seq<seq<byte>>, i: nat)
    requires |d| >= 2 && i <= |d[1]|
    ensures Shifted(d, i) == [d[0] + d[1][..i]] + ([d[1][i..]] + d[2..])
  {}

  /** Unlinks the second block, which is empty. */
  method Unlink(bp: Block, ghost l: seq<Block>, ghost d: seq<seq<byte>>)
      returns (ghost m: seq<Block>, ghost e: seq<seq<byte>>)
    requires List(bp, l, d) && |l| >= 2 && d[1] == []
    modifies bp`next
    ensures m == [l[0]] + l[2..] && e == [d[0]] + d[2..] && List(bp, m, e) && Flat(e) == Flat(d)
  {
    Parts(bp, l, d);
    hide List;
    bp.next := bp.next.next;
    m, e := [l[0]] + l[2..], [d[0]] + d[2..];
    Cons(bp, l[2..], d[0], d[2..]);
    FlatCons(d[0], d[2..]);
    assert d[1..][1..] == d[2..];
  }

  lemma HeadOfFlat(d: seq<seq<byte>>)
    requires d != []
    ensures |d[0]| <= |Flat(d)| && Flat(d)[..|d[0]|] == d[0]
    ensures |d| == 1 ==> Flat(d) == d[0]
  {}

  /** Puts a new empty block with room for n bytes in front. */
  method Push(bp: Block, n: nat, start: nat, ghost l: seq<Block>, ghost d: seq<seq<byte>>)
      returns (nbp: Block)
    requires List(bp, l, d)
    ensures fresh(nbp) && nbp.wp + n <= nbp.size
    ensures List(nbp, [nbp] + l, [[]] + d) && Flat([[]] + d) == Flat(d)
  {
    hide List;
    nbp := new Block(start, n);
    nbp.next := bp;
    Cons(nbp, l, [], d);
    FlatCons([], d);
  }

  /** Gathers the first n bytes in the first block. The bytes of the list do not
      change; when there are fewer than n, the list is freed and null returned. */
  method Pullupblock(b: Block, n: nat, start: nat, ghost l: seq<Block>, ghost d: seq<seq<byte>>)
      returns (bp: Block?, ghost m: seq<Block>, ghost e: seq<seq<byte>>)
    requires List(b, l, d) && l != []
    modifies l
    ensures bp == null <==> |Flat(d)| < n
    ensures bp != null ==> List(bp, m, e) && m != [] && Flat(e) == Flat(d)
    ensures bp != null ==> |e[0]| == if |d[0]| < n then n else |d[0]|
    ensures forall x :: x in m ==> x in l || fresh(x)
  {
    bp, m, e := b, l, d;
    HeadOfFlat(d);
    Uncons(b, l, d);
    if b.wp - b.rp >= n {
      return;
    }
    if b.size - b.rp < n {
      bp := Push(b, n, start, l, d);
      m, e := [bp] + l, [[]] + d;
      Uncons(bp, m, e);
    }
    ghost var all, was := m, e;
    bp, m, e := Gather(bp, n - (bp.wp - bp.rp), m, e);
    assert forall x :: x in m ==> x in all;
  }

  /** The loop of Pullupblock: the first block gets k more bytes from the others. */
  method Gather(b: Block, k: nat, ghost l: seq<Block>, ghost d: seq<seq<byte>>)
      returns (bp: Block?, ghost m: seq<Block>, ghost e: seq<seq<byte>>)
    requires List(b, l, d) && k > 0 && b.wp + k <= b.size
    modifies l
    ensures d != [] && (bp == null <==> |Flat(d)| < |d[0]| + k)
    ensures bp != null ==> List(bp, m, e) && m != [] && Flat(e) == Flat(d) && e != [] && |e[0]| == |d[0]| + k
    ensures forall x :: x in m ==> x in l
  {
    hide *;
    LastBlock(b, l, d);
    bp, m, e := b, l, d;
    var left := k;
    while bp.next != null
      invariant bp != null && m != [] && m[0] == bp && List(bp, m, e) && Flat(e) == Flat(d)
      invariant 0 < left && |e| > 0 && |e[0]| + left == |d[0]| + k && bp.wp + left <= bp.size
      invariant forall x :: x in m ==> x in l
      decreases |m|
    {
      PartsIn(bp, m, e);
      bp, m, e, left := Pull(bp, left, m, e);
      if left == 0 {
        HeadOfFlat(e);
        return;
      }
    }
    LastBlock(bp, m, e);
    HeadOfFlat(e);
    bp, m := null, [];
  }

  lemma PartsIn(b: Block, m: seq<Block>, e: seq<seq<byte>>)
    requires List(b, m, e) && b.next != null
    ensures b in m && b.next in m
  {
    LastBlock(b, m, e);
    assert m[0].next == m[1];
  }

  lemma LastBlock(bp: Block, m: seq<Block>, e: seq<seq<byte>>)
    requires List(bp, m, e)
    ensures |m| == |e| >= 1 && m[0] == bp
    ensures bp.next == null <==> |m| == 1
  {
    assert m[0].next == if 1 < |m| then m[1] else null;
  }

  /** One round of Pullupblock: up to k bytes come from the second block. */
  method Pull(b: Block, k: nat, ghost m: seq<Block>, ghost e: seq<seq<byte>>)
      returns (bp: Block, ghost m': seq<Block>, ghost e': seq<seq<byte>>, k': nat)
    requires List(b, m, e) && b.next != null && b.wp + k <= b.size && k > 0
    modifies b, b.next
    ensures bp == b && List(b, m', e') && Flat(e') == Flat(e) && b.wp + k' <= b.size
    ensures m' != [] && m'[0] == b && e' != [] && |e'[0]| + k' == |e[0]| + k
    ensures k' > 0 ==> |m'| < |m|
    ensures forall x :: x in m' ==> x in m
  {
    LastBlock(b, m, e);
    Parts(b, m, e);
    bp, m' := b, m;
    var nbp := b.next;
    var i := nbp.wp - nbp.rp;
    hide List;
    if i > k {
      ShiftedFlat(e, k);
      Shift(bp, nbp, k, m, e);
      e', k' := Shifted(e, k), 0;
    } else {
      ShiftedFlat(e, i);
      Shift(bp, nbp, i, m, e);
      m', e' := Unlink(bp, m, Shifted(e, i));
      k' := k - i;
    }
  }

  /** Cuts n bytes off the end of a; whichever part is shorter is copied. */
  method Splitblock(a: Block, n: nat, start: nat, ghost x: seq<byte>) returns (head: Block, tail: Block)
    requires a.Has(x) && n <= |x| && a.next == null
    modifies a`rp, a`wp
    ensures head.Has(x[..|x| - n]) && tail.Has(x[|x| - n..])
    ensures head.next == null && tail.next == null
    ensures (head == a && fresh(tail)) || (tail == a && fresh(head))
  {
    var m := a.wp - a.rp - n;
    if m < n {
      head := new Block(start, m);
      tail := a;
      var p := a.Peek(m, x);
      head.Copy(p, []);
      a.Skip(m, x);
    } else {
      tail := new Block(start, n);
      head := a;
      a.wp := a.wp - n;
      tail.Copy(a.mem[a.wp..a.wp + n], []);
    }
  }

  /** The bytes of a list, counted. */
  method Blocklen(b: Block?, ghost l: seq<Block>, ghost d: seq<seq<byte>>) returns (n: nat)
    requires List(b, l, d)
    ensures n == |Flat(d)|
  {
    var bp := b;
    ghost var m, e := l, d;
    n := 0;
    LengthOf(b, l, d);
    while bp != null
      invariant List(bp, m, e) && |m| == |e| && (bp == null <==> m == [])
      invariant n + |Flat(e)| == |Flat(d)|
      decreases |m|
    {
      Uncons(bp, m, e);
      n := n + (bp.wp - bp.rp);
      bp, m, e := bp.next, m[1..], e[1..];
    }
  }

  lemma LengthOf(b: Block?, l: seq<Block>, d: seq<seq<byte>>)
    requires List(b, l, d)
    ensures |l| == |d| && (b == null <==> l == []) && (l != [] ==> b == l[0]) && (l == [] ==> Flat(d) == [])
  {}

  /** The part of one block that a copy of n bytes from offset o takes. */
  method Share(b: Block, o: nat, n: nat, ghost x: seq<byte>, ghost y: seq<byte>)
      returns (q: seq<byte>, o': nat, n': nat)
    requires b.Has(x)
    ensures q + Window(y, o', n') == Window(x + y, o, n)
  {
    WindowStep(x, y, o, n);
    var m := b.wp - b.rp;
    if o >= m {
      return [], o - m, n;
    }
    m := if n < m - o then n else m - o;
    q := b.mem[b.rp + o..b.rp + o + m];
    forall i | 0 <= i < m ensures q[i] == x[o..o + m][i] {
      assert x[o + i] == b.mem[b.rp + o + i];
    }
    o', n' := 0, n - m;
  }

  /** Copies up to n bytes out of a list, from offset o. */
  method Readblist(b: Block?, n: nat, o: nat, ghost l: seq<Block>, ghost d: seq<seq<byte>>) returns (p: seq<byte>)
    requires List(b, l, d)
    ensures p == Window(Flat(d), o, n)
  {
    hide *;
    var bp := b;
    var left: nat, skip: nat := n, o;
    ghost var m, e := l, d;
    p := [];
    LengthOf(b, l, d);
    while left > 0 && bp != null
      invariant List(bp, m, e) && |m| == |e| && (bp == null <==> m == [])
      invariant p + Window(Flat(e), skip, left) == Window(Flat(d), o, n)
      decreases |m|
    {
      Uncons(bp, m, e);
      LengthOf(bp.next, m[1..], e[1..]);
      FlatCons(e[0], e[1..]);
      assert e == [e[0]] + e[1..];
      var q: seq<byte>;
      q, skip, left := Share(bp, skip, left, e[0], Flat(e[1..]));
      p := p + q;
      bp, m, e := bp.next, m[1..], e[1..];
    }
    LengthOf(bp, m, e);
    WindowEnd(Flat(e), skip, left);
  }

  lemma WindowEnd(s: seq<byte>, o: nat, n: nat)
    ensures s == [] || n == 0 ==> Window(s, o, n) == []
  {}

  /** The bytes of s from offset o, at most n of them. */
  function Window(s: seq<byte>, o: nat, n: nat): seq<byte> {
    if o >= |s| then [] else if n <= |s| - o then s[o..o + n] else s[o..]
  }

  lemma WindowStep(x: seq<byte>, y: seq<byte>, o: nat, n: nat)
    ensures o >= |x| ==> Window(x + y, o, n) == Window(y, o - |x|, n)
    ensures o < |x| ==> var k := if n < |x| - o then n else |x| - o;
                        Window(x + y, o, n) == x[o..o + k] + Window(y, 0, n - k)
  {}
}
