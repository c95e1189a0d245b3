/** The Queue of kern/qio.c: a linked list of blocks with its counters and flags. */
module Qio {
  import opened Bytes
  import opened Blocks
  import opened QueueSpec

  datatype Err = NoErr | Hungup | Other

  /** The outcomes of qwait; Sleep stands for the wait at its rendezvous. */
  datatype Wait = Sleep | Eof | Fail | Ready

  function Alloc(l: seq<Block>): nat {
    if l == [] then 0 else l[0].size + Alloc(l[1..])
  }

  lemma {:induction false} AllocConcat(l: seq<Block>, m: seq<Block>)
    ensures Alloc(l + m) == Alloc(l) + Alloc(m)
  {
    if l == [] {
      assert l + m == m;
    } else {
      assert (l + m)[1..] == l[1..] + m;
      AllocConcat(l[1..], m);
    }
  }

  lemma Join(b: Block, l: seq<Block>, d: seq<seq<byte>>, b2: Block?, m: seq<Block>, e: seq<seq<byte>>)
    requires l != [] && b == l[0] && Apart(l) && Disjoint(l, m) && Holds(l, d) && List(b2, m, e)
    requires forall i {:trigger l[i].next} :: 0 <= i < |l| ==> l[i].next == if i + 1 < |l| then l[i + 1] else b2
    ensures List(b, l + m, d + e)
  {
    var lm, de := l + m, d + e;
    forall i {:trigger lm[i].next} | 0 <= i < |lm| ensures lm[i].next == if i + 1 < |lm| then lm[i + 1] else null {
      if i < |l| {
        assert l[i].next == if i + 1 < |l| then l[i + 1] else b2;
      } else {
        assert m[i - |l|].next == if i - |l| + 1 < |m| then m[i - |l| + 1] else null;
      }
    }
    forall i, j | 0 <= i < j < |lm| ensures lm[i] != lm[j] {
      if j >= |l| {
        assert m[j - |l|] == lm[j] && m[j - |l|] in m;
        assert i >= |l| ==> m[i - |l|] == lm[i];
        assert i < |l| ==> lm[i] in l;
      }
    }
    forall i | 0 <= i < |lm| ensures lm[i].Has(de[i]) {
      assert if i < |l| then l[i].Has(d[i]) else m[i - |l|].Has(e[i - |l|]);
    }
  }

  predicate Disjoint(l: seq<Block>, m: seq<Block>) {
    forall i, j :: 0 <= i < |l| && 0 <= j < |m| ==> l[i] != m[j]
  }

  /** Links m after the list l, whose last block is last. */
  method Append(b: Block, last: Block, ghost l: seq<Block>, ghost d: seq<seq<byte>>, b2: Block,
                ghost m: seq<Block>, ghost e: seq<seq<byte>>)
    requires List(b, l, d) && l != [] && last == l[|l| - 1] && Disjoint(l, m) && List(b2, m, e)
    modifies last`next
    ensures List(b, l + m, d + e) && List(b2, m, e)
  {
    assert forall i :: 0 <= i < |m| ==> (l + m)[|l| + i] == m[i];
    assert forall i :: 0 <= i < |l| - 1 ==> l[i] != last;
    assert forall i {:trigger l[i].next} :: 0 <= i < |l| - 1 ==> l[i].next == l[i + 1];
    assert last !in m;
    last.next := b2;
    Join(b, l, d, b2, m, e);
  }

  class Queue {
    var bfirst: Block?
    var blast: Block?
    var len: int   // bytes allocated to the queue
    var dlen: int  // data bytes in the queue
    var limit: nat
    const f: Flags
    var noblock: bool
    var closed: bool
    var starve: bool
    var flow: bool
    var eof: nat
    var err: Err
    ghost var list: seq<Block>
    ghost var data: seq<seq<byte>>

    ghost predicate Valid()
      reads `bfirst, `blast, `dlen, `list, `data, list`next, list`mem, list`rp, list`wp
    {
      && List(bfirst, list, data)
      && (list != [] ==> blast == list[|list| - 1])
      && dlen == |Flat(data)|
    }

    /** How far len is from the bytes allocated. */
    ghost function Drift(): int
      reads `len, `list
    {
      len - Alloc(list)
    }

    constructor (limit: nat, f: Flags)
      ensures Valid() && data == [] && list == [] && Drift() == 0
      ensures this.limit == limit && this.f == f && starve && !closed && !flow && !noblock && eof == 0 && err == NoErr
    {
      bfirst, blast, len, dlen := null, null, 0, 0;
      this.limit, this.f := limit, f;
      noblock, closed, starve, flow, eof, err := false, false, true, false, 0, NoErr;
      list, data := [], [];
    }

    method Qaddlist(b: Block, ghost l: seq<Block>, ghost d: seq<seq<byte>>) returns (n: nat)
      requires Valid() && List(b, l, d) && l != [] && Disjoint(list, l)
      modifies `bfirst, `blast, `len, `dlen, `list, `data, list`next
      ensures Valid() && list == old(list) + l && data == old(data) + d
      ensures n == |Flat(d)| && Drift() == old(Drift())
    {
      hide List, Chain, Apart, Holds, Flat, Alloc, Disjoint, Block.Has;
      EmptyIff();
      AllocConcat(list, l);
      FlatConcat(data, d);
      var head := Attach(bfirst, blast, b, list, data, l, d);
      var last, a;
      a, n, last := Count(b, l, d);
      bfirst, blast := head, last;
      len, dlen := len + a, dlen + n;
      list, data := list + l, data + d;
    }

    lemma EmptyIff()
      requires Valid()
      ensures |list| == |data| && (bfirst == null <==> list == [])
      ensures list != [] ==> bfirst == list[0] && bfirst.Has(data[0])
    {}

    lemma LastOfTail(l: seq<Block>)
      requires l != []
      ensures |l| > 1 ==> l[1..][|l[1..]| - 1] == l[|l| - 1]
      ensures l == [l[0]] + l[1..]
    {}

    /** Takes the first block off the queue. */
    method Qremove() returns (b: Block?)
      requires Valid()
      modifies `bfirst, `len, `dlen, `list, `data, list`next
      ensures b == null <==> old(data) == []
      ensures b == null ==> data == old(data) && list == old(list) && Valid()
      ensures b != null ==> && Valid() && old(list) == [b] + list && data == old(data)[1..]
                            && b.Has(old(data)[0]) && b.next == null && b !in list
      ensures Drift() == old(Drift())
    {
      hide List, Chain, Apart, Holds, Flat, Alloc, Disjoint, Block.Has;
      EmptyIff();
      b := bfirst;
      if b == null {
        return;
      }
      Uncons(bfirst, list, data);
      FlatCons(data[0], data[1..]);
      assert data == [data[0]] + data[1..];
      AllocCons(b, list[1..]);
      LastOfTail(list);
      b.Length(data[0]);
      bfirst := b.next;
      b.next := null;
      len, dlen := len - b.size, dlen - (b.wp - b.rp);
      list, data := list[1..], data[1..];
    }

    /** Puts a block back in front. */
    method Qputback(b: Block, ghost x: seq<byte>)
      requires Valid() && b.Has(x) && b !in list
      modifies `bfirst, `blast, `len, `dlen, `list, `data, b`next
      ensures Valid() && list == [b] + old(list) && data == [x] + old(data)
      ensures Drift() == old(Drift())
    {
      hide List, Chain, Apart, Holds, Flat, Alloc, Disjoint, Block.Has;
      EmptyIff();
      FlatCons(x, data);
      AllocCons(b, list);
      b.Length(x);
      b.next := bfirst;
      if bfirst == null {
        blast := b;
      }
      ghost var l, d := [b] + list, [x] + data;
      Cons(b, list, x, data);
      bfirst := b;
      len, dlen := len + b.size, dlen + (b.wp - b.rp);
      list, data := l, d;
    }

    /** qwait: Sleep is the wait at the rendezvous, with the producer asked to wake us. */
    method Qwait() returns (w: Wait)
      requires Valid()
      modifies `starve, `eof
      ensures data != [] ==> w == Ready && eof == old(eof) && starve == old(starve)
      ensures data == [] && !closed ==> w == Sleep && eof == old(eof) && starve
      ensures data == [] && closed ==> eof == old(eof) + 1 && starve == old(starve)
      ensures data == [] && closed ==> w == if eof > 3 || err == Other then Fail else Eof
    {
      EmptyIff();
      if bfirst != null {
        return Ready;
      }
      if closed {
        eof := eof + 1;
        if eof > 3 || err == Other {
          return Fail;
        }
        return Eof;
      }
      starve := true;
      return Sleep;
    }

    /** qwakeup_iunlock: a flow-controlled writer is woken when the queue is below
        half its limit. */
    method Qwakeup() returns (wake: bool)
      modifies `flow
      ensures wake <==> old(flow) && len < limit / 2
      ensures flow == (old(flow) && !wake)
    {
      wake := flow && len < limit / 2;
      if wake {
        flow := false;
      }
    }

    /** Cuts k bytes off the end of a block taken from the queue: they go back to the
        queue, or are dropped when messages are kept apart. */
    method Excess(b: Block, k: nat, start: nat, ghost x: seq<byte>) returns (r: Block)
      requires Valid() && b.Has(x) && b.next == null && b !in list && k <= |x|
      modifies `bfirst, `blast, `len, `dlen, `list, `data, b
      ensures Valid() && Drift() == old(Drift())
      ensures r.Has(x[..|x| - k]) && r.next == null && r !in list && (r == b || fresh(r))
      ensures data == if f.msg then old(data) else [x[|x| - k..]] + old(data)
      ensures f.msg ==> list == old(list)
      ensures !f.msg ==> list != [] && list[1..] == old(list) && (list[0] == b || fresh(list[0]))
    {
      hide List, Chain, Apart, Holds, Flat, Alloc, Disjoint, Block.Has;
      if f.msg {
        r := b;
        b.Trim(k, x);
      } else {
        var tail;
        r, tail := Splitblock(b, k, start, x);
        Qputback(tail, x[|x| - k..]);
      }
    }

    /** The next block, cut to n bytes. */
    method Qbread(n: nat, start: nat) returns (w: Wait, b: Block?, wake: bool)
      requires Valid()
      modifies `bfirst, `blast, `len, `dlen, `list, `data, `starve, `eof, `flow, list
      ensures Valid() && Drift() == old(Drift()) && flow == (old(flow) && !wake)
      ensures wake == (w == Ready && old(flow) && len < limit / 2)
      ensures w == Ready <==> old(data) != []
      ensures w != Ready ==> b == null && data == old(data)
      ensures w == Ready ==> var t := TakeBlock(old(data), n, f.msg);
                             b != null && b.Has(t.out) && b.next == null && b !in list && data == t.rest
    {
      hide List, Chain, Apart, Holds, Flat, Alloc, Disjoint, Block.Has;
      wake := false;
      w := Qwait();
      if w != Ready {
        return w, null, false;
      }
      ghost var x, l := data[0], list;
      b := Qremove();
      assert b == l[0];
      b.Length(x);
      var m := b.wp - b.rp;
      if m > n {
        b := Excess(b, m - n, start, x);
        assert |x| - (m - n) == n;
      }
      wake := Qwakeup();
    }

    /** Of a queue that held l0 with data d0, the blocks fl, linked from first to prev,
        and then b have been taken. */
    ghost predicate Taking(first: Block?, prev: Block?, b: Block, l0: seq<Block>, d0: seq<seq<byte>>,
                           fl: seq<Block>, fd: seq<seq<byte>>, x: seq<byte>)
      reads this, list`next, list`mem, list`rp, list`wp, fl, b
    {
      && Valid()
      && l0 == fl + [b] + list && d0 == fd + [x] + data
      && List(first, fl, fd) && (fl != [] ==> prev == fl[|fl| - 1])
      && b.Has(x) && b.next == null && b !in fl && b !in list && Disjoint(fl, list)
    }

    /** Links b after the blocks taken before it, and takes the next block. */
    method GrabNext(first0: Block?, prev0: Block?, b0: Block, ghost l0: seq<Block>, ghost d0: seq<seq<byte>>,
                    ghost fl: seq<Block>, ghost fd: seq<seq<byte>>, ghost x0: seq<byte>, ghost x: seq<byte>)
        returns (first: Block?, prev: Block, b: Block)
      requires data != [] && Taking(first0, prev0, b0, l0, d0, fl, fd, x0) && x == data[0]
      modifies `bfirst, `len, `dlen, `list, `data, l0
      ensures Drift() == old(Drift()) && data == old(data)[1..] && |list| < |old(list)|
      ensures Taking(first, prev, b, l0, d0, fl + [b0], fd + [x0], x)
    {
      hide List, Chain, Apart, Holds, Alloc, Block.Has, Flat;
      Members(l0, fl, b0, list);
      Single(b0, x0);
      NotIn(fl, b0);
      MoreApart(fl, b0, list);
      first := Attach(first0, prev0, b0, fl, fd, [b0], [x0]);
      prev := b0;
      ghost var l, d := list, data;
      b := Qremove();
      MoreRest(l0, fl + [b0], b, list, d0, fd + [x0], x, data);
    }

    /** The blocks a coalescing read takes: b is the last, the ones before it are linked. */
    method Grab(n: nat) returns (first: Block?, prev: Block?, b: Block, m: nat,
                                 ghost fl: seq<Block>, ghost fd: seq<seq<byte>>, ghost x: seq<byte>)
      requires Valid() && data != []
      modifies `bfirst, `len, `dlen, `list, `data, list
      ensures Drift() == old(Drift())
      ensures Taking(first, prev, b, old(list), old(data), fl, fd, x)
      ensures |fd| + 1 == Reach(old(data), n) && m == |Flat(fd)| + |x| && |Flat(fd)| <= n
    {
      hide *;
      first, prev, fl, fd := null, null, [], [];
      ghost var l0, d0 := list, data;
      b, x := TakeFirst();
      m := b.wp - b.rp;
      while m < n && bfirst != null
        invariant Taking(first, prev, b, l0, d0, fl, fd, x) && Drift() == old(Drift())
        invariant m == |Flat(fd)| + |x| && |Flat(fd)| <= n
        invariant |fd| + Reach([x] + data, n - |Flat(fd)|) == Reach(d0, n)
        decreases |list|
      {
        TakingFacts(first, prev, b, l0, d0, fl, fd, x);
        FlatAppend(fd, x);
        ReachStep(x, data, n - |Flat(fd)|);
        ghost var b0, x0 := b, x;
        x := data[0];
        first, prev, b := GrabNext(first, prev, b, l0, d0, fl, fd, x0, x);
        fl, fd := fl + [b0], fd + [x0];
        TakingFacts(first, prev, b, l0, d0, fl, fd, x);
        m := m + (b.wp - b.rp);
      }
      TakingFacts(first, prev, b, l0, d0, fl, fd, x);
      ReachEnd(x, data, n - |Flat(fd)|);
    }

    lemma TakingFacts(first: Block?, prev: Block?, b: Block, l0: seq<Block>, d0: seq<seq<byte>>,
                      fl: seq<Block>, fd: seq<seq<byte>>, x: seq<byte>)
      requires Taking(first, prev, b, l0, d0, fl, fd, x)
      ensures Valid() && b.Has(x) && b.wp - b.rp == |x| && d0 == fd + [x] + data
      ensures bfirst == null <==> data == []
      ensures b in l0
    {
      assert l0[|fl|] == b;
    }

    method TakeFirst() returns (b: Block, ghost x: seq<byte>)
      requires Valid() && data != []
      modifies `bfirst, `len, `dlen, `list, `data, list
      ensures Drift() == old(Drift()) && x == old(data)[0] && b.wp - b.rp == |x|
      ensures Taking(null, null, b, old(list), old(data), [], [], x) && old(data) == [x] + data
      ensures Flat<byte>([]) == []
    {
      hide List, Chain, Apart, Holds, Alloc, Block.Has;
      x := data[0];
      b := Qremove();
      b.Length(x);
      EmptyList();
    }

    /** Advances the first block taken. */
    method SkipTaken(b: Block, k: nat, ghost l0: seq<Block>, ghost d0: seq<seq<byte>>, ghost x: seq<byte>)
      requires Taking(null, null, b, l0, d0, [], [], x) && k <= |x|
      modifies b`rp
      ensures Taking(null, null, b, l0, [x[k..]] + data, [], [], x[k..])
    {
      hide List, Chain, Apart, Holds, Alloc, Block.Has;
      b.Skip(k, x);
      EmptyList();
      assert [] + [x[k..]] + data == [x[k..]] + data;
    }

    /** The end of qread: what is over n goes back, and the taken blocks are copied out. */
    method Deliver(n: nat, start: nat, first: Block?, prev: Block?, b: Block, m: nat,
                   ghost l0: seq<Block>, ghost d0: seq<seq<byte>>,
                   ghost fl: seq<Block>, ghost fd: seq<seq<byte>>, ghost x: seq<byte>) returns (p: seq<byte>)
      requires Taking(first, prev, b, l0, d0, fl, fd, x) && m == |Flat(fd)| + |x| && |Flat(fd)| <= n
      modifies `bfirst, `blast, `len, `dlen, `list, `data, l0
      ensures Valid() && Drift() == old(Drift())
      ensures var t := Cutoff(Flat(fd + [x]), old(data), n, f.msg); p == t.out && data == t.rest
    {
      hide List, Chain, Apart, Holds, Alloc, Block.Has, Flat, Window, Cutoff;
      var last := b;
      ghost var y := x;
      Members(l0, fl, b, list);
      if m > n && !f.msg {
        last := Excess(b, m - n, start, x);
        y := x[..|x| - (m - n)];
        StillApart(fl, b, list);
      }
      Single(last, y);
      NotIn(fl, last);
      var head := Attach(first, prev, last, fl, fd, [last], [y]);
      p := Readblist(head, n, 0, fl + [last], fd + [y]);
      CutoffIs(fd, x, old(data), n, f.msg);
    }

    /** The data qread takes its bytes from. */
    ghost function Readable(): seq<seq<byte>>
      reads `data
    {
      if f.coalesce then SkipEmpty(data) else data
    }

    /** Waits for data; when coalescing, empty blocks just go away. */
    method SkipWait() returns (w: Wait)
      requires Valid()
      modifies `bfirst, `len, `dlen, `list, `data, `starve, `eof, list
      ensures Valid() && Drift() == old(Drift()) && data == old(Readable())
      ensures w == Ready <==> data != []
      ensures forall i :: 0 <= i < |list| ==> list[i] in old(list)
    {
      hide List, Chain, Apart, Holds, Alloc, Block.Has, Flat;
      w := Qwait();
      ghost var l0 := list;
      ghost var d0 := Readable();
      EmptyIff();
      while w == Ready && f.coalesce && bfirst.wp - bfirst.rp == 0
        invariant Valid() && Drift() == old(Drift()) && Readable() == d0
        invariant w == Ready <==> data != []
        invariant |list| == |data| && (list != [] ==> bfirst == list[0] && bfirst.Has(data[0]))
        invariant forall i :: 0 <= i < |list| ==> list[i] in l0
        decreases |data|
      {
        bfirst.Length(data[0]);
        ghost var l := list;
        var b := Qremove();
        assert forall i :: 0 <= i < |list| ==> list[i] == l[i + 1];
        w := Qwait();
        EmptyIff();
      }
      if w == Ready {
        bfirst.Length(data[0]);
      }
    }

    /** At most n bytes from the queue. */
    method Qread(n: nat, start: nat) returns (w: Wait, p: seq<byte>, wake: bool)
      requires Valid()
      modifies `bfirst, `blast, `len, `dlen, `list, `data, `starve, `eof, `flow, list
      ensures Valid() && Drift() == old(Drift()) && flow == (old(flow) && !wake)
      ensures wake == (w == Ready && old(flow) && len < limit / 2)
      ensures w == Ready <==> old(Readable()) != []
      ensures w != Ready ==> p == [] && data == []
      ensures w == Ready ==> var t := TakeRead(old(Readable()), n, f.msg, f.coalesce); p == t.out && data == t.rest
    {
      hide List, Chain, Apart, Holds, Alloc, Block.Has, Flat, Reach, SkipEmpty, Taking;
      wake := false;
      w := SkipWait();
      if w != Ready {
        return w, [], false;
      }
      ghost var d, l := data, list;
      var first: Block?, prev: Block?, b, m := null, null, bfirst, 0;
      ghost var fl, fd, x := [], [], [];
      if f.coalesce {
        first, prev, b, m, fl, fd, x := Grab(n);
      } else {
        b, x := TakeFirst();
        m := b.wp - b.rp;
      }
      TakingFacts(first, prev, b, l, d, fl, fd, x);
      ghost var rest := data;
      p := Deliver(n, start, first, prev, b, m, l, d, fl, fd, x);
      TakenIs(d, fd, x, rest, n, f);
      wake := Qwakeup();
    }

    /** Adds the blocks of b, unless the queue is closed, or full and not to wait for.
        Only a closed queue is an error; what is dropped counts as written. */
    method Qbwrite(b: Block, ghost l: seq<Block>, ghost d: seq<seq<byte>>) returns (r: Wrote, n: nat, wake: bool)
      requires Valid() && List(b, l, d) && l != [] && Disjoint(list, l)
      modifies `bfirst, `blast, `len, `dlen, `list, `data, `starve, list`next
      ensures Valid() && Drift() == old(Drift())
      ensures r == if closed then Refused else if noblock && old(len) >= limit then Dropped else Queued
      ensures r == Queued ==> data == old(data) + d && list == old(list) + l && !starve && wake == old(starve)
      ensures r != Queued ==> data == old(data) && list == old(list) && starve == old(starve) && !wake && len == old(len)
      ensures r != Refused ==> n == |Flat(d)|
    {
      hide List, Chain, Apart, Holds, Alloc, Block.Has, Flat, Disjoint;
      if closed {
        return Refused, 0, false;
      }
      if len >= limit && noblock {
        n := Blocklen(b, l, d);
        return Dropped, n, false;
      }
      n := Qaddlist(b, l, d);
      r, wake := Queued, starve;
      starve := false;
    }

    /** One test of qflow: whether the writer has to wait, with the reader asked to wake it. */
    method Qflow() returns (wait: bool)
      modifies `flow
      ensures wait <==> !noblock && len >= limit && !closed
      ensures flow == (old(flow) || wait)
    {
      wait := !(noblock || len < limit || closed);
      if wait {
        flow := true;
      }
    }

    /** Writes p in pieces. A queue that does not wait may take only the first k. */
    method Qwrite(p: seq<byte>, start: nat) returns (r: Wrote, ghost k: nat)
      requires Valid()
      modifies `bfirst, `blast, `len, `dlen, `list, `data, `starve, list`next
      ensures Valid() && Drift() == old(Drift())
      ensures r == Refused <==> closed
      ensures closed ==> data == old(data)
      ensures !closed ==> k <= |Pieces(p, f.msg)| && data == old(data) + Pieces(p, f.msg)[..k]
      ensures !closed && k < |Pieces(p, f.msg)| ==> noblock && len >= limit
      ensures !closed && k > 0 ==> !starve
    {
      hide List, Chain, Apart, Holds, Alloc, Block.Has, Flat, Disjoint, Pieces;
      if closed {
        return Refused, 0;
      }
      var sofar, more := 0, true;
      ghost var done: seq<seq<byte>>, was, l0 := [], data, list;
      k := 0;
      assert p[0..] == p && [] + Pieces(p, f.msg) == Pieces(p, f.msg);
      while more
        invariant Valid() && Drift() == old(Drift()) && sofar <= |p|
        invariant Pieces(p, f.msg) == if more then done + Pieces(p[sofar..], f.msg) else done
        invariant k <= |done| && data == was + done[..k]
        invariant (k < |done| ==> noblock && len >= limit) && (k > 0 ==> !starve)
        invariant forall i :: 0 <= i < |list| ==> list[i] in l0 || fresh(list[i])
        decreases if more then |p| - sofar + 1 else 0
      {
        var n := if |p| - sofar > MAXATOMIC then MAXATOMIC else |p| - sofar;
        FirstPiece(p[sofar..], f.msg);
        var piece := p[sofar..sofar + n];
        assert piece == p[sofar..][..n];
        k := WritePiece(piece, start, k, done, was);
        done := done + [piece];
        assert p[sofar..][n..] == p[sofar + n..];
        sofar := sofar + n;
        more := sofar < |p| && !f.msg;
      }
      r := Queued;
    }

    method WritePiece(piece: seq<byte>, start: nat, ghost k: nat, ghost done: seq<seq<byte>>, ghost was: seq<seq<byte>>)
        returns (ghost k': nat)
      requires Valid() && !closed && k <= |done| && data == was + done[..k]
      requires (k < |done| ==> noblock && len >= limit) && (k > 0 ==> !starve)
      modifies `bfirst, `blast, `len, `dlen, `list, `data, `starve, list`next
      ensures Valid() && Drift() == old(Drift()) && k <= k' <= |done| + 1
      ensures data == was + (done + [piece])[..k'] && (k' < |done| + 1 ==> noblock && len >= limit) && (k' > 0 ==> !starve)
      ensures forall i :: 0 <= i < |list| ==> list[i] in old(list) || fresh(list[i])
    {
      hide List, Chain, Apart, Holds, Alloc, Block.Has, Flat, Pieces;
      var b := new Block(start, |piece|);
      b.Copy(piece, []);
      assert [] + piece == piece;
      Single(b, piece);
      var r, _, _ := Qbwrite(b, [b], [piece]);
      k' := if r == Queued then k + 1 else k;
      assert (done + [piece])[..k] == done[..k];
      if r == Queued {
        assert done[..k] == done && (done + [piece])[..k + 1] == done + [piece];
        assert was + done + [piece] == was + (done + [piece]);
      }
    }

    /** Throws away the next n bytes, or all there are. */
    method Qdiscard(n: nat) returns (sofar: nat, wake: bool)
      requires Valid()
      modifies `bfirst, `len, `dlen, `list, `data, `flow, list
      ensures Valid() && Drift() == old(Drift())
      ensures data == Discard(old(data), n)
      ensures sofar == if n <= |Flat(old(data))| then n else |Flat(old(data))|
      ensures wake == (old(flow) && len < limit) && flow == (old(flow) && !wake)
    {
      hide List, Chain, Apart, Holds, Alloc, Block.Has, Flat, Discard;
      sofar := 0;
      ghost var l0, d0 := list, data;
      EmptyIff();
      while sofar < n && bfirst != null
        invariant Valid() && Drift() == old(Drift()) && sofar <= n
        invariant flow == old(flow) && Discard(data, n - sofar) == Discard(d0, n)
        invariant sofar + |Flat(data)| == |Flat(d0)|
        invariant |list| == |data| && (bfirst == null <==> list == [])
        invariant forall i :: 0 <= i < |list| ==> list[i] in l0
        decreases n - sofar, |list|
      {
        ghost var l := list;
        DiscardStep(data, n - sofar);
        var k := DiscardFirst(n - sofar);
        assert forall i :: 0 <= i < |list| ==> list[i] == l[i + |l| - |list|];
        sofar := sofar + k;
        EmptyIff();
      }
      DiscardEnd(data, n - sofar);
      wake := flow && len < limit;
      if wake {
        flow := false;
      }
    }

    /** Throws away the first block, or its first n bytes. */
    method DiscardFirst(n: nat) returns (k: nat)
      requires Valid() && data != [] && n > 0
      modifies `bfirst, `len, `dlen, `list, `data, list
      ensures Valid() && Drift() == old(Drift())
      ensures k == if |old(data)[0]| <= n then |old(data)[0]| else n
      ensures k + |Flat(data)| == |Flat(old(data))|
      ensures |old(data)[0]| <= n ==> data == old(data)[1..] && list == old(list)[1..]
      ensures |old(data)[0]| > n ==> data == [old(data)[0][n..]] + old(data)[1..] && list == old(list)
    {
      hide List, Chain, Apart, Holds, Alloc, Block.Has, Flat;
      EmptyIff();
      bfirst.Length(data[0]);
      FlatCons(data[0], data[1..]);
      assert data == [data[0]] + data[1..];
      var b := bfirst;
      k := b.wp - b.rp;
      if k <= n {
        b := Qremove();
        return;
      }
      k := n;
      FlatCons(data[0][n..], data[1..]);
      Uncons(b, list, data);
      b.Skip(n, data[0]);
      Cons(b, list[1..], data[0][n..], data[1..]);
      assert list == [b] + list[1..];
      dlen := dlen - n;
      data := [data[0][n..]] + data[1..];
    }

    /** Gathers the first n bytes in the first block. With fewer the blocks are lost,
        and the counters are not set back. */
    method Pullupqueue(n: nat, start: nat) returns (nb: Block?)
      requires Valid() && data != []
      modifies `bfirst, `blast, `list, `data, list
      ensures nb == bfirst
      ensures nb == null <==> |Flat(old(data))| < n
      ensures nb == null ==> list == []
      ensures nb != null ==> Valid() && data != [] && nb.Has(data[0])
      ensures nb != null ==> Flat(data) == Flat(old(data)) && |data[0]| >= n
      ensures forall i :: 0 <= i < |list| ==> list[i] in old(list) || fresh(list[i])
    {
      hide List, Chain, Apart, Holds, Alloc, Block.Has, Flat;
      EmptyIff();
      bfirst.Length(data[0]);
      HeadOfFlat(data);
      if bfirst.wp - bfirst.rp >= n {
        return bfirst;
      }
      ghost var l, d;
      nb, l, d := Pullupblock(bfirst, n, start, list, data);
      if nb == null {
        bfirst, blast, list := null, null, [];
        return;
      }
      LengthOf(nb, l, d);
      var _, _, last := Count(nb, l, d);
      bfirst, blast := nb, last;
      list, data := l, d;
      EmptyIff();
    }

    method Qhangup(other: bool)
      modifies `closed, `err
      ensures closed && err == if other then Other else Hungup
    {
      closed, err := true, if other then Other else Hungup;
    }

    /** Drops what the queue holds and closes it. */
    method Qclose()
      modifies this
      ensures Valid() && data == [] && len == 0 && Drift() == 0 && limit == old(limit) && eof == old(eof)
      ensures closed && !flow && !starve && !noblock && err == Hungup
    {
      closed, flow, starve, noblock, err := true, false, false, false, Hungup;
      bfirst, len, dlen := null, 0, 0;
      list, data := [], [];
    }
  }

  /** The data left when n bytes are thrown away. */
  function Discard(d: seq<seq<byte>>, n: nat): seq<seq<byte>>
    decreases |d|
  {
    if n == 0 || d == [] then d
    else if |d[0]| <= n then Discard(d[1..], n - |d[0]|)
    else [d[0][n..]] + d[1..]
  }

  lemma {:induction false} DiscardFlat(d: seq<seq<byte>>, n: nat)
    ensures Flat(Discard(d, n)) == if n <= |Flat(d)| then Flat(d)[n..] else []
    decreases |d|
  {
    if n > 0 && d != [] {
      if |d[0]| <= n {
        DiscardFlat(d[1..], n - |d[0]|);
      } else {
        FlatCons(d[0][n..], d[1..]);
      }
    }
  }

  lemma DiscardStep(d: seq<seq<byte>>, n: nat)
    requires d != [] && n > 0
    ensures |d[0]| <= n ==> Discard(d, n) == Discard(d[1..], n - |d[0]|)
    ensures |d[0]| > n ==> Discard(d, n) == Discard([d[0][n..]] + d[1..], 0)
  {}

  lemma DiscardEnd(d: seq<seq<byte>>, n: nat)
    requires n == 0 || d == []
    ensures Discard(d, n) == d && (d == [] ==> Flat(d) == [])
  {}

  lemma FirstPiece(p: seq<byte>, msg: bool)
    ensures var n := if |p| > MAXATOMIC then MAXATOMIC else |p|;
            Pieces(p, msg) == [p[..n]] + if n < |p| && !msg then Pieces(p[n..], msg) else []
  {
    if |p| <= MAXATOMIC {
      assert p[..|p|] == p;
    }
  }

  /** The outcomes of qbwrite. */
  datatype Wrote = Refused | Dropped | Queued

  lemma TakenIs(d: seq<seq<byte>>, fd: seq<seq<byte>>, x: seq<byte>, rest: seq<seq<byte>>, n: nat, f: Flags)
    requires d == fd + [x] + rest && |fd| + 1 == if f.coalesce then Reach(d, n) else 1
    ensures TakeRead(d, n, f.msg, f.coalesce) == Cutoff(Flat(fd + [x]), rest, n, f.msg)
  {
    assert d[..|fd| + 1] == fd + [x] && d[|fd| + 1..] == rest;
  }

  lemma StillApart(fl: seq<Block>, b: Block, l: seq<Block>)
    requires l != [] && Disjoint(fl, l[1..]) && b !in fl && l[0] !in fl
    ensures Disjoint(fl, l)
  {
    assert forall i :: 0 < i < |l| ==> l[i] == l[1..][i - 1];
  }

  lemma CutoffIs(fd: seq<seq<byte>>, x: seq<byte>, rest: seq<seq<byte>>, n: nat, msg: bool)
    requires |Flat(fd)| <= n
    ensures var got := Flat(fd + [x]);
            var over := |Flat(fd)| + |x| - n;
            var t := Cutoff(got, rest, n, msg);
            && |got| == |Flat(fd)| + |x|
            && (over > 0 && !msg ==> t.out == Window(Flat(fd + [x[..|x| - over]]), 0, n) && t.rest == [x[|x| - over..]] + rest)
            && (over <= 0 || msg ==> t.out == Window(got, 0, n) && t.rest == rest)
  {
    FlatAppend(fd, x);
    var over := |Flat(fd)| + |x| - n;
    if over > 0 {
      var k := |x| - over;
      FlatAppend(fd, x[..k]);
      assert (Flat(fd) + x)[n..] == x[k..] && (Flat(fd) + x)[..n] == Flat(fd) + x[..k];
    }
  }

  lemma EmptyList()
    ensures List(null, [], []) && Flat<byte>([]) == []
    ensures forall l :: Disjoint([], l)
  {}

  lemma Members(l0: seq<Block>, fl: seq<Block>, b: Block, l: seq<Block>)
    requires l0 == fl + [b] + l
    ensures forall i :: 0 <= i < |fl| ==> fl[i] in l0
    ensures forall i :: 0 <= i < |l| ==> l[i] in l0
    ensures b in l0
  {
    assert l0[|fl|] == b;
    assert forall i :: 0 <= i < |fl| ==> fl[i] == l0[i];
    assert forall i :: 0 <= i < |l| ==> l[i] == l0[|fl| + 1 + i];
  }

  lemma Single(b: Block, x: seq<byte>)
    requires b.Has(x) && b.next == null
    ensures List(b, [b], [x])
  {}

  lemma NotIn(l: seq<Block>, b: Block)
    requires b !in l
    ensures Disjoint(l, [b])
  {}

  lemma MoreApart(l: seq<Block>, b: Block, m: seq<Block>)
    requires Disjoint(l, m) && b !in m
    ensures Disjoint(l + [b], m)
  {}

  lemma MoreRest(l0: seq<Block>, fl: seq<Block>, b: Block, l: seq<Block>,
                 d0: seq<seq<byte>>, fd: seq<seq<byte>>, x: seq<byte>, d: seq<seq<byte>>)
    requires l0 == fl + ([b] + l) && Disjoint(fl, [b] + l) && d0 == fd + ([x] + d)
    ensures l0 == fl + [b] + l && b !in fl && Disjoint(fl, l) && d0 == fd + [x] + d
  {
    assert forall i :: 0 <= i < |l| ==> l[i] == ([b] + l)[i + 1];
    assert ([b] + l)[0] == b;
  }

  lemma ReachStep(x: seq<byte>, d: seq<seq<byte>>, k: nat)
    requires d != [] && |x| < k
    ensures Reach([x] + d, k) == 1 + Reach(d, k - |x|) && d == [d[0]] + d[1..]
  {
    assert ([x] + d)[1..] == d;
  }

  lemma ReachEnd(x: seq<byte>, d: seq<seq<byte>>, k: nat)
    requires d == [] || |x| >= k
    ensures Reach([x] + d, k) == 1
  {}

  /** Links the blocks of b after those of a list, which may be empty. */
  method Attach(first: Block?, final: Block?, b: Block, ghost l: seq<Block>, ghost d: seq<seq<byte>>,
                ghost m: seq<Block>, ghost e: seq<seq<byte>>) returns (head: Block)
    requires List(first, l, d) && List(b, m, e) && m != [] && Disjoint(l, m)
    requires l != [] ==> final == l[|l| - 1]
    modifies l`next
    ensures List(head, l + m, d + e) && List(b, m, e) && head == (l + m)[0]
  {
    hide List, Disjoint;
    LengthOf(first, l, d);
    LengthOf(b, m, e);
    if first != null {
      head := first;
      Append(first, final, l, d, b, m, e);
    } else {
      head := b;
      assert l + m == m && d + e == e;
    }
  }

  lemma AllocCons(b: Block, l: seq<Block>)
    ensures Alloc([b] + l) == b.size + Alloc(l)
  {
    assert ([b] + l)[1..] == l;
  }

  /** The allocated and data bytes of a list, and its last block. */
  method Count(b: Block, ghost l: seq<Block>, ghost d: seq<seq<byte>>) returns (a: nat, n: nat, last: Block)
    requires List(b, l, d) && l != []
    ensures a == Alloc(l) && n == |Flat(d)| && last == l[|l| - 1]
  {
    ghost var m, e := l[1..], d[1..];
    Uncons(b, l, d);
    last := b;
    a, n := b.size, b.wp - b.rp;
    while last.next != null
      invariant List(last.next, m, e) && |m| < |l|
      invariant m == l[|l| - |m|..] && last == l[|l| - |m| - 1]
      invariant a + Alloc(m) == Alloc(l) && n + |Flat(e)| == |Flat(d)|
      decreases |m|
    {
      Uncons(last.next, m, e);
      last := last.next;
      a, n := a + last.size, n + (last.wp - last.rp);
      m, e := m[1..], e[1..];
    }
    LengthOf(last.next, m, e);
  }
}
