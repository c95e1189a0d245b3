/**
 mntrpcread of kern/devmnt.c: cutting the byte stream of a mount channel, which
 arrives in blocks of any size, back into 9P messages.
 */
module MntRead {
  import opened Bytes
  import opened Blocks
  import opened Qio

  const HEADER := 7      // size[4] type[1] tag[2]
  const RREADHEADER := 11
  const RREAD: byte := 117
  const MAXINT := 0x8000_0000

  /** GBIT32: little-endian. */
  function Gbit32(p: seq<byte>): nat
    requires |p| >= 4
  {
    p[0] as nat + 0x100 * p[1] as nat + 0x1_0000 * p[2] as nat + 0x100_0000 * p[3] as nat
  }

  /** A message as 9P frames it: its size counts itself. */
  ghost predicate Framed(m: seq<byte>, msize: nat) {
    HEADER <= |m| <= msize && Gbit32(m) == |m|
  }

  /** Broken stands for the two cases in which the source goes wrong: a size that is
      negative as an int, and an Rread too short for its header. */
  datatype Outcome = Ended | TooBig | Bad | Broken | Message

  /** How many bytes of a message of type t are gathered in one block. */
  function Gathered(t: byte, n: nat): nat { if t == RREAD then RREADHEADER else n }

  /** The verdict of convM2S, given the gathered bytes and the size of the message. */
  type Parser = (seq<byte>, nat) -> bool

  /** All that is asked of it: it rejects a message cut off in its header. */
  ghost predicate RejectsShort(parses: Parser) {
    forall h: seq<byte>, n: nat :: parses(h, n) ==> n >= HEADER && n >= |h|
  }

  /** What reading one message off the stream s should give. */
  ghost function Expected(s: seq<byte>, msize: nat, parses: Parser): Outcome {
    if |s| < HEADER then Ended
    else
      var n := Gbit32(s);
      var g := Gathered(s[4], n);
      if n >= MAXINT then Broken
      else if n > msize then TooBig
      else if n > |s| then Ended
      else if g <= n && parses(s[..g], n) then Message
      else Bad
  }

  ghost predicate ShortRread(s: seq<byte>) {
    |s| >= HEADER && s[4] == RREAD && Gbit32(s) < RREADHEADER
  }

  /** What is left of the stream after k replies have been read. */
  ghost function Remaining(s: seq<byte>, k: nat, msize: nat, parses: Parser): seq<byte> {
    if k == 0 then s
    else
      var r := Remaining(s, k - 1, msize, parses);
      if Expected(r, msize, parses) == Message then r[Gbit32(r)..] else r
  }

  ghost predicate Accepted(m: seq<byte>, msize: nat, parses: Parser) {
    Framed(m, msize) && Gathered(m[4], |m|) <= |m| && parses(m[..Gathered(m[4], |m|)], |m|)
  }

  /** A message is given exactly when it is there as a whole, as long as it says, not longer
      than agreed, and its header is accepted. A longer one is refused before any of it is
      read, and what cannot be parsed once it is there. */
  lemma Verdicts(s: seq<byte>, msize: nat, parses: Parser)
    requires RejectsShort(parses) && msize < MAXINT
    ensures var e, n := Expected(s, msize, parses), if |s| >= HEADER then Gbit32(s) else 0;
            && (e == Message <==> |s| >= HEADER && n <= |s| && Accepted(s[..n], msize, parses))
            && (e == TooBig <==> |s| >= HEADER && msize < n < MAXINT)
            && (e == Broken <==> |s| >= HEADER && n >= MAXINT)
            && (e == Ended <==> |s| < HEADER || (|s| < n <= msize))
            && (e == Bad ==> n <= msize && n <= |s| && !Accepted(s[..n], msize, parses))
  {
    if |s| >= HEADER && Gbit32(s) <= |s| {
      FrontSame(s, Gbit32(s));
      var n := Gbit32(s);
      var g := Gathered(s[4], n);
      if HEADER <= n && g <= n {
        assert s[..n][..g] == s[..g];
      }
    }
  }

  lemma FrontSame(s: seq<byte>, n: nat)
    requires n <= |s|
    ensures n >= HEADER ==> Gbit32(s[..n]) == Gbit32(s) && s[..n][4] == s[4]
  {}

  /** The stream is cut exactly where the sender put its messages together: the k-th
      reply is the k-th message, and what is left is what follows it. */
  lemma {:induction false} Reframes(ms: seq<seq<byte>>, tail: seq<byte>, k: nat, msize: nat, parses: Parser)
    requires forall m :: m in ms ==> Accepted(m, msize, parses)
    requires msize < MAXINT && k <= |ms|
    ensures var r := Remaining(Flat(ms) + tail, k, msize, parses);
            && r == Flat(ms[k..]) + tail
            && (k < |ms| ==> Expected(r, msize, parses) == Message && r[..Gbit32(r)] == ms[k])
  {
    if k == 0 {
      assert ms[0..] == ms;
    } else {
      Reframes(ms, tail, k - 1, msize, parses);
      FirstMessage(ms[k - 1..], tail, msize, parses);
      assert ms[k - 1..][1..] == ms[k..];
    }
    if k < |ms| {
      FirstMessage(ms[k..], tail, msize, parses);
    }
  }

  lemma FirstMessage(ms: seq<seq<byte>>, tail: seq<byte>, msize: nat, parses: Parser)
    requires ms != [] && Accepted(ms[0], msize, parses) && msize < MAXINT
    ensures var r := Flat(ms) + tail;
            && Expected(r, msize, parses) == Message && Gbit32(r) == |ms[0]|
            && r[..|ms[0]|] == ms[0] && r[|ms[0]|..] == Flat(ms[1..]) + tail
  {
    var m, r := ms[0], Flat(ms) + tail;
    assert r == m + (Flat(ms[1..]) + tail);
    assert r[..Gathered(m[4], |m|)] == m[..Gathered(m[4], |m|)];
  }

  class Reader {
    const q: Queue
    const msize: nat
    const parses: Parser
    var input: seq<seq<byte>>        // the blocks the transport still delivers

    ghost predicate Valid()
      reads q, q.list`next, q.list`mem, q.list`rp, q.list`wp
    {
      && q.Valid()
      && msize < MAXINT
    }

    /** What has arrived and is not yet read, then what is still to arrive. */
    ghost function Stream(): seq<byte>
      reads `input, q`data
    {
      Flat(q.data) + Flat(input)
    }

    constructor (msize: nat, parses: Parser, input: seq<seq<byte>>, q: Queue)
      requires q.Valid() && msize < MAXINT
      ensures Valid() && this.q == q && this.msize == msize && this.parses == parses && this.input == input
    {
      this.msize, this.parses, this.input, this.q := msize, parses, input, q;
    }

    /** Reads until n bytes are held. */
    method Doread(n: nat, start: nat) returns (ok: bool)
      requires Valid()
      modifies `input, q, q.list`next
      ensures Valid() && Stream() == old(Stream())
      ensures ok ==> |Flat(q.data)| >= n
      ensures !ok ==> |Flat(q.data)| < n && (Stream() == Flat(q.data) || [] in old(input))
      ensures |Flat(q.data)| >= |Flat(old(q.data))|
      ensures forall x :: x in input ==> x in old(input)
      ensures forall i :: 0 <= i < |q.list| ==> q.list[i] in old(q.list) || fresh(q.list[i])
      ensures q.dlen == |Flat(q.data)| && old(q.data) <= q.data
    {
      hide List, Chain, Apart, Holds, Alloc, Block.Has, Flat;
      ghost var l0, in0 := q.list, input;
      while q.dlen < n
        invariant Valid() && Stream() == old(Stream())
        invariant forall i :: 0 <= i < |q.list| ==> q.list[i] in l0 || fresh(q.list[i])
        invariant forall x :: x in input ==> x in in0
        invariant |Flat(q.data)| >= |Flat(old(q.data))| && old(q.data) <= q.data
        decreases |input|
      {
        EmptyFlat();
        if input == [] {
          return false;
        }
        var k := ReadBlock(start);
        if k == 0 {
          return false;
        }
      }
      ok := true;
    }

    /** bread, then qaddlist. */
    method ReadBlock(start: nat) returns (k: nat)
      requires Valid() && input != []
      modifies `input, q, q.list`next
      ensures Valid() && Stream() == old(Stream()) && input == old(input)[1..] && k == |old(input)[0]|
      ensures q.data == old(q.data) + [old(input)[0]] && |Flat(q.data)| == |Flat(old(q.data))| + k
      ensures forall i :: 0 <= i < |q.list| ==> q.list[i] in old(q.list) || fresh(q.list[i])
    {
      hide List, Chain, Apart, Holds, Alloc, Block.Has, Flat;
      var p := input[0];
      FlatCons(p, input[1..]);
      assert input == [p] + input[1..];
      FlatAppend(q.data, p);
      FlatOne(p);
      input := input[1..];
      var b := new Block(start, |p|);
      b.Copy(p, []);
      assert [] + p == p;
      Single(b, p);
      k := q.Qaddlist(b, [b], [p]);
    }

    /** Reads one reply: head is its gathered part, and b the blocks of the rest. */
    method Mntrpcread(start: nat) returns (o: Outcome, head: seq<byte>, b: Block?, ghost bl: seq<Block>, ghost bd: seq<seq<byte>>)
      requires Valid() && RejectsShort(parses)
      modifies `input, q, q.list
      ensures o == Ended ==> Expected(old(Stream()), msize, parses) == Ended || [] in old(input)
      ensures o != Ended ==> o == Expected(old(Stream()), msize, parses) || (o == Broken && ShortRread(old(Stream())))
      ensures o != Broken ==> Valid()
      ensures o == Ended ==> Stream() == old(Stream())
      ensures o == TooBig ==> Flat(q.data) == []
      ensures o == Bad || o == Message ==> Stream() == old(Stream())[Gbit32(old(Stream()))..]
      ensures o == Message ==> List(b, bl, bd) && head + Flat(bd) == old(Stream())[..Gbit32(old(Stream()))]
      ensures o == Message ==> |head| == Gathered(old(Stream())[4], Gbit32(old(Stream())))
    {
      hide List, Chain, Apart, Holds, Alloc, Block.Has, Flat, Discard, Expected, ShortRread, RejectsShort;
      b, bl, bd, head := null, [], [], [];
      ghost var s := Stream();
      var n, t;
      o, n, t := Frame(start);
      if o != Message {
        return;
      }
      o, head, b, bl, bd := Parse(n, t, start);
      VerdictIs(s, msize, parses);
    }

    /** The message of n bytes is held: gathers its header, has it parsed, and takes it. */
    method Parse(n: nat, t: byte, start: nat) returns (o: Outcome, head: seq<byte>, b: Block?, ghost bl: seq<Block>,
        ghost bd: seq<seq<byte>>)
      requires Valid() && RejectsShort(parses)
      requires |Stream()| >= HEADER && n == Gbit32(Stream()) && t == Stream()[4] && n <= |Flat(q.data)| && q.data != []
      modifies q, q.list
      ensures o == Broken ==> ShortRread(old(Stream()))
      ensures o != Broken ==> Valid() && Stream() == old(Stream())[n..] && |old(Stream())| >= Gathered(t, n)
      ensures o != Broken ==> o == if parses(old(Stream())[..Gathered(t, n)], n) then Message else Bad
      ensures o == Message ==> List(b, bl, bd) && head + Flat(bd) == old(Stream())[..n] && |head| == Gathered(t, n)
    {
      hide List, Chain, Apart, Holds, Alloc, Block.Has, Flat, Discard, ShortRread, Framed;
      b, bl, bd, head := null, [], [], [];
      ghost var s := Stream();
      ghost var held := |Flat(q.data)|;
      var nb := q.Pullupqueue(Gathered(t, n), start);
      if nb == null {
        TooShort(s, n, held);
        return Broken, head, b, bl, bd;
      }
      HeadOfFlat(q.data);
      head := nb.Peek(Gathered(t, n), q.data[0]);
      FrontOf(q.data, Flat(input), s, head);
      if !parses(head, n) {
        ghost var d := q.data;
        var _, _ := q.Qdiscard(n);
        o := Bad;
        DiscardFlat(d, n);
        assert Flat(d)[n..] + Flat(input) == s[n..];
        return;
      }
      o := Message;
      b, bl, bd := Hang(|head|, n, start);
    }

    /** Takes the message of n bytes off the queue, without its first k bytes. */
    method Hang(k: nat, n: nat, start: nat) returns (b: Block?, ghost bl: seq<Block>, ghost bd: seq<seq<byte>>)
      requires Valid() && q.data != [] && k <= |q.data[0]| && k <= n <= |Flat(q.data)|
      modifies q, q.list
      ensures Valid() && List(b, bl, bd)
      ensures Flat(bd) == Flat(old(q.data))[k..n] && Flat(q.data) == Flat(old(q.data))[n..]
    {
      hide List, Chain, Apart, Holds, Alloc, Block.Has, Flat, Queue.Taking;
      ghost var l0, d0 := q.list, q.data;
      var first: Block?, prev: Block? := null, null;
      ghost var fl, fd, x := [], [], [];
      var last;
      last, x := q.TakeFirst();
      FlatCons(x, q.data);
      FlatCons(x[k..], q.data);
      q.TakingFacts(first, prev, last, l0, d0, fl, fd, x);
      q.SkipTaken(last, k, l0, d0, x);
      ghost var d1 := [x[k..]] + q.data;
      assert Flat(d1) == Flat(d0)[k..];
      x := x[k..];
      var left: nat := n - k;
      q.TakingFacts(first, prev, last, l0, d1, fl, fd, x);
      var i := last.wp - last.rp;
      while i < left
        invariant q.Taking(first, prev, last, l0, d1, fl, fd, x)
        invariant i == |x| && left <= |x| + |Flat(q.data)|
        invariant |Flat(fd)| + left == n - k
        decreases |q.list|
      {
        q.TakingFacts(first, prev, last, l0, d1, fl, fd, x);
        EmptyFlat();
        FlatAppend(fd, x);
        ghost var b0, x0 := last, x;
        x := q.data[0];
        FlatCons(x, q.data[1..]);
        assert q.data == [x] + q.data[1..];
        first, prev, last := q.GrabNext(first, prev, last, l0, d1, fl, fd, x0, x);
        fl, fd := fl + [b0], fd + [x0];
        q.TakingFacts(first, prev, last, l0, d1, fl, fd, x);
        left, i := left - i, last.wp - last.rp;
      }
      q.TakingFacts(first, prev, last, l0, d1, fl, fd, x);
      ghost var rest := q.data;
      b, bl, bd := Finish(first, prev, last, left, start, l0, d1, fl, fd, x);
      HangFlat(d1, fd, x, rest, left);
    }

    /** Ends a message after left bytes of its last block; what is over goes back as a new block. */
    method Finish(first: Block?, prev: Block?, b: Block, left: nat, start: nat, ghost l0: seq<Block>, ghost d1: seq<seq<byte>>,
                  ghost fl: seq<Block>, ghost fd: seq<seq<byte>>, ghost x: seq<byte>)
        returns (head: Block?, ghost bl: seq<Block>, ghost bd: seq<seq<byte>>)
      requires Valid() && q.Taking(first, prev, b, l0, d1, fl, fd, x) && left <= |x|
      modifies q, l0
      ensures Valid() && List(head, bl, bd)
      ensures Flat(bd) == Flat(fd) + x[..left] && Flat(q.data) == x[left..] + Flat(old(q.data))
    {
      hide List, Chain, Apart, Holds, Alloc, Block.Has, Flat;
      b.Length(x);
      Members(l0, fl, b, q.list);
      ghost var y := x[..left];
      FlatAppend(fd, y);
      PutOver(b, left, start, fl, x);
      Single(b, y);
      NotIn(fl, b);
      head := Attach(first, prev, b, fl, fd, [b], [y]);
      bl, bd := fl + [b], fd + [y];
    }

    /** Cuts b after left bytes and puts what is over back as a new block. */
    method PutOver(b: Block, left: nat, start: nat, ghost fl: seq<Block>, ghost x: seq<byte>)
      requires q.Valid() && b.Has(x) && left <= |x| && b !in q.list && b !in fl && b.next == null && Disjoint(fl, q.list)
      modifies q, b`wp
      ensures q.Valid() && b.Has(x[..left]) && Disjoint(fl, q.list) && b !in q.list && b.next == null
      ensures Flat(q.data) == x[left..] + Flat(old(q.data))
    {
      hide List, Chain, Apart, Holds, Alloc, Block.Has, Flat;
      ghost var l := q.list;
      b.Length(x);
      var over := b.wp - b.rp - left;
      if over > 0 {
        FlatCons(x[left..], q.data);
        var nb := new Block(start, over);
        Over(b, x, left);
        nb.Copy(b.mem[b.rp + left..b.wp], []);
        b.Trim(over, x);
        q.Qputback(nb, x[left..]);
        assert q.list[1..] == l;
        StillApart(fl, nb, q.list);
      } else {
        assert x[..left] == x && x[left..] + Flat(q.data) == Flat(q.data);
      }
    }

    /** Reads until the whole next message is held, and gives its size and type. */
    method Frame(start: nat) returns (o: Outcome, n: nat, t: byte)
      requires Valid()
      modifies `input, q, q.list
      ensures Valid()
      ensures o == Ended ==> Stream() == old(Stream()) && (Expected(old(Stream()), msize, parses) == Ended || [] in old(input))
      ensures o == TooBig || o == Broken ==> o == Expected(old(Stream()), msize, parses)
      ensures o == TooBig ==> Flat(q.data) == []
      ensures o != Bad
      ensures o == Message ==> && Stream() == old(Stream()) && |Stream()| >= HEADER
                               && n == Gbit32(Stream()) && t == Stream()[4]
                               && n <= msize && n <= |Flat(q.data)| && q.data != []
      ensures o == Message ==> forall i :: 0 <= i < |q.list| ==> q.list[i] in old(q.list) || fresh(q.list[i])
    {
      hide List, Chain, Apart, Holds, Alloc, Block.Has, Flat, Discard;
      n, t := 0, 0;
      var ok := Doread(HEADER, start);
      if !ok {
        return Ended, n, t;
      }
      EmptyFlat();
      ghost var s := Stream();
      var nb := q.Pullupqueue(HEADER, start);
      HeadOfFlat(q.data);
      var p := nb.Peek(HEADER, q.data[0]);
      FrontOf(q.data, Flat(input), s, p);
      n, t := Gbit32(p), p[4];
      if n >= MAXINT {
        return Broken, n, t;
      }
      if n > msize {
        ghost var all := q.data;
        var _, _ := q.Qdiscard(q.dlen);
        DiscardFlat(all, |Flat(all)|);
        return TooBig, n, t;
      }
      ok := Doread(n, start);
      if !ok {
        return Ended, n, t;
      }
      o := Message;
    }
  }

  lemma FrontOf(d: seq<seq<byte>>, y: seq<byte>, s: seq<byte>, p: seq<byte>)
    requires d != [] && s == Flat(d) + y && p <= d[0]
    ensures p <= s && p == s[..|p|] && (|p| >= 4 ==> Gbit32(p) == Gbit32(s))
  {
    HeadOfFlat(d);
  }

  lemma TooShort(s: seq<byte>, n: nat, held: nat)
    requires |s| >= HEADER && n == Gbit32(s) <= held < Gathered(s[4], n)
    ensures ShortRread(s)
  {}

  lemma VerdictIs(s: seq<byte>, msize: nat, parses: Parser)
    requires RejectsShort(parses) && |s| >= HEADER && Gbit32(s) <= msize < MAXINT && Gbit32(s) <= |s|
    ensures var n, g := Gbit32(s), Gathered(s[4], Gbit32(s));
            g <= |s| ==> Expected(s, msize, parses) == if parses(s[..g], n) then Message else Bad
  {}

  lemma Over(b: Block, x: seq<byte>, left: nat)
    requires b.Has(x) && left <= |x|
    ensures b.rp + left <= b.wp <= |b.mem| && [] + b.mem[b.rp + left..b.wp] == x[left..]
  {}

  lemma HangFlat(d: seq<seq<byte>>, fd: seq<seq<byte>>, x: seq<byte>, rest: seq<seq<byte>>, left: nat)
    requires d == fd + [x] + rest && left <= |x|
    ensures var n := |Flat(fd)| + left;
            n <= |Flat(d)| && Flat(d)[..n] == Flat(fd) + x[..left] && Flat(d)[n..] == x[left..] + Flat(rest)
  {
    hide Flat;
    FlatConcat(fd + [x], rest);
    FlatAppend(fd, x);
    assert x == x[..left] + x[left..];
  }

  lemma EmptyFlat()
    ensures Flat<byte>([]) == []
  {}
}
