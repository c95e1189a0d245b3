/**
 tlsrecread of kern/devtls.c, over the blocks of the transport. The bytes read ahead
 are a list of blocks; a read of the transport gives another block, is interrupted,
 or finds the connection hung up.
 */
module TlsIo {
  import opened Bytes
  import opened Blocks
  import opened Qio
  import opened TlsRecord
  import opened TlsStream
  import opened TlsAhead
  import opened TlsChecks

  class TlsRec {
    var unprocessed: Block?
    ghost var list: seq<Block>
    ghost var data: seq<seq<byte>>
    var input: seq<Event>
    var d: OneWay     // in
    var ver: nat
    var verset: bool
    var handin: nat   // bytes of handshake read

    ghost predicate Valid()
      reads this, list`next, list`mem, list`rp, list`wp
    {
      List(unprocessed, list, data)
    }

    /** The bytes read ahead, then those to come. */
    ghost function Stream(): seq<byte>
      reads `data, `input
    {
      Flat(data) + Arriving(input)
    }

    constructor (input: seq<Event>, ver: nat)
      ensures Valid() && data == [] && list == [] && this.input == input && this.ver == ver && !verset
      ensures d == OneWay(0, None, None) && handin == 0
    {
      unprocessed, list, data := null, [], [];
      this.input, this.ver, verset, d, handin := input, ver, false, OneWay(0, None, None), 0;
    }

    /** Reads ahead until n bytes are there, and no block more. */
    method Ensure(n: nat, start: nat) returns (o: Io)
      requires Valid()
      modifies `unprocessed, `list, `data, `input, list`next
      ensures Valid() && Stream() == old(Stream())
      ensures Reach(o, data, input) == AheadOf(old(data), old(input), n)
      ensures o == Fine ==> |Flat(data)| >= n
      ensures o == Interrupted ==> Interrupt in old(input)
      ensures o == Hangup ==> old(|Stream()|) < n || Chunk([]) in old(input)
      ensures forall i :: 0 <= i < |list| ==> list[i] in old(list) || fresh(list[i])
      ensures forall e :: e in input ==> e in old(input)
    {
      hide List, Chain, Apart, Holds, Alloc, Block.Has, Flat, Disjoint;
      LengthOf(unprocessed, list, data);
      NoBytes();
      var sofar, last: Block? := 0, null;
      if unprocessed != null {
        var a, b, c := Count(unprocessed, list, data);
        sofar, last := b, c;
      }
      ghost var l0, in0 := list, input;
      while sofar < n
        invariant Valid() && Stream() == old(Stream()) && sofar == |Flat(data)|
        invariant AheadOf(data, input, n) == AheadOf(old(data), old(input), n)
        invariant list != [] ==> last == list[|list| - 1]
        invariant forall i :: 0 <= i < |list| ==> list[i] in l0 || fresh(list[i])
        invariant forall e :: e in input ==> e in in0
        decreases |input|
      {
        if input == [] {
          assert Stream() == Flat(data);
          return Hangup;
        }
        var e := input[0];
        assert e in in0;
        if e == Interrupt {
          input := input[1..];
          return Interrupted;
        }
        last := ReadAhead(last, start);
        sofar := sofar + |e.p|;
        if |e.p| == 0 {
          return Hangup;
        }
      }
      o := Fine;
    }

    /** bread, and the block goes to the end of the list. */
    method ReadAhead(last: Block?, start: nat) returns (b: Block)
      requires Valid() && input != [] && input[0].Chunk? && (list != [] ==> last == list[|list| - 1])
      modifies `unprocessed, `list, `data, `input, list`next
      ensures Valid() && Stream() == old(Stream()) && input == old(input)[1..]
      ensures list == old(list) + [b] && data == old(data) + [old(input)[0].p]
      ensures |Flat(data)| == |Flat(old(data))| + |old(input)[0].p| && fresh(b)
    {
      hide List, Chain, Apart, Holds, Alloc, Block.Has, Flat;
      var p := input[0].p;
      FlatAppend(data, p);
      b := new Block(start, |p|);
      b.Copy(p, []);
      assert [] + p == p;
      Single(b, p);
      var head := Attach(unprocessed, last, b, list, data, [b], [p]);
      unprocessed := head;
      list, data, input := list + [b], data + [p], input[1..];
    }

    /** Takes n bytes, freeing the blocks they empty. */
    method Consume(n: nat) returns (p: seq<byte>)
      requires Valid()
      modifies `unprocessed, `list, `data, list`rp
      ensures Valid() && p + Flat(data) == Flat(old(data)) && data == Eaten(old(data), n)
      ensures |p| == if n < |Flat(old(data))| then n else |Flat(old(data))|
      ensures forall i :: 0 <= i < |list| ==> list[i] in old(list)
    {
      hide List, Chain, Apart, Holds, Alloc, Block.Has, Flat, Disjoint;
      LengthOf(unprocessed, list, data);
      NoBytes();
      p := [];
      var left: nat := n;
      ghost var l0, d0 := list, data;
      while unprocessed != null && left > 0
        invariant Valid() && p + Flat(data) == Flat(d0) && |p| + left == n && Eaten(data, left) == Eaten(d0, n)
        invariant (unprocessed == null <==> list == []) && |list| == |data|
        invariant forall i :: 0 <= i < |list| ==> list[i] in l0
        decreases |list|
      {
        var q, more := Bite(left);
        p, left := p + q, left - |q|;
        LengthOf(unprocessed, list, data);
        if !more {
          return;
        }
      }
      assert list == [] ==> data == [];
    }

    /** Takes up to n bytes of the first block; more tells whether the block is gone. */
    method Bite(n: nat) returns (q: seq<byte>, more: bool)
      requires Valid() && unprocessed != null && n > 0
      modifies `unprocessed, `list, `data, list`rp
      ensures Valid() && q + Flat(data) == Flat(old(data)) && |q| <= n && Eaten(data, n - |q|) == Eaten(old(data), n)
      ensures more ==> |list| < |old(list)|
      ensures !more ==> |q| == n
      ensures forall i :: 0 <= i < |list| ==> list[i] in old(list)
    {
      hide List, Chain, Apart, Holds, Alloc, Block.Has, Flat, Disjoint;
      LengthOf(unprocessed, list, data);
      Uncons(unprocessed, list, data);
      var b := unprocessed;
      ghost var x, l := data[0], list;
      FlatCons(x, data[1..]);
      assert data == [x] + data[1..];
      b.Length(x);
      var i := if b.wp - b.rp > n then n else b.wp - b.rp;
      q := b.Peek(i, x);
      b.Skip(i, x);
      b.Length(x[i..]);
      assert x == q + x[i..];
      assert forall j :: 0 <= j < |l[1..]| ==> l[1..][j] == l[j + 1];
      if b.wp - b.rp != 0 {
        Cons(b, list[1..], x[i..], data[1..]);
        FlatCons(x[i..], data[1..]);
        assert list == [b] + list[1..];
        data := [x[i..]] + data[1..];
        more := false;
      } else {
        unprocessed := b.next;
        list, data := list[1..], data[1..];
        more := true;
      }
    }

    /** Gives back the bytes p, in the room before the first block's data if there is any. */
    method Regurgitate(p: seq<byte>, start: nat)
      requires Valid()
      modifies `unprocessed, `list, `data, list`rp, list`mem
      ensures Valid() && Flat(data) == p + Flat(old(data)) && (Full(old(data)) ==> Full(data))
      ensures forall i :: 0 <= i < |list| ==> list[i] in old(list) || fresh(list[i])
    {
      hide List, Chain, Apart, Holds, Alloc, Block.Has, Flat, Disjoint;
      LengthOf(unprocessed, list, data);
      if p == [] {
        return;
      }
      FlatCons(p, data);
      if unprocessed == null || unprocessed.rp < |p| {
        var b := new Block(start, |p|);
        b.Copy(p, []);
        assert [] + p == p;
        b.next := unprocessed;
        Cons(b, list, p, data);
        unprocessed := b;
        list, data := [b] + list, [p] + data;
      } else {
        Uncons(unprocessed, list, data);
        var b := unprocessed;
        ghost var x := data[0];
        FlatCons(p + x, data[1..]);
        FlatCons(x, data[1..]);
        assert data == [x] + data[1..] && list == [b] + list[1..];
        b.Restore(p, x);
        Cons(b, list[1..], p + x, data[1..]);
        data := [p + x] + data[1..];
      }
    }

    /** A block of the next n bytes: the first block itself if it has just these. Nothing
        read ahead is the case in which the source has no block to look at. */
    method Qgrab(n: nat, start: nat) returns (b: Block?)
      requires Valid() && n <= |Flat(data)|
      modifies `unprocessed, `list, `data, list
      ensures Valid() && (b == null <==> old(data) == [])
      ensures b != null ==> b.Has(Flat(old(data))[..n]) && Flat(data) == Flat(old(data))[n..] && b !in list
      ensures b == null ==> data == []
      ensures b != null ==> b in old(list) || fresh(b)
      ensures Full(old(data)) ==> Full(data)
      ensures forall i :: 0 <= i < |list| ==> list[i] in old(list)
    {
      hide List, Chain, Apart, Holds, Alloc, Block.Has, Flat, Disjoint;
      LengthOf(unprocessed, list, data);
      b := unprocessed;
      if b == null {
        return;
      }
      Uncons(unprocessed, list, data);
      ghost var x := data[0];
      FlatCons(x, data[1..]);
      assert data == [x] + data[1..];
      b.Length(x);
      if b.wp - b.rp == n {
        unprocessed := b.next;
        list, data := list[1..], data[1..];
        b.next := null;
        return;
      }
      b := new Block(start, n);
      ghost var all := Flat(data);
      if Full(data) {
        EatenFull(data, n);
      }
      var p := Consume(n);
      assert p == all[..n] && Flat(data) == all[n..];
      b.Copy(p, []);
      assert [] + p == p;
    }

    /** Reads one record, up to what its type has done with it. An interruption loses
        nothing: the stream is as before. A record without payload breaks the reader
        exactly if nothing has been read ahead behind its header. */
    method Tlsrecread(start: nat) returns (o: Outcome, t: byte, ghost frag: seq<byte>, b: Block?)
      requires Valid() && BlockOk(d) && (d.sec.Some? ==> Lawful(d.sec.value))
      modifies `unprocessed, `list, `data, `input, `d, list
      ensures o == Retry ==> Valid() && Stream() == old(Stream()) && d == old(d) && Interrupt in old(input)
      ensures o == Record ==>
                && FirstRecord(old(Stream())).Some?
                && var r := FirstRecord(old(Stream())).value;
                   && ReadRecord(old(d), ver, verset, r) == Got(t, frag, d) && b != null && b.Has(frag)
                   && Valid() && Stream() == old(Stream())[|r|..]
                   && Lean(old(data), old(input), input, |r|)
                   && Authentic(old(d), ver, r[..RECHDRLEN], r[RECHDRLEN..], frag)
      ensures o == Record || o == Retry ==> && (Full(old(data)) ==> Full(data))
                                            && forall i :: 0 <= i < |list| ==> list[i] in old(list) || fresh(list[i])
      ensures o == Rejected && FirstRecord(old(Stream())).Some? ==>
          ReadRecord(old(d), ver, verset, FirstRecord(old(Stream())).value) == Failed
      ensures o == Broken <==> EndsBare(old(data), old(input), ver, verset, handin)
      ensures o == Broken ==> |old(Stream())| >= RECHDRLEN && FirstRecord(old(Stream())) == Some(old(Stream())[..RECHDRLEN])
      ensures o == Hung && Calm(old(input)) ==> FirstRecord(old(Stream())) == None
      ensures o == Ssl2 ==> handin == 0 && |old(Stream())| > 0 && old(Stream())[0] >= 0x80
    {
      hide List, Chain, Apart, Holds, Alloc, Block.Has, Disjoint, Open, Lawful, Aad, Put64, BlockOk, FirstRecord, Get16,
          AheadOf, Lean, Full, Eaten, EndsBare, Flat, Arriving, VersionOk, Authentic, Moved, ReadRecord;
      t, frag, b := 0, [], null;
      ghost var s := Stream();
      BareIs(data, input, ver, verset, handin);
      var io, header := Readheader(start);
      if io != Fine {
        TooFew(s);
        return if io == Interrupted then Retry else Hung, t, frag, b;
      }
      HeaderOf(s, header, Stream());
      HeaderRefused(d, ver, verset, s, header);
      t := header[0];
      if handin == 0 && t >= 0x80 {
        return Ssl2, t, frag, b;
      }
      var len := Get16(header[3..5]);
      if !VersionOk(Get16(header[1..3]), ver, verset) || len > MAXCIPHERRECLEN {
        return Rejected, t, frag, b;
      }
      ghost var left, in1 := data, input;
      o, frag, b := Payload(header, len, start);
      if o == Record {
        LeanTwice(old(data), old(input), left, in1, input, RECHDRLEN, len);
        RecordLetIn(old(d), ver, verset, FirstRecord(s).value, t, frag, d);
      }
    }

    /** Reads ahead for a header and takes it. */
    method Readheader(start: nat) returns (io: Io, h: seq<byte>)
      requires Valid()
      modifies `unprocessed, `list, `data, `input, list`next, list`rp
      ensures Valid() && io == AheadOf(old(data), old(input), RECHDRLEN).o && (io == Interrupted ==> Interrupt in old(input))
      ensures io == Hangup ==> old(|Stream()|) < RECHDRLEN || Chunk([]) in old(input)
      ensures io == Fine ==>
                && |h| == RECHDRLEN && old(Stream()) == h + Stream()
                && h == Flat(AheadOf(old(data), old(input), RECHDRLEN).data)[..RECHDRLEN]
                && data == Eaten(AheadOf(old(data), old(input), RECHDRLEN).data, RECHDRLEN)
                && Lean(old(data), old(input), input, RECHDRLEN)
                && |Flat(data)| + RECHDRLEN + |Arriving(input)| == |Flat(old(data))| + |Arriving(old(input))|
      ensures io != Fine ==> Stream() == old(Stream())
      ensures io != Hangup && Full(old(data)) ==> Full(data)
      ensures forall i :: 0 <= i < |list| ==> list[i] in old(list) || fresh(list[i])
      ensures forall e :: e in input ==> e in old(input)
    {
      hide List, Chain, Apart, Holds, Alloc, Block.Has, Flat, Disjoint, AheadOf, Lean, Full, Eaten, Arriving;
      AheadLean(data, input, RECHDRLEN);
      h := [];
      io := Ensure(RECHDRLEN, start);
      if io == Fine {
        ghost var mid := data;
        h := Consume(RECHDRLEN);
        assert h == Flat(mid)[..RECHDRLEN];
        LeftFull(mid, RECHDRLEN);
      }
    }

    /** Reads the payload after its header; nothing consumed is lost by an interruption. */
    method Payload(h: seq<byte>, len: nat, start: nat) returns (o: Outcome, ghost frag: seq<byte>, b: Block?)
      requires Valid() && BlockOk(d) && (d.sec.Some? ==> Lawful(d.sec.value))
      requires |h| == RECHDRLEN && len == Get16(h[3..5]) <= MAXCIPHERRECLEN && VersionOk(Get16(h[1..3]), ver, verset)
      modifies `unprocessed, `list, `data, `input, `d, list
      ensures o != Ssl2
      ensures o == Retry ==> Valid() && Stream() == h + old(Stream()) && d == old(d) && Interrupt in old(input)
      ensures o == Hung ==> len > |old(Stream())| || Chunk([]) in old(input)
      ensures o == Broken <==> len == 0 && old(data) == []
      ensures o == Record ==> Lean(old(data), old(input), input, len)
      ensures o == Record || o == Retry ==> && (Full(old(data)) ==> Full(data))
                                            && forall i :: 0 <= i < |list| ==> list[i] in old(list) || fresh(list[i])
      ensures o == Record || o == Rejected ==> len <= |old(Stream())|
      ensures o == Record ==>
                && ReadRecord(old(d), ver, verset, h + old(Stream())[..len]) == Got(h[0], frag, d)
                && b != null && b.Has(frag) && Valid() && Stream() == old(Stream())[len..]
      ensures o == Rejected ==> ReadRecord(old(d), ver, verset, h + old(Stream())[..len]) == Failed
    {
      hide List, Chain, Apart, Holds, Alloc, Block.Has, Flat, Disjoint, Open, Lawful, Aad, Put64, ReadRecord, VersionOk,
          Get16, BlockOk, AheadOf, Lean, Full, Flat, Arriving;
      frag, b := [], null;
      ghost var rest := Stream();
      AheadLean(data, input, len);
      NoneNeeded(data, input, len);
      var io := Ensure(len, start);
      if io == Hangup {
        return Hung, frag, b;
      }
      if io == Interrupted {
        Regurgitate(h, start);
        return Retry, frag, b;
      }
      NoBytes();
      ghost var body := Flat(data)[..len];
      assert body == rest[..len];
      b := Qgrab(len, start);
      if b == null {
        return Broken, frag, b;
      }
      assert Stream() == rest[len..];
      o, frag := Process(b, h, body);
    }

    /** Opens the payload in its block, and changes ciphers if that is what it says. */
    method Process(b: Block, h: seq<byte>, ghost body: seq<byte>) returns (o: Outcome, ghost frag: seq<byte>)
      requires BlockOk(d) && |h| == RECHDRLEN && b.Has(body) && |body| <= MAXCIPHERRECLEN
      requires (d.sec.Some? ==> Lawful(d.sec.value)) && VersionOk(Get16(h[1..3]), ver, verset)
      modifies `d, b`mem, b`rp, b`wp
      ensures o == Record || o == Rejected
      ensures o == Record ==> ReadRecord(old(d), ver, verset, h + body) == Got(h[0], frag, d) && b.Has(frag)
      ensures o == Record ==> Authentic(old(d), ver, h, body, frag)
      ensures o == Rejected ==> ReadRecord(old(d), ver, verset, h + body) == Failed
    {
      hide Open, Aad, Put64, Lawful, Get16, Authentic, Moved;
      ghost var r := h + body;
      assert r[..RECHDRLEN] == h && r[RECHDRLEN..] == body && r[1..3] == h[1..3];
      b.Length(body);
      var x := b.Peek(b.wp - b.rp, body);
      assert x == body;
      frag := body;
      var plain := Open(d, ver, h, x);
      if plain.Bad? {
        return Rejected, frag;
      }
      OpensAuthentic(d, ver, h, body, plain.frag, plain.d);
      frag := plain.frag;
      OpenFits(d, ver, h, body);
      b.Put(if d.sec.Some? then Ivlen(d.sec.value, ver) else 0, plain.frag, body);
      d := plain.d;
      o := Record;
      if h[0] == RCHANGECIPHERSPEC {
        if plain.frag != [1] || d.pending == None {
          return Rejected, frag;
        }
        d := Switch(d);
      } else if h[0] !in {RALERT, RHANDSHAKE, RAPPLICATION, SSL2CLIENTHELLO} {
        o := Rejected;
      }
    }
  }

  lemma TooFew(s: seq<byte>)
    ensures |s| < RECHDRLEN ==> FirstRecord(s) == None
  {}

  /** A header refused for its version or length is one that ReadRecord refuses. */
  lemma HeaderRefused(d: OneWay, ver: nat, verset: bool, s: seq<byte>, h: seq<byte>)
    requires BlockOk(d) && |s| >= RECHDRLEN && h == s[..RECHDRLEN]
    ensures !VersionOk(Get16(h[1..3]), ver, verset) || Get16(h[3..5]) > MAXCIPHERRECLEN ==>
              FirstRecord(s).Some? ==> ReadRecord(d, ver, verset, FirstRecord(s).value) == Failed
  {
    hide Open, VersionOk, BlockOk;
    var len := Get16(h[3..5]);
    assert s[3..5] == h[3..5];
    if RECHDRLEN + len <= |s| {
      assert s[..RECHDRLEN + len][1..3] == h[1..3];
    }
  }

  lemma HeaderOf(s: seq<byte>, h: seq<byte>, rest: seq<byte>)
    requires s == h + rest && |h| == RECHDRLEN
    ensures var len := Get16(h[3..5]);
            && (len <= |rest| ==> FirstRecord(s) == Some(h + rest[..len]) && s[RECHDRLEN + len..] == rest[len..])
            && (len > |rest| ==> FirstRecord(s) == None)
            && s[0] == h[0] && s[..RECHDRLEN] == h
            && (len == 0 ==> FirstRecord(s) == Some(h))
  {
    assert s[3..5] == h[3..5];
    var len := Get16(h[3..5]);
    if len <= |rest| {
      assert s[..RECHDRLEN + len] == h + rest[..len];
    }
  }

  /** Broken is the record without payload that finds nothing read ahead behind its
      header, Ssl2 a hello in the format of SSL 2. */
  datatype Outcome = Record | Rejected | Retry | Hung | Broken | Ssl2

  lemma BareIs(data: seq<seq<byte>>, input: seq<Event>, ver: nat, verset: bool, handin: nat)
    ensures var r := AheadOf(data, input, RECHDRLEN);
            if r.o != Fine then !EndsBare(data, input, ver, verset, handin)
            else
              var h := Flat(r.data)[..RECHDRLEN];
              EndsBare(data, input, ver, verset, handin) <==>
              && Eaten(r.data, RECHDRLEN) == [] && !(handin == 0 && h[0] >= 0x80)
              && VersionOk(Get16(h[1..3]), ver, verset) && Get16(h[3..5]) == 0
  {}

  lemma NoneNeeded(data: seq<seq<byte>>, input: seq<Event>, n: nat)
    ensures n == 0 ==> AheadOf(data, input, n) == Reach(Fine, data, input)
  {}

  lemma LeftFull(data: seq<seq<byte>>, n: nat)
    ensures Full(data) ==> Full(Eaten(data, n))
  {
    if Full(data) {
      EatenFull(data, n);
    }
  }

  lemma NoBytes()
    ensures Flat<byte>([]) == []
  {}
}
