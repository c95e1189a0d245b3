/**
 A whole conversation read by tlsrecread of kern/devtls.c, from a transport that cuts
 the stream into blocks as it likes. What was written is read back in order, unless one
 of these blocks ends just behind the header of a record without payload.
 */
module TlsSession {
  import opened Bytes
  import opened Blocks
  import opened TlsRecord
  import opened TlsStream
  import opened TlsAhead
  import opened TlsIo

  /** The secrets set before each record is read. */
  function News(xs: seq<Item>): seq<Option<Secret>> {
    if xs == [] then [] else [if xs[0].Change? then Some(xs[0].sec) else None] + News(xs[1..])
  }

  /** A block of the transport ends behind the record i, which is a header alone. */
  ghost predicate BareCut(input: seq<Event>, wire: seq<seq<byte>>, i: nat)
    requires i < |wire|
  {
    |wire[i]| == RECHDRLEN && CutAt(input, |Flat(wire[..i + 1])|)
  }

  ghost predicate NoBareCut(input: seq<Event>, wire: seq<seq<byte>>, n: nat)
    requires n <= |wire|
  {
    forall i :: 0 <= i < n ==> !BareCut(input, wire, i)
  }

  /** The record r at the front breaks the reader exactly if it is a bare header behind
      which the transport cuts. */
  lemma BareExactly(all: seq<Event>, data: seq<seq<byte>>, input: seq<Event>, c: nat, ver: nat, verset: bool, handin: nat,
      r: seq<byte>)
    requires Calm(all) && InStep(all, data, input, c) && Full(data)
    requires FirstRecord(Flat(data) + Arriving(input)) == Some(r) && r[0] < 0x80 && VersionOk(Get16(r[1..3]), ver, verset)
    ensures EndsBare(data, input, ver, verset, handin) <==> |r| == RECHDRLEN && CutAt(all, c + RECHDRLEN)
  {
    hide Flat, Arriving, AheadOf, Eaten, Full, CutAt, Get16, VersionOk, EndsBare, InStep, Calm;
    var s := Flat(data) + Arriving(input);
    CalmSuffix(all, data, input, c);
    CalmFine(data, input, RECHDRLEN);
    AheadLean(data, input, RECHDRLEN);
    BareIs(data, input, ver, verset, handin);
    EndsAtCut(all, data, input, c, RECHDRLEN);
    var a := AheadOf(data, input, RECHDRLEN);
    assert Flat(a.data)[..RECHDRLEN] == s[..RECHDRLEN];
    assert s[..RECHDRLEN][1..3] == s[1..3] == r[1..3] && s[..RECHDRLEN][3..5] == s[3..5] && r[0] == s[0];
  }

  lemma CalmSuffix(all: seq<Event>, data: seq<seq<byte>>, input: seq<Event>, c: nat)
    requires Calm(all) && InStep(all, data, input, c)
    ensures Calm(input)
  {
    hide Came, Flat;
  }

  lemma NotCut(all: seq<Event>, wire: seq<seq<byte>>, n: nat)
    requires n < |wire| && NoBareCut(all, wire, n) && !BareCut(all, wire, n)
    ensures NoBareCut(all, wire, n + 1)
  {}

  lemma IsCut(all: seq<Event>, wire: seq<seq<byte>>, n: nat)
    requires n < |wire| && BareCut(all, wire, n)
    ensures !NoBareCut(all, wire, |wire|)
  {}

  lemma {:induction false} NewsLength(xs: seq<Item>)
    ensures |News(xs)| == |xs|
  {
    if xs != [] {
      NewsLength(xs[1..]);
    }
  }

  lemma NewsFirst(xs: seq<Item>)
    requires xs != []
    ensures News(xs) == [if xs[0].Change? then Some(xs[0].sec) else None] + News(xs[1..])
    ensures Sent(xs) == [(Type(xs[0]), Content(xs[0]))] + Sent(xs[1..])
  {}

  lemma Nothing(d: OneWay, ver: nat)
    requires BlockOk(d)
    ensures Sent([]) == [] && Wire(d, ver, []) == [] && Final(d, ver, []) == d
  {}

  /** The next record of a conversation, what is behind it, and how it reads. */
  lemma NextRecord(d: OneWay, ver: nat, verset: bool, xs: seq<Item>, s: seq<byte>)
    requires StateOk(d) && AllOk(d, ver, xs) && TypesOk(xs) && ver < 0x1_0000 && xs != [] && s == Flat(Wire(d, ver, xs))
    ensures StateOk(Armed(d, xs[0])) && ItemOk(d, ver, xs[0])
    ensures var (r, d1) := WriteItem(d, ver, xs[0]);
            && StateOk(d1) && AllOk(d1, ver, xs[1..]) && TypesOk(xs[1..])
            && Wire(d, ver, xs) == [r] + Wire(d1, ver, xs[1..]) && Final(d, ver, xs) == Final(d1, ver, xs[1..])
            && s == r + Flat(Wire(d1, ver, xs[1..])) && FirstRecord(s) == Some(r)
            && |r| >= RECHDRLEN && r[0] < 0x80 && VersionOk(Get16(r[1..3]), ver, verset)
            && ReadRecord(Armed(d, xs[0]), ver, verset, r) == Got(Type(xs[0]), Content(xs[0]), d1)
  {
    hide WriteItem, FirstRecord, ItemOk, TypesOk, Flat, Wire, Final, Get16, VersionOk, Lawful, Open;
    var x := xs[0];
    var (r, d1) := WriteItem(d, ver, x);
    TypesOkTail(xs);
    TypeSmall(x);
    assert xs == [x] + xs[1..];
    WireCons(d, ver, x, xs[1..]);
    WriteKeepsOk(d, ver, x);
    FlatCons(r, Wire(d1, ver, xs[1..]));
    ReadWritten(d, ver, verset, x, Flat(Wire(d1, ver, xs[1..])));
  }

  lemma TypeSmall(x: Item)
    requires TypesOk([x])
    ensures Type(x) < 0x80
  {
    assert [x][0] == x;
  }

  /** The reader tr has got through c bytes of the input all, and xs is still to come. */
  ghost predicate Going(tr: TlsRec, all: seq<Event>, xs: seq<Item>, c: nat)
    reads tr, tr.list
  {
    && tr.Valid() && StateOk(tr.d) && tr.ver < 0x1_0000 && AllOk(tr.d, tr.ver, xs) && TypesOk(xs)
    && tr.Stream() == Flat(Wire(tr.d, tr.ver, xs))
    && Calm(all) && Full(tr.data) && InStep(all, tr.data, tr.input, c)
  }

  /** Reads the next record. */
  method Readnext(tr: TlsRec, pending: Option<Secret>, start: nat, ghost all: seq<Event>, ghost xs: seq<Item>, ghost c: nat)
      returns (ok: bool, t: byte, p: seq<byte>)
    requires Going(tr, all, xs, c) && xs != [] && pending == if xs[0].Change? then Some(xs[0].sec) else None
    modifies tr, tr.list
    ensures tr.ver == old(tr.ver) && BlockOk(old(tr.d))
    ensures var r := WriteItem(old(tr.d), tr.ver, xs[0]).0;
            && (ok <==> !(|r| == RECHDRLEN && CutAt(all, c + RECHDRLEN)))
            && (ok ==> Going(tr, all, xs[1..], c + |r|) && tr.d == WriteItem(old(tr.d), tr.ver, xs[0]).1)
    ensures ok ==> t == Type(xs[0]) && p == Content(xs[0])
    ensures ok ==> forall j :: 0 <= j < |tr.list| ==> tr.list[j] in old(tr.list) || fresh(tr.list[j])
  {
    hide Flat, Arriving, AheadOf, Full, CutAt, Get16, InStep, Calm, BlockOk, Lawful, AllOk, TypesOk, Wire, Final, Lean,
        List, FirstRecord, EndsBare, ReadRecord, WriteItem, VersionOk, ItemOk;
    ghost var d, data, input := tr.d, tr.data, tr.input;
    ghost var r := WriteItem(d, tr.ver, xs[0]).0;
    NextRecord(d, tr.ver, tr.verset, xs, tr.Stream());
    BareExactly(all, data, input, c, tr.ver, tr.verset, tr.handin, r);
    CalmSuffix(all, data, input, c);
    CalmHas(input);
    if pending.Some? {
      tr.d := tr.d.(pending := pending);
    }
    var o, b;
    ghost var frag;
    o, t, frag, b := tr.Tlsrecread(start);
    ok, p := o == Record, [];
    if ok {
      b.Length(frag);
      p := b.Peek(b.wp - b.rp, frag);
      assert p == frag;
      StaysInStep(all, data, input, tr.data, tr.input, c, |r|);
    }
  }

  lemma CalmHas(input: seq<Event>)
    requires Calm(input)
    ensures Interrupt !in input
  {}

  /** Reads the records of a conversation from a new connection. All come back, and the
      reader ends in the writer's last state, exactly if the transport never cuts behind
      a bare header. */
  method Session(tr: TlsRec, news: seq<Option<Secret>>, start: nat, ghost xs: seq<Item>)
      returns (ok: bool, got: seq<(byte, seq<byte>)>)
    requires tr.Valid() && tr.data == [] && Calm(tr.input) && tr.ver < 0x1_0000
    requires StateOk(tr.d) && AllOk(tr.d, tr.ver, xs) && TypesOk(xs) && news == News(xs)
    requires tr.Stream() == Flat(Wire(tr.d, tr.ver, xs))
    modifies tr, tr.list
    ensures ok <==> NoBareCut(old(tr.input), Wire(old(tr.d), old(tr.ver), xs), |Wire(old(tr.d), old(tr.ver), xs)|)
    ensures ok ==> got == Sent(xs) && tr.d == Final(old(tr.d), old(tr.ver), xs) && tr.Stream() == []
  {
    hide Flat, Going, StateOk, BlockOk, AllOk, TypesOk, Wire, Final, NoBareCut, BareCut, CutAt, Sent, News, WriteItem, List,
        Calm;
    ghost var all, d0, ver, ys := tr.input, tr.d, tr.ver, xs;
    IsGoing(tr, xs);
    ghost var wire, done: seq<seq<byte>> := Wire(d0, ver, xs), [];
    NoneCut(all, wire);
    assert [] + wire == wire;
    got := [];
    var i := 0;
    ghost var l0 := tr.list;
    NewsLength(xs);
    assert got + Sent(xs) == Sent(xs);
    while i < |news|
      invariant i + |ys| == |news| && news[i..] == News(ys) && tr.ver == ver && BlockOk(tr.d)
      invariant Going(tr, all, ys, |Flat(done)|)
      invariant wire == done + Wire(tr.d, ver, ys) && NoBareCut(all, wire, |done|)
      invariant got + Sent(ys) == Sent(xs) && Final(tr.d, ver, ys) == Final(d0, ver, xs)
      invariant forall j :: 0 <= j < |tr.list| ==> tr.list[j] in l0 || fresh(tr.list[j])
    {
      ghost var d, r, n := tr.d, WriteItem(tr.d, ver, ys[0]).0, |done|;
      NewsFirst(ys);
      GoingOn(tr, all, ys, |Flat(done)|);
      assert news[i] == news[i..][0] && news[i + 1..] == news[i..][1..];
      var more, t, p := Readnext(tr, news[i], start, all, ys, |Flat(done)|);
      FlatAppend(done, r);
      BareAt(all, wire, done, r);
      if !more {
        IsCut(all, wire, n);
        return false, got;
      }
      GoingOk(tr, all, ys[1..], |Flat(done + [r])|);
      NotCut(all, wire, n);
      assert wire == done + [r] + Wire(tr.d, ver, ys[1..]);
      assert got + ([(t, p)] + Sent(ys[1..])) == got + [(t, p)] + Sent(ys[1..]);
      got, done, ys := got + [(t, p)], done + [r], ys[1..];
      i := i + 1;
    }
    GoingOk(tr, all, ys, |Flat(done)|);
    Nothing(tr.d, ver);
    assert done + [] == done;
    ok := true;
  }

  lemma IsGoing(tr: TlsRec, xs: seq<Item>)
    requires tr.Valid() && tr.data == [] && Calm(tr.input) && tr.ver < 0x1_0000
    requires StateOk(tr.d) && AllOk(tr.d, tr.ver, xs) && TypesOk(xs) && tr.Stream() == Flat(Wire(tr.d, tr.ver, xs))
    ensures Going(tr, tr.input, xs, |Flat<byte>([])|) && BlockOk(tr.d)
  {}

  lemma GoingOk(tr: TlsRec, all: seq<Event>, xs: seq<Item>, c: nat)
    requires Going(tr, all, xs, c)
    ensures BlockOk(tr.d) && tr.Stream() == Flat(Wire(tr.d, tr.ver, xs)) && Flat<byte>([]) == []
  {}

  lemma GoingOn(tr: TlsRec, all: seq<Event>, xs: seq<Item>, c: nat)
    requires Going(tr, all, xs, c) && xs != []
    ensures BlockOk(tr.d)
    ensures var (r, d1) := WriteItem(tr.d, tr.ver, xs[0]);
            && BlockOk(d1) && Wire(tr.d, tr.ver, xs) == [r] + Wire(d1, tr.ver, xs[1..])
            && Final(tr.d, tr.ver, xs) == Final(d1, tr.ver, xs[1..])
  {
    hide WriteItem, Flat, Wire, Final, AllOk, Calm, Full, InStep, List, FirstRecord, ReadRecord, VersionOk, Get16, ItemOk;
    NextRecord(tr.d, tr.ver, tr.verset, xs, tr.Stream());
  }

  lemma NoneCut(all: seq<Event>, wire: seq<seq<byte>>)
    ensures NoBareCut(all, wire, 0)
  {}

  lemma BareAt(all: seq<Event>, wire: seq<seq<byte>>, done: seq<seq<byte>>, r: seq<byte>)
    requires done + [r] <= wire
    ensures BareCut(all, wire, |done|) <==> |r| == RECHDRLEN && CutAt(all, |Flat(done)| + RECHDRLEN)
  {
    hide CutAt, Flat;
    FlatAppend(done, r);
    assert wire[..|done| + 1] == done + [r] && wire[|done|] == (done + [r])[|done|];
  }

  // ---- It does happen ----

  /** An empty write before another one, in the clear. */
  function EmptyFirst(rnd: nat -> seq<byte>): seq<Item> {
    [Frag(RAPPLICATION, [], rnd), Frag(RAPPLICATION, [1], rnd)]
  }

  const CLEAR := OneWay(0, None, None)

  lemma EmptyFirstWire(ver: nat, rnd: nat -> seq<byte>)
    requires forall n: nat :: |rnd(n)| == n
    ensures AllOk(CLEAR, ver, EmptyFirst(rnd)) && TypesOk(EmptyFirst(rnd)) && StateOk(CLEAR)
    ensures Wire(CLEAR, ver, EmptyFirst(rnd)) == [Header(RAPPLICATION, ver, 0), Header(RAPPLICATION, ver, 1) + [1]]
  {
    hide Put16, Header;
    var xs := EmptyFirst(rnd);
    assert xs == [xs[0]] + [xs[1]] && xs[1..] == [xs[1]] && [xs[1]] == [xs[1]] + [] && [xs[1]][1..] == [];
    assert Header(RAPPLICATION, ver, 0) + [] == Header(RAPPLICATION, ver, 0);
    assert ItemOk(CLEAR, ver, xs[0]) && ItemOk(CLEAR, ver, xs[1]);
    WireCons(CLEAR, ver, xs[0], [xs[1]]);
    WireCons(CLEAR, ver, xs[1], []);
    assert WriteItem(CLEAR, ver, xs[0]).1 == CLEAR == WriteItem(CLEAR, ver, xs[1]).1;
    assert AllOk(CLEAR, ver, []) && AllOk(CLEAR, ver, [xs[1]]);
  }

  /** Two blocks, one a record, break the reader; in one block it is all read. */
  lemma CuttingMatters(ver: nat, rnd: nat -> seq<byte>)
    requires forall n: nat :: |rnd(n)| == n
    ensures var wire := Wire(CLEAR, ver, EmptyFirst(rnd));
            && |wire| == 2 && AllOk(CLEAR, ver, EmptyFirst(rnd)) && TypesOk(EmptyFirst(rnd)) && StateOk(CLEAR)
            && BareCut([Chunk(wire[0]), Chunk(wire[1])], wire, 0)
            && NoBareCut([Chunk(wire[0] + wire[1])], wire, 2)
  {
    hide Wire, AllOk, TypesOk, Header, Arriving, Flat, EmptyFirst, StateOk;
    EmptyFirstWire(ver, rnd);
    var wire := Wire(CLEAR, ver, EmptyFirst(rnd));
    var two, one := [Chunk(wire[0]), Chunk(wire[1])], [Chunk(wire[0] + wire[1])];
    FlatOne(wire[0]);
    assert wire[..1] == [wire[0]];
    CameFirst(two);
    CameFirst(one);
    assert Came(two, 1) == |Flat(wire[..0 + 1])|;
  }
}
