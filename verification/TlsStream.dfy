/**
 Whole conversations over the record layer: the writer cuts its writes into records
 and changes ciphers, the reader gets a stream of bytes back into records.
 */
module TlsStream {
  import opened Bytes
  import opened TlsRecord

  /** A record to be written: a fragment of a write, or the change to a new secret. rnd
      gives the random bytes for its IV. */
  datatype Item =
    | Frag(t: byte, frag: seq<byte>, rnd: nat -> seq<byte>)
    | Change(sec: Secret, rnd: nat -> seq<byte>)

  /** The pieces tlsrecwrite makes of one write. */
  function Cut(t: byte, data: seq<byte>, rnd: nat -> seq<byte>): seq<Item>
    decreases |data|
  {
    if |data| <= MAXRECLEN then [Frag(t, data, rnd)]
    else [Frag(t, data[..MAXRECLEN], rnd)] + Cut(t, data[MAXRECLEN..], rnd)
  }

  function Type(x: Item): byte { if x.Frag? then x.t else RCHANGECIPHERSPEC }

  function Content(x: Item): seq<byte> { if x.Frag? then x.frag else [1] }

  function NewIv(d: OneWay, rnd: nat -> seq<byte>): seq<byte> {
    if d.sec.Some? && d.sec.value.cipher.BlockCipher? then rnd(d.sec.value.cipher.block) else []
  }

  /** The new secret takes effect after the record that announces it. */
  function Switch(d: OneWay): OneWay { OneWay(0, d.pending, None) }

  /** The state in which a record is handled: its new secret has been set beforehand. */
  function Armed(d: OneWay, x: Item): OneWay {
    if x.Change? then d.(pending := Some(x.sec)) else d
  }

  function WriteItem(d: OneWay, ver: nat, x: Item): (seq<byte>, OneWay)
    requires BlockOk(d)
  {
    var (r, d1) := Seal(Armed(d, x), ver, Type(x), Content(x), NewIv(d, x.rnd));
    (r, if x.Change? then Switch(d1) else d1)
  }

  /** What both ends must respect. */
  ghost predicate ItemOk(d: OneWay, ver: nat, x: Item) {
    && (forall n: nat :: |x.rnd(n)| == n)
    && |Content(x)| <= MAXRECLEN && HasBody(d, ver, Content(x))
    && (x.Frag? ==> x.t != RCHANGECIPHERSPEC)
    && (x.Change? ==> Lawful(x.sec))
  }

  ghost predicate StateOk(d: OneWay) { BlockOk(d) && (d.sec.Some? ==> Lawful(d.sec.value)) }

  lemma WriteKeepsOk(d: OneWay, ver: nat, x: Item)
    requires StateOk(d) && ItemOk(d, ver, x)
    ensures StateOk(WriteItem(d, ver, x).1)
  {
    hide Put16, Put64, Aad, HasBody;
  }

  /** The records of a conversation, each written in the state the last one left. */
  function Wire(d: OneWay, ver: nat, xs: seq<Item>): seq<seq<byte>>
    requires BlockOk(d)
    decreases |xs|
  {
    if xs == [] then []
    else
      var (r, d1) := WriteItem(d, ver, xs[0]);
      if BlockOk(d1) then [r] + Wire(d1, ver, xs[1..]) else [r]
  }

  function Final(d: OneWay, ver: nat, xs: seq<Item>): OneWay
    requires BlockOk(d)
    decreases |xs|
  {
    if xs == [] then d
    else
      var d1 := WriteItem(d, ver, xs[0]).1;
      if BlockOk(d1) then Final(d1, ver, xs[1..]) else d1
  }

  ghost predicate AllOk(d: OneWay, ver: nat, xs: seq<Item>)
    requires BlockOk(d)
    decreases |xs|
  {
    xs == [] || (ItemOk(d, ver, xs[0]) && BlockOk(WriteItem(d, ver, xs[0]).1) && AllOk(WriteItem(d, ver, xs[0]).1, ver, xs[1..]))
  }

  lemma WireCons(d: OneWay, ver: nat, x: Item, rest: seq<Item>)
    requires StateOk(d) && ItemOk(d, ver, x)
    ensures var (r, d1) := WriteItem(d, ver, x);
            BlockOk(d1) && Wire(d, ver, [x] + rest) == [r] + Wire(d1, ver, rest) &&
                Final(d, ver, [x] + rest) == Final(d1, ver, rest)
  {
    hide WriteItem, ItemOk;
    WriteKeepsOk(d, ver, x);
    assert ([x] + rest)[1..] == rest;
  }

  /** The output side of a connection. */
  class TlsOut {
    var d: OneWay              // out
    const ver: nat
    var wire: seq<seq<byte>>   // the blocks given to the channel

    constructor (d: OneWay, ver: nat)
      ensures this.d == d && this.ver == ver && wire == []
    {
      this.d, this.ver, wire := d, ver, [];
    }

    /** tlsrecwrite of a block: one record for each piece of at most MAXRECLEN bytes. */
    method Tlsrecwrite(t: byte, data: seq<byte>, rnd: nat -> seq<byte>)
      requires StateOk(d) && t != RCHANGECIPHERSPEC && forall n: nat :: |rnd(n)| == n
      requires data == [] ==> HasBody(d, ver, data)
      modifies this
      ensures StateOk(d) && wire == old(wire) + Wire(old(d), ver, Cut(t, data, rnd))
      ensures d == Final(old(d), ver, Cut(t, data, rnd))
    {
      hide WriteItem, HasBody, Lawful;
      var bb, more := data, true;
      ghost var xs := Cut(t, data, rnd);
      assert wire + Wire(d, ver, xs) == old(wire) + Wire(old(d), ver, xs);
      while more
        invariant StateOk(d) && (more && bb == [] ==> HasBody(d, ver, bb))
        invariant more ==> xs == Cut(t, bb, rnd)
        invariant !more ==> xs == []
        invariant wire + Wire(d, ver, xs) == old(wire) + Wire(old(d), ver, Cut(t, data, rnd))
        invariant Final(d, ver, xs) == Final(old(d), ver, Cut(t, data, rnd))
        decreases |bb|, more
      {
        var n := |bb|;
        if n > MAXRECLEN {
          n := MAXRECLEN;
        } else {
          more := false;
        }
        var x := Frag(t, bb[..n], rnd);
        CutCons(t, bb, rnd);
        NonEmptyBody(d, ver, bb[..n]);
        assert bb[..n] == [] ==> bb == [];
        WireCons(d, ver, x, xs[1..]);
        WriteKeepsOk(d, ver, x);
        var (r, d1) := WriteItem(d, ver, x);
        assert wire + ([r] + Wire(d1, ver, xs[1..])) == wire + [r] + Wire(d1, ver, xs[1..]);
        wire, d := wire + [r], d1;
        bb, xs := bb[n..], xs[1..];
      }
    }

    /** The change to the pending secret, announced under the old one. */
    method Changecipher(rnd: nat -> seq<byte>) returns (ok: bool)
      requires StateOk(d) && forall n: nat :: |rnd(n)| == n
      requires d.pending.Some? ==> Lawful(d.pending.value)
      modifies this
      ensures ok <==> old(d.pending).Some?
      ensures ok ==> var (r, d1) := WriteItem(old(d), ver, Change(old(d.pending).value, rnd));
                     wire == old(wire) + [r] && d == d1 && d.sec == old(d.pending) && d.sn == 0 && d.pending == None
      ensures !ok ==> wire == old(wire) && d == old(d)
    {
      hide Lawful;
      if d.pending == None {
        return false;
      }
      var sec := d.pending;
      var x := Change(sec.value, rnd);
      assert Armed(d, x) == d;
      var (r, d1) := Seal(d, ver, RCHANGECIPHERSPEC, [1], NewIv(d, rnd));
      SealKeepsPending(d, ver, RCHANGECIPHERSPEC, [1], NewIv(d, rnd));
      wire, d := wire + [r], OneWay(0, sec, None);
      ok := true;
    }
  }

  lemma CutCons(t: byte, data: seq<byte>, rnd: nat -> seq<byte>)
    ensures var n := if |data| > MAXRECLEN then MAXRECLEN else |data|;
            var xs := Cut(t, data, rnd);
            && xs == [Frag(t, data[..n], rnd)] + xs[1..]
            && xs[1..] == (if n < |data| then Cut(t, data[n..], rnd) else [])
  {
    if |data| <= MAXRECLEN {
      assert data[..|data|] == data;
    }
  }

  lemma NonEmptyBody(d: OneWay, ver: nat, frag: seq<byte>)
    ensures frag != [] ==> HasBody(d, ver, frag)
  {}

  // ---- The reader ----

  /** A record's bytes at the front of a stream, once they are all there. */
  function FirstRecord(s: seq<byte>): Option<seq<byte>> {
    if |s| < RECHDRLEN then None
    else
      var len := Get16(s[3..5]);
      if |s| < RECHDRLEN + len then None else Some(s[..RECHDRLEN + len])
  }

  /** Until the version has been settled, any version in range is let in. */
  predicate VersionOk(v: nat, ver: nat, verset: bool) {
    v == ver || (!verset && MINPROTOVERSION <= v <= MAXPROTOVERSION)
  }

  /** tlsrecread: the version and length checks, opening, and the change of ciphers. */
  datatype Reading = Got(t: byte, frag: seq<byte>, d: OneWay) | Failed

  function ReadRecord(d: OneWay, ver: nat, verset: bool, r: seq<byte>): Reading
    requires |r| >= RECHDRLEN && BlockOk(d)
  {
    if !VersionOk(Get16(r[1..3]), ver, verset) || |r| - RECHDRLEN > MAXCIPHERRECLEN then Failed
    else
      var o := Open(d, ver, r[..RECHDRLEN], r[RECHDRLEN..]);
      if o.Bad? then Failed
      else if r[0] == RCHANGECIPHERSPEC then
        if o.frag == [1] && o.d.pending.Some? then Got(r[0], o.frag, Switch(o.d)) else Failed
      else if r[0] in {RALERT, RHANDSHAKE, RAPPLICATION, SSL2CLIENTHELLO} then Got(r[0], o.frag, o.d)
      else Failed
  }

  /** Reads a whole stream. The reader's new secrets are set in time for the records
      that announce them. */
  function ReadAll(d: OneWay, ver: nat, verset: bool, s: seq<byte>, secrets: seq<Secret>): Option<(seq<(byte, seq<byte>)>, OneWay)>
    requires BlockOk(d)
    decreases |s|
  {
    if s == [] then Some(([], d))
    else
      var r := FirstRecord(s);
      if r == None then None
      else
        var change := s[0] == RCHANGECIPHERSPEC;
        if change && secrets == [] then None
        else
          var d1 := if change then d.(pending := Some(secrets[0])) else d;
          var g := ReadRecord(d1, ver, verset, r.value);
          if g.Failed? || !BlockOk(g.d) then None
          else
            var rest := ReadAll(g.d, ver, verset, s[|r.value|..], if change then secrets[1..] else secrets);
            if rest == None then None else Some(([(g.t, g.frag)] + rest.value.0, rest.value.1))
  }

  function Secrets(xs: seq<Item>): seq<Secret> {
    if xs == [] then [] else (if xs[0].Change? then [xs[0].sec] else []) + Secrets(xs[1..])
  }

  function Sent(xs: seq<Item>): seq<(byte, seq<byte>)> {
    if xs == [] then [] else [(Type(xs[0]), Content(xs[0]))] + Sent(xs[1..])
  }

  predicate TypesOk(xs: seq<Item>) {
    forall i :: 0 <= i < |xs| ==> Type(xs[i]) in {RCHANGECIPHERSPEC, RALERT, RHANDSHAKE, RAPPLICATION}
  }

  lemma ReadWritten(d: OneWay, ver: nat, verset: bool, x: Item, rest: seq<byte>)
    requires StateOk(d) && ItemOk(d, ver, x) && ver < 0x1_0000 && TypesOk([x])
    ensures var (r, d1) := WriteItem(d, ver, x);
            && |r| >= RECHDRLEN && r[0] == Type(x)
            && FirstRecord(r + rest) == Some(r)
            && ReadRecord(Armed(d, x), ver, verset, r) == Got(Type(x), Content(x), d1)
  {
    hide Lawful, Aad, Put64, Seal, Open, HasBody;
    var a := Armed(d, x);
    assert HasBody(a, ver, Content(x)) by { SameBody(d, x, ver, Content(x)); }
    assert [x][0] == x;
    OpenSealed(a, ver, Type(x), Content(x), NewIv(d, x.rnd));
    SealKeepsPending(a, ver, Type(x), Content(x), NewIv(d, x.rnd));
    var r := WriteItem(d, ver, x).0;
    var n := |r| - RECHDRLEN;
    HeaderFields(Type(x), ver, n, r, rest);
  }

  lemma SealKeepsPending(d: OneWay, ver: nat, t: byte, frag: seq<byte>, iv: seq<byte>)
    requires BlockOk(d)
    ensures Seal(d, ver, t, frag, iv).1.pending == d.pending
  {}

  lemma SameBody(d: OneWay, x: Item, ver: nat, frag: seq<byte>)
    ensures HasBody(Armed(d, x), ver, frag) == HasBody(d, ver, frag)
  {}

  lemma HeaderFields(t: byte, ver: nat, n: nat, r: seq<byte>, rest: seq<byte>)
    requires ver < 0x1_0000 && n <= MAXCIPHERRECLEN && |r| == RECHDRLEN + n && r[..RECHDRLEN] == Header(t, ver, n)
    ensures r[0] == t && Get16(r[1..3]) == ver && FirstRecord(r + rest) == Some(r)
  {
    var h := Header(t, ver, n);
    assert r[0] == h[0] && r[1] == h[1] && r[2] == h[2] && r[3] == h[3] && r[4] == h[4];
    assert h[1..3] == Put16(ver) && h[3..5] == Put16(n);
    Get16Put16(ver);
    Get16Put16(n);
    assert r[1..3] == h[1..3] && (r + rest)[3..5] == h[3..5];
  }

  lemma ReadAllStep(d: OneWay, d1: OneWay, ver: nat, verset: bool, r: seq<byte>, more: seq<byte>, secrets: seq<Secret>, g: Reading)
    requires BlockOk(d) && BlockOk(d1) && |r| >= RECHDRLEN && FirstRecord(r + more) == Some(r)
    requires ReadRecord(d1, ver, verset, r) == g && g.Got? && BlockOk(g.d)
    requires d1 == if r[0] == RCHANGECIPHERSPEC && secrets != [] then d.(pending := Some(secrets[0])) else d
    requires r[0] == RCHANGECIPHERSPEC ==> secrets != []
    ensures var rest := ReadAll(g.d, ver, verset, more, if r[0] == RCHANGECIPHERSPEC then secrets[1..] else secrets);
            ReadAll(d, ver, verset, r + more, secrets) ==
            if rest == None then None else Some(([(g.t, g.frag)] + rest.value.0, rest.value.1))
  {
    hide ReadRecord, FirstRecord;
    assert (r + more)[|r|..] == more && (r + more)[0] == r[0];
  }

  /** The stream round-trips: the reader recovers every fragment with its type, in order,
      each under the secret and sequence number it was written with, and both ends
      finish in the same state. */
  lemma {:induction false} StreamRoundTrip(d: OneWay, ver: nat, verset: bool, xs: seq<Item>)
    requires StateOk(d) && AllOk(d, ver, xs) && ver < 0x1_0000 && TypesOk(xs)
    ensures ReadAll(d, ver, verset, Flat(Wire(d, ver, xs)), Secrets(xs)) == Some((Sent(xs), Final(d, ver, xs)))
    decreases |xs|
  {
    hide WriteItem, FirstRecord, ReadRecord, ItemOk, TypesOk, ReadAll, Flat;
    if xs == [] {
      Nothing(d, ver, verset);
    } else {
      var x := xs[0];
      var (r, d1) := WriteItem(d, ver, x);
      var more := Flat(Wire(d1, ver, xs[1..]));
      FlatCons(r, Wire(d1, ver, xs[1..]));
      TypesOkTail(xs);
      WriteKeepsOk(d, ver, x);
      ReadWritten(d, ver, verset, x, more);
      StreamRoundTrip(d1, ver, verset, xs[1..]);
      TypeOfChange(d, ver, x);
      ReadAllStep(d, Armed(d, x), ver, verset, r, more, Secrets(xs), Got(Type(x), Content(x), d1));
      assert x.Change? ==> Secrets(xs)[1..] == Secrets(xs[1..]);
      assert x.Frag? ==> Secrets(xs) == Secrets(xs[1..]);
    }
  }

  lemma Nothing(d: OneWay, ver: nat, verset: bool)
    requires BlockOk(d)
    ensures ReadAll(d, ver, verset, Flat([]), []) == Some(([], d))
  {}

  lemma TypesOkTail(xs: seq<Item>)
    requires TypesOk(xs) && xs != []
    ensures TypesOk(xs[1..]) && TypesOk([xs[0]])
  {}

  lemma TypeOfChange(d: OneWay, ver: nat, x: Item)
    requires ItemOk(d, ver, x)
    ensures Type(x) == RCHANGECIPHERSPEC <==> x.Change?
  {}

  function Contents(xs: seq<Item>): seq<seq<byte>> {
    if xs == [] then [] else [Content(xs[0])] + Contents(xs[1..])
  }

  /** The pieces of a write, all of its type and full but for the last, put together are the
      write; an empty write is one empty piece. */
  lemma {:induction false} CutWhole(t: byte, data: seq<byte>, rnd: nat -> seq<byte>)
    ensures Flat(Contents(Cut(t, data, rnd))) == data
    ensures var xs := Cut(t, data, rnd);
            && xs != [] && |Content(xs[|xs| - 1])| <= MAXRECLEN
            && (forall i :: 0 <= i < |xs| - 1 ==> |Content(xs[i])| == MAXRECLEN)
            && forall i :: 0 <= i < |xs| ==> xs[i].Frag? && Type(xs[i]) == t
    ensures forall i :: 0 <= i < |Cut(t, data, rnd)| ==> data != [] ==> Content(Cut(t, data, rnd)[i]) != []
    decreases |data|
  {
    var xs := Cut(t, data, rnd);
    if |data| <= MAXRECLEN {
      assert xs[1..] == [];
      FlatOne(data);
    } else {
      CutWhole(t, data[MAXRECLEN..], rnd);
      assert xs[1..] == Cut(t, data[MAXRECLEN..], rnd);
      FlatCons(data[..MAXRECLEN], Contents(xs[1..]));
    }
  }
}
