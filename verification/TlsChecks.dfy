/**
 What the record layer of kern/devtls.c protects and what it lets in: the bytes of a
 record, the input of its MAC, and the sequence number, as sections 6.2.3.1 to 6.2.3.3 of
 RFC 5246 put them together.
 */
module TlsChecks {
  import opened Bytes
  import opened TlsPad
  import opened TlsRecord
  import opened TlsStream

  /** A number in n bytes, the highest first. */
  function Big(n: nat, x: nat): (b: seq<byte>)
    ensures |b| == n
  {
    if n == 0 then [] else Big(n - 1, x / 0x100) + [(x % 0x100) as byte]
  }

  /** What the MAC is taken of, before the fragment: the sequence number, the type, the
      version but for SSL 3.0, and the length of the fragment. h is the record's header. */
  function MacHead(ver: nat, sn: nat, h: seq<byte>, n: nat): seq<byte>
    requires |h| == 5
  {
    Big(8, sn) + [h[0]] + (if ver == 0x0300 then [] else [h[1], h[2]]) + Big(2, n)
  }

  /** The random block in front, from TLS 1.1 on. */
  function FrontLen(block: nat, ver: nat): nat { if ver >= 0x0302 then block else 0 }

  /** Padding: its last byte counts the bytes before it, and from TLS 1.0 on all are equal. */
  predicate PadOk(ver: nat, p: seq<byte>) {
    && p != [] && p[|p| - 1] as nat == |p| - 1
    && (ver != 0x0300 ==> forall i :: 0 <= i < |p| ==> p[i] == p[|p| - 1])
  }

  /** The deciphered bytes p are a block in front, the fragment, its MAC and padding. */
  predicate BlockParts(s: Secret, ver: nat, sn: nat, h: seq<byte>, block: nat, p: seq<byte>, frag: seq<byte>, pad: nat)
    requires |h| == 5
  {
    var iv, m := FrontLen(block, ver), s.mac(MacHead(ver, sn, h, |frag|), frag);
    && |p| == iv + |frag| + |m| + pad && (block > 0 ==> |p| % block == 0) && iv + |frag| + |m| > 0
    && p[iv..iv + |frag|] == frag && p[iv + |frag|..iv + |frag| + |m|] == m && PadOk(ver, p[iv + |frag| + |m|..])
  }

  /** The body under the header h is that of the fragment, with the sequence number d.sn. */
  ghost predicate Authentic(d: OneWay, ver: nat, h: seq<byte>, body: seq<byte>, frag: seq<byte>)
    requires |h| == 5
  {
    match d.sec
    case None => frag == body
    case Some(s) =>
      match s.cipher
      case StreamCipher(_, dec, _) => dec(s.k, body) == frag + s.mac(MacHead(ver, d.sn, h, |frag|), frag)
      case BlockCipher(block, _, dec, _) =>
        exists pad: nat :: BlockParts(s, ver, d.sn, h, block, dec(s.k, body), frag, pad)
      case AeadCipher(_, _, open) => open(MacHead(ver, d.sn, h, |frag|), body) == Some(frag)
  }

  /** After a record the sequence number is the next one, and the cipher has moved on. */
  ghost predicate Moved(d: OneWay, e: OneWay, body: seq<byte>) {
    && e.pending == d.pending && e.sec.Some? == d.sec.Some?
    && (d.sec == None ==> e.sn == d.sn)
    && (d.sec.Some? ==>
          && e.sn == (if d.sn + 1 < 0x1_0000_0000_0000_0000 then d.sn + 1 else (d.sn + 1) % 0x1_0000_0000_0000_0000)
          && e.sec.value.cipher == d.sec.value.cipher && e.sec.value.mac == d.sec.value.mac
          && e.sec.value.maclen == d.sec.value.maclen
          && e.sec.value.k == match d.sec.value.cipher
                              case AeadCipher(_, _, _) => d.sec.value.k
                              case StreamCipher(_, _, next) => next(d.sec.value.k, body)
                              case BlockCipher(_, _, _, next) => next(d.sec.value.k, body))
  }

  // ---- Numbers ----

  lemma Big2(x: nat)
    ensures Big(2, x) == Put16(x)
  {
    assert Big(1, x / 0x100) == Big(0, x / 0x100 / 0x100) + [(x / 0x100 % 0x100) as byte];
  }

  function Over(x: nat, p: nat): nat
    requires p > 0
  {
    x / p
  }

  lemma {:induction false} BigParts(m: nat, n: nat, x: nat)
    ensures Big(m + n, x) == Big(m, Over(x, Power(n))) + Big(n, x)
    decreases n
  {
    hide Over;
    if n > 0 {
      BigParts(m, n - 1, Over(x, 0x100));
      DivTwice(x, Power(n - 1));
      BigLast(m + n, x);
      BigLast(n, x);
    } else {
      OverOne(x);
    }
  }

  lemma BigLast(n: nat, x: nat)
    requires n > 0
    ensures Big(n, x) == Big(n - 1, Over(x, 0x100)) + [(x % 0x100) as byte]
  {}

  lemma OverOne(x: nat)
    ensures Over(x, 1) == x
  {}

  function Power(n: nat): (p: nat)
    ensures p > 0
  {
    if n == 0 then 1 else 0x100 * Power(n - 1)
  }

  lemma DivTwice(x: nat, p: nat)
    requires p > 0
    ensures Over(Over(x, 0x100), p) == Over(x, 0x100 * p)
  {
    var q, r := x / 0x100, x % 0x100;
    var u, v := q / p, q % p;
    var y := 0x100 * v + r;
    assert x == 0x100 * (p * u + v) + r == (0x100 * p) * u + y;
    assert y < 0x100 * p;
    Quotient(x, 0x100 * p, u, y);
  }

  lemma Quotient(x: nat, p: nat, u: nat, y: nat)
    requires p > 0 && x == p * u + y && y < p
    ensures x / p == u
  {
    var q, r := x / p, x % p;
    assert p * (u - q) == r - y;
    TimesBound(p, u - q);
  }

  lemma Powers()
    ensures Power(2) == 0x1_0000 && Power(4) == 0x1_0000_0000
  {
    assert Power(1) == 0x100;
    assert Power(3) == 0x100_0000;
  }

  lemma Big4(x: nat)
    ensures Big(4, x) == Put32(x)
  {
    hide Put16;
    BigParts(2, 2, x);
    Powers();
    Big2(x / 0x1_0000);
    Big2(x);
  }

  lemma Big8(x: nat)
    ensures Big(8, x) == Put64(x)
  {
    hide Put32;
    BigParts(4, 4, x);
    Powers();
    Big4(x / 0x1_0000_0000);
    Big4(x);
  }

  lemma HeadIs(ver: nat, sn: nat, h: seq<byte>, n: nat)
    requires |h| == 5
    ensures Aad(ver, sn, h[..3] + Put16(n)) == MacHead(ver, sn, h, n)
  {
    hide Put16, Put64;
    Big8(sn);
    Big2(n);
    var g := h[..3] + Put16(n);
    assert g[3] == Put16(n)[0] && g[4] == Put16(n)[1] && Put16(n) == [Put16(n)[0], Put16(n)[1]];
    if ver != 0x0300 {
      assert g == [h[0]] + [h[1], h[2]] + Put16(n);
    }
  }

  // ---- What is let in ----

  lemma BlockOpens(d: OneWay, ver: nat, h: seq<byte>, body: seq<byte>, frag: seq<byte>)
    requires |h| == 5 && d.sec.Some? && d.sec.value.cipher.BlockCipher? && Lawful(d.sec.value)
    requires Open(d, ver, h, body).Ok? && Open(d, ver, h, body).frag == frag
    ensures Authentic(d, ver, h, body, frag)
  {
    hide Aad, MacHead;
    var s := d.sec.value;
    var (p, n) := Decrypt(s, ver, body);
    var iv := Ivlen(s, ver);
    HeadIs(ver, d.sn, h, |frag|);
    assert p[n..] == p[iv + |frag| + s.maclen..];
    assert BlockParts(s, ver, d.sn, h, s.cipher.block, p, frag, |p| - n);
  }

  lemma UnpadIs(ver: nat, block: nat, p: seq<byte>, n: nat)
    requires block > 0 && 0 < n <= |p| && |p| % block == 0 && PadOk(ver, p[n..])
    ensures (if ver == SSL3VERSION then SslUnpad(p, block) else TlsUnpad(p, block)) == n
  {
    var q := p[n..];
    assert q[|q| - 1] == p[|p| - 1];
  }

  lemma BlockLetIn(d: OneWay, ver: nat, h: seq<byte>, body: seq<byte>, frag: seq<byte>)
    requires |h| == 5 && d.sec.Some? && d.sec.value.cipher.BlockCipher? && Lawful(d.sec.value)
    requires Authentic(d, ver, h, body, frag)
    ensures Open(d, ver, h, body) == Ok(frag, Advance(d, d.sec.value, body))
  {
    hide Aad, MacHead, TlsUnpad, SslUnpad, PadOk;
    var s := d.sec.value;
    var p := s.cipher.dec(s.k, body);
    var pad: nat :| BlockParts(s, ver, d.sn, h, s.cipher.block, p, frag, pad);
    UnpadIs(ver, s.cipher.block, p, |p| - pad);
    HeadIs(ver, d.sn, h, |frag|);
  }

  lemma StreamOpens(d: OneWay, ver: nat, h: seq<byte>, body: seq<byte>, frag: seq<byte>)
    requires |h| == 5 && d.sec.Some? && d.sec.value.cipher.StreamCipher? && Lawful(d.sec.value)
    ensures Open(d, ver, h, body) == Ok(frag, Advance(d, d.sec.value, body)) <==> Authentic(d, ver, h, body, frag)
    ensures Open(d, ver, h, body).Ok? ==> Open(d, ver, h, body).d == Advance(d, d.sec.value, body)
  {
    hide Aad, MacHead;
    var s := d.sec.value;
    var p := s.cipher.dec(s.k, body);
    HeadIs(ver, d.sn, h, |frag|);
    var m := s.mac(MacHead(ver, d.sn, h, |frag|), frag);
    if p == frag + m {
      assert p[..|frag|] == frag && p[|frag|..] == m && p[0..0 + |frag|] == frag && p[|frag|..|p|] == m;
    }
    if Open(d, ver, h, body) == Ok(frag, Advance(d, d.sec.value, body)) {
      assert p == p[..|frag|] + p[|frag|..];
    }
  }

  lemma AeadOpens(d: OneWay, ver: nat, h: seq<byte>, body: seq<byte>, frag: seq<byte>)
    requires |h| == 5 && d.sec.Some? && d.sec.value.cipher.AeadCipher? && Lawful(d.sec.value)
    ensures Open(d, ver, h, body) == Ok(frag, Advance(d, d.sec.value, body)) <==> Authentic(d, ver, h, body, frag)
  {
    hide Aad, MacHead;
    HeadIs(ver, d.sn, h, |frag|);
    var s := d.sec.value;
    var n := |body| - Ivlen(s, ver) - s.maclen;
    if n >= 0 {
      HeadIs(ver, d.sn, h, n);
    }
  }

  lemma OpensOnly(d: OneWay, ver: nat, h: seq<byte>, body: seq<byte>)
    requires |h| == 5 && BlockOk(d) && Open(d, ver, h, body).Ok?
    ensures var e := Open(d, ver, h, body).d; e == if d.sec == None then d else Advance(d, d.sec.value, body)
  {
    hide Aad;
  }

  lemma AdvanceMoves(d: OneWay, body: seq<byte>, e: OneWay)
    ensures Moved(d, e, body) <==> e == if d.sec == None then d else Advance(d, d.sec.value, body)
  {}

  /** A body opens to a fragment exactly if it is authentic under this sequence number:
      every other body is refused. */
  lemma OpensAuthentic(d: OneWay, ver: nat, h: seq<byte>, body: seq<byte>, frag: seq<byte>, e: OneWay)
    requires |h| == 5 && BlockOk(d) && (d.sec.Some? ==> Lawful(d.sec.value))
    ensures Open(d, ver, h, body) == Ok(frag, e) <==> Authentic(d, ver, h, body, frag) && Moved(d, e, body)
  {
    hide Open, Authentic, Moved, Advance;
    AdvanceMoves(d, body, e);
    if Open(d, ver, h, body).Ok? {
      OpensOnly(d, ver, h, body);
    }
    if d.sec == None {
      ClearOpens(d, ver, h, body, frag);
    } else {
      match d.sec.value.cipher
      case StreamCipher(_, _, _) => StreamOpens(d, ver, h, body, frag);
      case AeadCipher(_, _, _) => AeadOpens(d, ver, h, body, frag);
      case BlockCipher(_, _, _, _) =>
        if Open(d, ver, h, body) == Ok(frag, e) {
          BlockOpens(d, ver, h, body, frag);
        }
        if Authentic(d, ver, h, body, frag) {
          BlockLetIn(d, ver, h, body, frag);
        }
    }
  }

  lemma ClearOpens(d: OneWay, ver: nat, h: seq<byte>, body: seq<byte>, frag: seq<byte>)
    requires |h| == 5 && d.sec == None
    ensures Open(d, ver, h, body) == Ok(body, d)
    ensures Authentic(d, ver, h, body, frag) <==> frag == body
  {}

  predicate VersionIn(h: seq<byte>, ver: nat, verset: bool)
    requires |h| >= 3
  {
    var v := h[1] as nat * 0x100 + h[2] as nat;
    v == ver || (!verset && 0x0300 <= v <= 0x03FF)
  }

  /** A record is read exactly if its version is the one agreed on, or any before that is,
      it is not too long, it is authentic under the sequence number it comes at, and its
      type is known; a change of ciphers must say 1 and have a secret to change to. */
  lemma RecordLetIn(d: OneWay, ver: nat, verset: bool, r: seq<byte>, t: byte, frag: seq<byte>, e: OneWay)
    requires |r| >= 5 && BlockOk(d) && (d.sec.Some? ==> Lawful(d.sec.value))
    ensures ReadRecord(d, ver, verset, r) == Got(t, frag, e) <==>
              && VersionIn(r, ver, verset) && |r| - 5 <= 0x4800 && t == r[0] && Authentic(d, ver, r[..5], r[5..], frag)
              && if t == 20 then frag == [1] && d.pending.Some? && e == OneWay(0, d.pending, None)
                 else t in {1, 21, 22, 23} && Moved(d, e, r[5..])
  {
    hide Open, Authentic, Moved, Lawful;
    var h, body := r[..5], r[5..];
    var o := Open(d, ver, h, body);
    assert r[1..3][0] == r[1] && r[1..3][1] == r[2];
    if o.Ok? {
      OpensAuthentic(d, ver, h, body, o.frag, o.d);
      MovedPending(d, o.d, body);
    }
    NextIs(d, body);
    OpensAuthentic(d, ver, h, body, frag, e);
    OpensAuthentic(d, ver, h, body, frag, Next(d, body));
    MovedOnce(d, e, body);
  }

  function Next(d: OneWay, body: seq<byte>): OneWay { if d.sec == None then d else Advance(d, d.sec.value, body) }

  lemma NextIs(d: OneWay, body: seq<byte>)
    ensures Moved(d, Next(d, body), body)
  {}

  lemma MovedPending(d: OneWay, e: OneWay, body: seq<byte>)
    requires Moved(d, e, body)
    ensures e.pending == d.pending
  {}

  lemma MovedOnce(d: OneWay, e: OneWay, body: seq<byte>)
    ensures Moved(d, e, body) ==> e == Next(d, body)
  {}

  // ---- What is sent ----

  /** Padding of one block at most, all of it its own length less one, that makes n bytes
      and itself whole blocks. */
  predicate Fills(pad: seq<byte>, n: nat, block: nat) {
    && 0 < |pad| <= block && (n + |pad|) % block == 0
    && forall i :: 0 <= i < |pad| ==> pad[i] as nat == |pad| - 1
  }

  /** The body sent for a fragment under the header h: encrypted with its MAC, behind the
      random block and before the padding that a block cipher needs. */
  ghost predicate Protects(d: OneWay, ver: nat, h: seq<byte>, frag: seq<byte>, iv: seq<byte>, body: seq<byte>)
    requires |h| == 5
  {
    match d.sec
    case None => body == frag
    case Some(s) =>
      var m := MacHead(ver, d.sn, h, |frag|);
      match s.cipher
      case StreamCipher(enc, _, _) => body == enc(s.k, frag + s.mac(m, frag))
      case AeadCipher(_, seal, _) => body == seal(m, frag)
      case BlockCipher(block, enc, _, _) =>
        var x := (if ver >= 0x0302 then iv else []) + frag + s.mac(m, frag);
        exists pad :: Fills(pad, |x|, block) && body == enc(s.k, x + pad)
  }

  lemma PaddedFills(x: seq<byte>, block: nat) returns (pad: seq<byte>)
    requires 0 < block <= 256
    ensures Fills(pad, |x|, block) && Padded(x, block) == x + pad
  {
    var p := PadByte(|x|, block);
    pad := seq(p + 1, i => p as byte);
  }

  lemma HeaderIs(t: byte, ver: nat, n: nat)
    ensures Header(t, ver, n) == [t] + Big(2, ver) + Big(2, n)
  {
    Big2(ver);
    Big2(n);
  }

  lemma HeadOf(ver: nat, sn: nat, t: byte, n: nat, len: nat)
    ensures Aad(ver, sn, Header(t, ver, n)) == MacHead(ver, sn, Header(t, ver, len), n)
  {
    hide Put64;
    HeadIs(ver, sn, Header(t, ver, len), n);
    var h := Header(t, ver, len);
    assert h[..3] + Put16(n) == Header(t, ver, n);
  }

  /** A record sent has type, version and length in front of such a body, and the next one
      has the next sequence number. */
  lemma SealedBytes(d: OneWay, ver: nat, t: byte, frag: seq<byte>, iv: seq<byte>)
    requires BlockOk(d)
    ensures var (r, e) := Seal(d, ver, t, frag, iv);
            && |r| >= 5 && r[..5] == [t] + Big(2, ver) + Big(2, |r| - 5) && Moved(d, e, r[5..])
            && Protects(d, ver, r[..5], frag, iv, r[5..])
  {
    hide Aad, Put16, MacHead, Header, PadByte, Big, Padded, Fills;
    var (r, e) := Seal(d, ver, t, frag, iv);
    HeaderIs(t, ver, |r| - 5);
    assert r[..5] == Header(t, ver, |r| - 5) && |r| >= 5;
    HeadOf(ver, d.sn, t, |frag|, |r| - 5);
    if d.sec.Some? && d.sec.value.cipher.BlockCipher? {
      var s := d.sec.value;
      var m := MacHead(ver, d.sn, r[..5], |frag|);
      var x := (if ver >= 0x0302 then iv else []) + frag + s.mac(m, frag);
      var pad := PaddedFills(x, s.cipher.block);
      assert r[5..] == s.cipher.enc(s.k, x + pad);
    }
  }

  // ---- Sequence numbers ----

  /** The state in which the i-th of the items is written. */
  function StateAt(d: OneWay, ver: nat, xs: seq<Item>, i: nat): OneWay
    requires BlockOk(d) && i <= |xs|
    decreases i
  {
    if i == 0 then d
    else
      var e := WriteItem(d, ver, xs[0]).1;
      if BlockOk(e) then StateAt(e, ver, xs[1..], i - 1) else e
  }

  /** Under one secret the i-th record after the first has the number i more. */
  lemma {:induction false} Numbered(d: OneWay, ver: nat, xs: seq<Item>, i: nat)
    requires BlockOk(d) && d.sec.Some? && i <= |xs| && (forall j :: 0 <= j < i ==> xs[j].Frag?)
    requires d.sn + i < 0x1_0000_0000_0000_0000
    ensures var e := StateAt(d, ver, xs, i); e.sec.Some? && e.sn == d.sn + i && BlockOk(e)
    decreases i
  {
    hide Seal, Protects, Big;
    if i > 0 {
      SealedBytes(Armed(d, xs[0]), ver, Type(xs[0]), Content(xs[0]), NewIv(d, xs[0].rnd));
      Numbered(WriteItem(d, ver, xs[0]).1, ver, xs[1..], i - 1);
    }
  }
}
