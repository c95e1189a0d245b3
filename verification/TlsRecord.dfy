/**
 The record layer of kern/devtls.c: what tlsrecwrite makes of a write, and what
 tlsrecread makes of a record. Ciphers and MACs are functions with inverse laws; a
 cipher carries a state that changes with every record, as chaining and key streams
 do. Sections 6.1, 6.2.1 and 6.2.3 of RFC 5246.
 */
module TlsPad {
  import opened Bytes

  /** The pad byte for n bytes: how many more follow it in the last block. */
  function PadByte(n: nat, block: nat): (p: nat)
    requires block > 0
    ensures p < block && (n + 1 + p) % block == 0
  {
    var nn := n + block - (n + block) % block;
    PadAligned(n, block);
    nn - (n + 1)
  }

  lemma PadAligned(n: nat, block: nat)
    requires block > 0
    ensures var nn := n + block - (n + block) % block; n < nn <= n + block && nn % block == 0
  {
    var q, r := (n + block) / block, (n + block) % block;
    assert n + block == block * q + r;
    assert n + block - r == block * q;
    MulMod(q, block);
  }

  lemma MulMod(q: nat, block: nat)
    requires block > 0
    ensures (block * q) % block == 0
  {
    var x := block * q;
    var k, r := x / block, x % block;
    assert x == block * k + r;
    assert block * (q - k) == r;
    TimesBound(block, q - k);
  }

  lemma TimesBound(b: int, d: int)
    requires b > 0
    ensures (d >= 1 ==> b * d >= b) && (d <= -1 ==> b * d <= -b)
  {}

  /** What blockpad appends: p + 1 copies of p. */
  function Padded(x: seq<byte>, block: nat): seq<byte>
    requires 0 < block <= 256
  {
    var p := PadByte(|x|, block);
    x + seq(p + 1, i => p as byte)
  }

  predicate AllAre(s: seq<byte>, v: byte) { forall i :: 0 <= i < |s| ==> s[i] == v }

  /** The length tlsunpad finds, or -1: the last byte tells how many equal bytes come
      before it, and something must be left. (With no bytes the answer is -1
      whatever lies before the buffer.) */
  function TlsUnpad(s: seq<byte>, block: nat): int
    requires block > 0
  {
    if s == [] then -1 else
    var pad := s[|s| - 1];
    var nn := |s| - 1 - pad as int;
    if nn <= 0 || |s| % block != 0 || !AllAre(s[nn..], pad) then -1 else nn
  }

  /** sslunpad does not look at the bytes of the padding. */
  function SslUnpad(s: seq<byte>, block: nat): int
    requires block > 0
  {
    if s == [] then -1 else
    var nn := |s| - 1 - s[|s| - 1] as int;
    if nn <= 0 || |s| % block != 0 then -1 else nn
  }

  /** Both take off exactly the padding that blockpad put on, unless it is all there is. */
  lemma UnpadPadded(x: seq<byte>, block: nat)
    requires 0 < block <= 256
    ensures |Padded(x, block)| % block == 0
    ensures TlsUnpad(Padded(x, block), block) == (if x == [] then -1 else |x|)
    ensures SslUnpad(Padded(x, block), block) == (if x == [] then -1 else |x|)
    ensures Padded(x, block)[..|x|] == x
  {
    var p := PadByte(|x|, block);
    var s := Padded(x, block);
    assert |s| == |x| + p + 1;
    assert s[|s| - 1] == p as byte;
    assert AllAre(s[|x|..], p as byte);
  }

  /** blockpad, in the buffer. */
  method Blockpad(buf: array<byte>, n: nat, block: nat) returns (nn: nat)
    requires 0 < block <= 256 && n + block <= buf.Length
    modifies buf
    ensures n < nn <= n + block && buf[..nn] == Padded(old(buf[..n]), block)
    ensures buf[nn..] == old(buf[nn..])
  {
    PadAligned(n, block);
    nn := n + block;
    nn := nn - nn % block;
    var pad := nn - (n + 1);
    assert pad == PadByte(n, block);
    var i := n;
    while i < nn
      invariant n <= i <= nn
      invariant buf[..n] == old(buf[..n]) && buf[nn..] == old(buf[nn..])
      invariant forall k :: n <= k < i ==> buf[k] == pad as byte
    {
      buf[i] := pad as byte;
      i := i + 1;
    }
    assert buf[..nn] == buf[..n] + buf[n..nn];
    assert buf[n..nn] == seq(pad + 1, k => pad as byte);
  }

  /** tlsunpad, on the first n bytes of the buffer. */
  method Tlsunpad(buf: array<byte>, n: nat, block: nat) returns (r: int)
    requires 0 < n <= buf.Length && block > 0
    ensures r == TlsUnpad(buf[..n], block)
  {
    var pad := buf[n - 1];
    var nn := n - 1 - pad as int;
    if nn <= 0 || n % block != 0 {
      return -1;
    }
    var m := n - 1;
    while m > nn
      invariant nn <= m < n
      invariant forall k :: m <= k < n ==> buf[k] == pad
    {
      if pad != buf[m - 1] {
        assert buf[..n][nn..][m - 1 - nn] != pad;
        return -1;
      }
      m := m - 1;
    }
    r := nn;
  }
}

module TlsRecord {
  import opened Bytes
  import opened TlsPad

  const MAXRECLEN := 0x4000
  const MAXCIPHERRECLEN := MAXRECLEN + 2048
  const MAXMACLEN := 32
  const RECHDRLEN := 5
  const TLS11VERSION := 0x0302
  const SSL3VERSION := 0x0300
  const MINPROTOVERSION := 0x0300
  const MAXPROTOVERSION := 0x03FF

  const RCHANGECIPHERSPEC: byte := 20
  const RALERT: byte := 21
  const RHANDSHAKE: byte := 22
  const RAPPLICATION: byte := 23
  const SSL2CLIENTHELLO: byte := 1  // taken as a hello even in an ordinary record

  /** The cipher of a Secret. k is its state: enc and dec depend on it, and next gives
      the state after a record with this ciphertext, which both ends see. */
  datatype Cipher =
    | StreamCipher(enc: (nat, seq<byte>) -> seq<byte>, dec: (nat, seq<byte>) -> seq<byte>, next: (nat, seq<byte>) -> nat)
    | BlockCipher(block: nat, enc: (nat, seq<byte>) -> seq<byte>, dec: (nat, seq<byte>) -> seq<byte>, next: (nat, seq<byte>) -> nat)
    | AeadCipher(recivlen: nat, seal: (seq<byte>, seq<byte>) -> seq<byte>, open: (seq<byte>, seq<byte>) -> Option<seq<byte>>)

  datatype Secret = Secret(cipher: Cipher, maclen: nat, mac: (seq<byte>, seq<byte>) -> seq<byte>, k: nat)

  /** The laws of cipher and MAC, and the sizes of those devtls has. */
  ghost predicate Lawful(s: Secret) {
    && s.maclen <= MAXMACLEN
    && match s.cipher
       case StreamCipher(enc, dec, next) =>
         && (forall k: nat, p: seq<byte> :: |enc(k, p)| == |p| && dec(k, enc(k, p)) == p)
         && (forall k: nat, c: seq<byte> :: |dec(k, c)| == |c|)
         && (forall a: seq<byte>, p: seq<byte> :: |s.mac(a, p)| == s.maclen)
       case BlockCipher(block, enc, dec, next) =>
         && 0 < block <= 256
         && (forall k: nat, p: seq<byte> :: |p| % block == 0 ==> |enc(k, p)| == |p| && dec(k, enc(k, p)) == p)
         && (forall k: nat, c: seq<byte> :: |dec(k, c)| == |c|)
         && (forall a: seq<byte>, p: seq<byte> :: |s.mac(a, p)| == s.maclen)
       case AeadCipher(recivlen, seal, open) =>
         && recivlen <= 256
         && (forall a: seq<byte>, p: seq<byte> :: |seal(a, p)| == recivlen + |p| + s.maclen && open(a, seal(a, p)) == Some(p))
         && (forall a: seq<byte>, c: seq<byte> :: open(a, c).Some? ==> recivlen + |open(a, c).value| + s.maclen == |c|)
  }

  /** One direction of a connection: OneWay. */
  datatype OneWay = OneWay(sn: nat, sec: Option<Secret>, pending: Option<Secret>)

  function Put16(x: nat): seq<byte> { [(x / 0x100 % 0x100) as byte, (x % 0x100) as byte] }

  function Get16(p: seq<byte>): (n: nat)
    requires |p| >= 2
    ensures n < 0x1_0000
  {
    p[0] as nat * 0x100 + p[1] as nat
  }

  /** put64, of a counter of 64 bits. */
  function Put64(x: nat): seq<byte> { Put32(x / 0x1_0000_0000) + Put32(x) }

  function Put32(x: nat): seq<byte> { Put16(x / 0x1_0000) + Put16(x) }

  function Header(t: byte, ver: nat, n: nat): (h: seq<byte>)
    ensures |h| == RECHDRLEN
  {
    [t] + Put16(ver) + Put16(n)
  }

  /** packAAD: SSL 3.0 leaves out the version. */
  function Aad(ver: nat, sn: nat, h: seq<byte>): seq<byte>
    requires |h| == RECHDRLEN
  {
    if ver == SSL3VERSION then Put64(sn) + [h[0], h[3], h[4]] else Put64(sn) + h
  }

  function Ivlen(s: Secret, ver: nat): nat {
    match s.cipher
    case AeadCipher(n, _, _) => n
    case BlockCipher(b, _, _, _) => if ver >= TLS11VERSION then b else 0
    case StreamCipher(_, _, _) => 0
  }

  function Tick(n: nat): nat { (n + 1) % 0x1_0000_0000_0000_0000 }

  function Advance(d: OneWay, s: Secret, body: seq<byte>): OneWay {
    var k := match s.cipher case AeadCipher(_, _, _) => s.k case _ => s.cipher.next(s.k, body);
    OneWay(Tick(d.sn), Some(s.(k := k)), d.pending)
  }

  predicate BlockOk(d: OneWay) {
    d.sec.Some? && d.sec.value.cipher.BlockCipher? ==> 0 < d.sec.value.cipher.block <= 256
  }

  /** What is written for one fragment; iv is the random one of a block cipher. */
  function Seal(d: OneWay, ver: nat, t: byte, frag: seq<byte>, iv: seq<byte>): (seq<byte>, OneWay)
    requires BlockOk(d)
  {
    if d.sec == None then (Header(t, ver, |frag|) + frag, d)
    else
      var s := d.sec.value;
      var aad := Aad(ver, d.sn, Header(t, ver, |frag|));
      var body := match s.cipher
        case AeadCipher(_, seal, _) => seal(aad, frag)
        case StreamCipher(enc, _, _) => enc(s.k, frag + s.mac(aad, frag))
        case BlockCipher(block, enc, _, _) => enc(s.k, Padded((if ver >= TLS11VERSION then iv else []) + frag + s.mac(aad, frag), block));
      (Header(t, ver, |body|) + body, Advance(d, s, body))
  }

  datatype Failure = Runt | BadMac
  datatype Opened = Ok(frag: seq<byte>, d: OneWay) | Bad(f: Failure)

  /** The decrypted payload, and its length without padding (-1 if that is wrong). */
  function Decrypt(s: Secret, ver: nat, body: seq<byte>): (seq<byte>, int)
    requires s.cipher.BlockCipher? ==> s.cipher.block > 0
  {
    match s.cipher
    case AeadCipher(_, _, _) => (body, |body|)
    case StreamCipher(_, dec, _) => (dec(s.k, body), |dec(s.k, body)|)
    case BlockCipher(block, _, dec, _) =>
      var p := dec(s.k, body);
      (p, if ver == SSL3VERSION then SslUnpad(p, block) else TlsUnpad(p, block))
  }

  /** What tlsrecread makes of a record whose payload is body. */
  function Open(d: OneWay, ver: nat, h: seq<byte>, body: seq<byte>): Opened
    requires |h| == RECHDRLEN && BlockOk(d)
  {
    if d.sec == None then Ok(body, d)
    else
      var s := d.sec.value;
      var ivlen := Ivlen(s, ver);
      var (p, n) := Decrypt(s, ver, body);
      if |body| < ivlen then Bad(Runt)
      else if n - ivlen < s.maclen || n > |p| then Bad(BadMac)
      else
        var len := n - ivlen - s.maclen;
        var aad := Aad(ver, d.sn, h[..3] + Put16(len));
        if s.cipher.AeadCipher? then
          var r := s.cipher.open(aad, body);
          if r == None then Bad(BadMac) else Ok(r.value, Advance(d, s, body))
        else
          var frag := p[ivlen..ivlen + len];
          if s.mac(aad, frag) == p[ivlen + len..n] then Ok(frag, Advance(d, s, body)) else Bad(BadMac)
  }

  lemma OpenFits(d: OneWay, ver: nat, h: seq<byte>, body: seq<byte>)
    requires |h| == RECHDRLEN && BlockOk(d) && (d.sec.Some? ==> Lawful(d.sec.value))
    requires Open(d, ver, h, body).Ok?
    ensures var o := Open(d, ver, h, body);
            && (if d.sec.Some? then Ivlen(d.sec.value, ver) else 0) + |o.frag| <= |body|
            && o.d.pending == d.pending
  {
    hide Aad, TlsUnpad, SslUnpad;
    if d.sec.Some? && d.sec.value.cipher.BlockCipher? {
      var s := d.sec.value;
      assert |s.cipher.dec(s.k, body)| == |body|;
    }
  }

  lemma Get16Put16(x: nat)
    requires x < 0x1_0000
    ensures Get16(Put16(x)) == x
  {}

  /** How the bytes of a record protect a fragment: whether anything but the fragment
      and padding goes into it. */
  predicate HasBody(d: OneWay, ver: nat, frag: seq<byte>) {
    d.sec == None || !d.sec.value.cipher.BlockCipher? || frag != [] || d.sec.value.maclen > 0 || ver >= TLS11VERSION
  }

  /** Opening a record recovers the fragment, under the same secret and sequence number,
      and leaves both ends in the same state. The exception is an empty fragment under a
      block cipher without MAC and without IV: all padding, which the unpadding rejects. */
  lemma OpenSealed(d: OneWay, ver: nat, t: byte, frag: seq<byte>, iv: seq<byte>)
    requires BlockOk(d) && (d.sec.Some? ==> Lawful(d.sec.value)) && |frag| <= MAXRECLEN
    requires d.sec.Some? && d.sec.value.cipher.BlockCipher? ==> |iv| == d.sec.value.cipher.block
    ensures var (r, d') := Seal(d, ver, t, frag, iv);
            && |r| >= RECHDRLEN && |r| - RECHDRLEN <= MAXCIPHERRECLEN
            && r[..RECHDRLEN] == Header(t, ver, |r| - RECHDRLEN)
            && (Open(d, ver, r[..RECHDRLEN], r[RECHDRLEN..]) == Ok(frag, d') <==> HasBody(d, ver, frag))
  {
    var (r, d') := Seal(d, ver, t, frag, iv);
    assert r[..RECHDRLEN] == Header(t, ver, |r| - RECHDRLEN);
    if d.sec.Some? {
      match d.sec.value.cipher
      case AeadCipher(_, _, _) => SealedAead(d, ver, t, frag, iv);
      case StreamCipher(_, _, _) => SealedStream(d, ver, t, frag, iv);
      case BlockCipher(_, _, _, _) => SealedBlock(d, ver, t, frag, iv);
    }
  }

  lemma SealedAead(d: OneWay, ver: nat, t: byte, frag: seq<byte>, iv: seq<byte>)
    requires d.sec.Some? && d.sec.value.cipher.AeadCipher? && Lawful(d.sec.value) && |frag| <= MAXRECLEN
    ensures var (r, d') := Seal(d, ver, t, frag, iv);
            && |r| - RECHDRLEN <= MAXCIPHERRECLEN
            && Open(d, ver, r[..RECHDRLEN], r[RECHDRLEN..]) == Ok(frag, d')
  {
    var s := d.sec.value;
    var h := Header(t, ver, |frag|);
    var aad := Aad(ver, d.sn, h);
    var body := s.cipher.seal(aad, frag);
    var (r, _) := Seal(d, ver, t, frag, iv);
    assert r[RECHDRLEN..] == body;
    assert r[..RECHDRLEN][..3] + Put16(|frag|) == h;
  }

  lemma SealedStream(d: OneWay, ver: nat, t: byte, frag: seq<byte>, iv: seq<byte>)
    requires d.sec.Some? && d.sec.value.cipher.StreamCipher? && Lawful(d.sec.value) && |frag| <= MAXRECLEN
    ensures var (r, d') := Seal(d, ver, t, frag, iv);
            && |r| - RECHDRLEN <= MAXCIPHERRECLEN
            && Open(d, ver, r[..RECHDRLEN], r[RECHDRLEN..]) == Ok(frag, d')
  {
    var s := d.sec.value;
    var h := Header(t, ver, |frag|);
    var plain := frag + s.mac(Aad(ver, d.sn, h), frag);
    var (r, _) := Seal(d, ver, t, frag, iv);
    assert r[RECHDRLEN..] == s.cipher.enc(s.k, plain);
    assert r[..RECHDRLEN][..3] + Put16(|frag|) == h;
    assert plain[0..|frag|] == frag && plain[|frag|..|plain|] == s.mac(Aad(ver, d.sn, h), frag);
  }

  lemma SealedBlock(d: OneWay, ver: nat, t: byte, frag: seq<byte>, iv: seq<byte>)
    requires d.sec.Some? && d.sec.value.cipher.BlockCipher? && Lawful(d.sec.value) && |frag| <= MAXRECLEN
    requires |iv| == d.sec.value.cipher.block
    ensures var (r, d') := Seal(d, ver, t, frag, iv);
            && |r| - RECHDRLEN <= MAXCIPHERRECLEN
            && (Open(d, ver, r[..RECHDRLEN], r[RECHDRLEN..]) == Ok(frag, d') <==> HasBody(d, ver, frag))
  {
    hide Padded, Aad, Put64, Put16, TlsUnpad, SslUnpad, Header, Advance, Seal, Open;
    var s := d.sec.value;
    var mac := s.mac(Aad(ver, d.sn, Header(t, ver, |frag|)), frag);
    var pre := if ver >= TLS11VERSION then iv else [];
    var plain := pre + frag + mac;
    var padded := Padded(plain, s.cipher.block);
    UnpadPadded(plain, s.cipher.block);
    PaddedSize(plain, s.cipher.block);
    Slices(pre, frag, mac, padded);
    var body := s.cipher.enc(s.k, padded);
    BlockSealed(d, ver, t, frag, iv, mac, body);
    BlockOpened(d, ver, t, frag, mac, body, padded, |plain|);
  }

  lemma BlockSealed(d: OneWay, ver: nat, t: byte, frag: seq<byte>, iv: seq<byte>, mac: seq<byte>, body: seq<byte>)
    requires d.sec.Some? && d.sec.value.cipher.BlockCipher? && BlockOk(d)
    requires mac == d.sec.value.mac(Aad(ver, d.sn, Header(t, ver, |frag|)), frag)
    requires var s := d.sec.value;
             body == s.cipher.enc(s.k, Padded((if ver >= TLS11VERSION then iv else []) + frag + mac, s.cipher.block))
    ensures var (r, d') := Seal(d, ver, t, frag, iv);
            r == Header(t, ver, |body|) + body && d' == Advance(d, d.sec.value, body)
            && r[..RECHDRLEN] == Header(t, ver, |body|) && r[RECHDRLEN..] == body
  {
    hide Padded, Aad, Put64, Header, Advance;
  }

  lemma BlockOpened(d: OneWay, ver: nat, t: byte, frag: seq<byte>, mac: seq<byte>, body: seq<byte>, p: seq<byte>, n: nat)
    requires d.sec.Some? && d.sec.value.cipher.BlockCipher? && BlockOk(d)
    requires var s := d.sec.value;
             && mac == s.mac(Aad(ver, d.sn, Header(t, ver, |frag|)), frag) && |mac| == s.maclen
             && p == s.cipher.dec(s.k, body) && |body| >= Ivlen(s, ver) && n <= |p|
             && n == Ivlen(s, ver) + |frag| + |mac|
             && p[Ivlen(s, ver)..Ivlen(s, ver) + |frag|] == frag && p[Ivlen(s, ver) + |frag|..n] == mac
             && TlsUnpad(p, s.cipher.block) == (if n == 0 then -1 else n)
             && SslUnpad(p, s.cipher.block) == (if n == 0 then -1 else n)
    ensures Open(d, ver, Header(t, ver, |body|), body) == (if n == 0 then Bad(BadMac) else Ok(frag, Advance(d, d.sec.value, body)))
  {
    hide Aad, Put64, Put16, TlsUnpad, SslUnpad, Header, Advance;
    HeaderPrefix(t, ver, |body|, |frag|);
  }

  lemma HeaderPrefix(t: byte, ver: nat, m: nat, n: nat)
    ensures Header(t, ver, m)[..3] + Put16(n) == Header(t, ver, n)
  {}

  lemma PaddedSize(x: seq<byte>, block: nat)
    requires 0 < block <= 256
    ensures |x| < |Padded(x, block)| <= |x| + block
  {}

  /** The parts of the plaintext are found where they were put, padding or not. */
  lemma Slices(pre: seq<byte>, frag: seq<byte>, mac: seq<byte>, padded: seq<byte>)
    requires pre + frag + mac <= padded
    ensures padded[|pre|..|pre| + |frag|] == frag
    ensures padded[|pre| + |frag|..|pre| + |frag| + |mac|] == mac
  {
    var plain := pre + frag + mac;
    assert padded[..|plain|] == plain;
    assert padded[|pre|..|pre| + |frag|] == plain[|pre|..|pre| + |frag|];
    assert padded[|pre| + |frag|..|plain|] == plain[|pre| + |frag|..];
  }
}
