/**
 The 9P encoder and decoder on buffers (libc/convS2M.c and libc/convM2S.c). The decoder
 moves every string down by a byte, over its count, to make room for a NUL.
 */
module Convmsg {
  import opened Bytes
  import opened Wire
  import opened Fcalls

  const WORD: nat := 0x1_0000_0000

  function Size(a: Arg): (n: nat)
    ensures n == |W(a)|
  {
    match a
    case N8(_) => 1
    case N16(_) => 2
    case N32(_) => 4
    case N64(_) => 8
    case Str(s) => 2 + |s|
    case AQid(_) => QIDSZ
    case Data(d) => 4 + |d|
    case Stat(d) => 2 + |d|
    case Names(l) => 2 + |WNames(l)|
    case Qids(l) => 2 + QIDSZ * |l|
  }

  /** The size of the names, counted in 32 bits. */
  method Namesz(l: seq<seq<byte>>, n0: u32) returns (n: u32)
    ensures n == (n0 + |WNames(l)|) % WORD
  {
    n := n0;
    var i := 0;
    assert l[0..] == l;
    while i < |l|
      invariant i <= |l| && (n + |WNames(l[i..])|) % WORD == (n0 + |WNames(l)|) % WORD
    {
      assert l[i..][1..] == l[i + 1..];
      n := (n + (2 + |l[i]|)) % WORD;
      i := i + 1;
    }
    assert l[i..] == [];
  }

  method Argsz(a: Arg, n0: u32) returns (n: u32)
    ensures n == (n0 + |W(a)|) % WORD
  {
    hide W;
    if a.Names? {
      assert |W(a)| == Size(a) == 2 + |WNames(a.names)|;
      n := Namesz(a.names, (n0 + 2) % WORD);
    } else {
      n := (n0 + Size(a)) % WORD;
    }
  }

  /** sizeS2M: the size of the message in 32 bits, or 0 for what is no message. */
  method SizeS2M(f: Fcall) returns (n: u32)
    ensures n == if f.body.Other? then 0 else |Message(f)| % WORD
  {
    hide W, Message, Fields;
    if f.body.Other? {
      return 0;
    }
    var l := Fields(f.body);
    n := HDR;
    var i := 0;
    ghost var k: nat := 0;
    assert l[0..] == l;
    while i < |l|
      invariant i <= |l| && n == (HDR + k) % WORD && k + |WAll(l[i..])| == |WAll(l)|
    {
      assert l[i..][1..] == l[i + 1..];
      n := Argsz(l[i], n);
      k := k + |W(l[i])|;
      i := i + 1;
    }
    assert l[i..] == [];
    MessageSize(f);
  }

  lemma MessageSize(f: Fcall)
    ensures |Message(f)| == HDR + |WAll(Fields(f.body))|
  {}

  // ---- Writing ----

  /** b is b0 with w written at p. */
  predicate Wrote(b0: seq<byte>, b: seq<byte>, p: nat, w: seq<byte>) {
    p + |w| <= |b0| && b == b0[..p] + w + b0[p + |w|..]
  }

  lemma WroteThen(b0: seq<byte>, b1: seq<byte>, b2: seq<byte>, p: nat, w: seq<byte>, v: seq<byte>)
    requires Wrote(b0, b1, p, w) && Wrote(b1, b2, p + |w|, v)
    ensures Wrote(b0, b2, p, w + v)
  {
    assert b1[..p + |w|] == b0[..p] + w;
    assert b1[p + |w| + |v|..] == b0[p + |w| + |v|..];
  }

  lemma WroteNothing(b: seq<byte>, p: nat)
    requires p <= |b|
    ensures Wrote(b, b, p, [])
  {}

  /** memmove(p, s, |s|) */
  method Memmove(buf: array<byte>, p: nat, s: seq<byte>) returns (q: nat)
    requires p + |s| <= buf.Length
    modifies buf
    ensures q == p + |s| && Wrote(old(buf[..]), buf[..], p, s)
  {
    forall i | 0 <= i < |s| {
      buf[p + i] := s[i];
    }
    q := p + |s|;
  }

  method Put8(buf: array<byte>, p: nat, v: u8) returns (q: nat)
    requires p + 1 <= buf.Length
    modifies buf
    ensures q == p + 1 && Wrote(old(buf[..]), buf[..], p, B8(v))
  {
    buf[p] := v as byte;
    q := p + 1;
  }

  method Put16(buf: array<byte>, p: nat, v: nat) returns (q: nat)
    requires p + 2 <= buf.Length
    modifies buf
    ensures q == p + 2 && Wrote(old(buf[..]), buf[..], p, B16(v))
  {
    buf[p], buf[p + 1] := (v % 0x100) as byte, (v / 0x100 % 0x100) as byte;
    q := p + 2;
  }

  method Put32(buf: array<byte>, p: nat, v: nat) returns (q: nat)
    requires p + 4 <= buf.Length
    modifies buf
    ensures q == p + 4 && Wrote(old(buf[..]), buf[..], p, B32(v))
  {
    hide B16, Wrote;
    ghost var b0 := buf[..];
    q := Put16(buf, p, v % 0x1_0000);
    ghost var b1 := buf[..];
    q := Put16(buf, q, v / 0x1_0000);
    WroteThen(b0, b1, buf[..], p, B16(v % 0x1_0000), B16(v / 0x1_0000));
  }

  method Put64(buf: array<byte>, p: nat, v: nat) returns (q: nat)
    requires p + 8 <= buf.Length
    modifies buf
    ensures q == p + 8 && Wrote(old(buf[..]), buf[..], p, B64(v))
  {
    hide B32, Wrote;
    ghost var b0 := buf[..];
    q := Put32(buf, p, v % WORD);
    ghost var b1 := buf[..];
    q := Put32(buf, q, v / WORD);
    WroteThen(b0, b1, buf[..], p, B32(v % WORD), B32(v / WORD));
  }

  method Pstring(buf: array<byte>, p: nat, s: seq<byte>) returns (q: nat)
    requires p + 2 + |s| <= buf.Length
    modifies buf
    ensures q == p + 2 + |s| && Wrote(old(buf[..]), buf[..], p, WString(s))
  {
    hide B16, Wrote;
    ghost var b0 := buf[..];
    q := Put16(buf, p, |s|);
    ghost var b1 := buf[..];
    q := Memmove(buf, q, s);
    WroteThen(b0, b1, buf[..], p, B16(|s|), s);
  }

  method Pqid(buf: array<byte>, p: nat, d: Qid) returns (q: nat)
    requires p + QIDSZ <= buf.Length
    modifies buf
    ensures q == p + QIDSZ && Wrote(old(buf[..]), buf[..], p, WQid(d))
  {
    hide B8, B32, B64, Wrote;
    ghost var b0 := buf[..];
    q := Put8(buf, p, d.ty);
    ghost var b1 := buf[..];
    q := Put32(buf, q, d.vers);
    ghost var b2 := buf[..];
    q := Put64(buf, q, d.path);
    WroteThen(b1, b2, buf[..], p + 1, B32(d.vers), B64(d.path));
    WroteThen(b0, b1, buf[..], p, B8(d.ty), B32(d.vers) + B64(d.path));
  }

  method Pnames(buf: array<byte>, p: nat, l: seq<seq<byte>>) returns (q: nat)
    requires p + |WNames(l)| <= buf.Length
    modifies buf
    ensures q == p + |WNames(l)| && Wrote(old(buf[..]), buf[..], p, WNames(l))
  {
    hide WString, Wrote;
    q := p;
    var i := 0;
    ghost var w: seq<byte> := [];
    WroteNothing(buf[..], p);
    assert l[0..] == l;
    while i < |l|
      invariant i <= |l| && q == p + |w| && w + WNames(l[i..]) == WNames(l) && Wrote(old(buf[..]), buf[..], p, w)
    {
      assert l[i..][1..] == l[i + 1..];
      StringSize(l[i]);
      ghost var b1 := buf[..];
      q := Pstring(buf, q, l[i]);
      WroteThen(old(buf[..]), b1, buf[..], p, w, WString(l[i]));
      w := w + WString(l[i]);
      i := i + 1;
    }
    assert l[i..] == [];
    assert w + [] == w;
  }

  lemma StringSize(s: seq<byte>)
    ensures |WString(s)| == 2 + |s|
  {}

  method Pqids(buf: array<byte>, p: nat, l: seq<Qid>) returns (q: nat)
    requires p + |WQids(l)| <= buf.Length
    modifies buf
    ensures q == p + |WQids(l)| && Wrote(old(buf[..]), buf[..], p, WQids(l))
  {
    hide WQid, Wrote;
    q := p;
    var i := 0;
    ghost var w: seq<byte> := [];
    WroteNothing(buf[..], p);
    assert l[0..] == l;
    while i < |l|
      invariant i <= |l| && q == p + |w| && w + WQids(l[i..]) == WQids(l) && Wrote(old(buf[..]), buf[..], p, w)
    {
      assert l[i..][1..] == l[i + 1..];
      ghost var b1 := buf[..];
      q := Pqid(buf, q, l[i]);
      WroteThen(old(buf[..]), b1, buf[..], p, w, WQid(l[i]));
      w := w + WQid(l[i]);
      i := i + 1;
    }
    assert l[i..] == [];
    assert w + [] == w;
  }

  method Pdata(buf: array<byte>, p: nat, d: seq<byte>) returns (q: nat)
    requires p + 4 + |d| <= buf.Length
    modifies buf
    ensures q == p + 4 + |d| && Wrote(old(buf[..]), buf[..], p, B32(|d|) + d)
  {
    hide B32, Wrote;
    ghost var b0 := buf[..];
    q := Put32(buf, p, |d|);
    ghost var b1 := buf[..];
    q := Memmove(buf, q, d);
    WroteThen(b0, b1, buf[..], p, B32(|d|), d);
  }

  method Plist(buf: array<byte>, p: nat, a: Arg) returns (q: nat)
    requires p + |W(a)| <= buf.Length && (a.Names? || a.Qids?)
    modifies buf
    ensures q == p + |W(a)| && Wrote(old(buf[..]), buf[..], p, W(a))
  {
    hide B16, WNames, WQids, Wrote;
    ghost var b0 := buf[..];
    q := Put16(buf, p, if a.Names? then |a.names| else |a.qids|);
    ghost var b1 := buf[..];
    if a.Names? {
      q := Pnames(buf, q, a.names);
      WroteThen(b0, b1, buf[..], p, B16(|a.names|), WNames(a.names));
    } else {
      q := Pqids(buf, q, a.qids);
      WroteThen(b0, b1, buf[..], p, B16(|a.qids|), WQids(a.qids));
    }
  }

  /** One argument. */
  method Parg(buf: array<byte>, p: nat, a: Arg) returns (q: nat)
    requires p + |W(a)| <= buf.Length
    modifies buf
    ensures q == p + |W(a)| && Wrote(old(buf[..]), buf[..], p, W(a))
  {
    hide B8, B16, B32, B64, WQid, WNames, WQids, Wrote;
    match a {
      case N8(n) => q := Put8(buf, p, n);
      case N16(n) => q := Put16(buf, p, n);
      case N32(n) => q := Put32(buf, p, n);
      case N64(n) => q := Put64(buf, p, n);
      case Str(s) => q := Pstring(buf, p, s);
      case AQid(d) => q := Pqid(buf, p, d);
      case Data(d) => q := Pdata(buf, p, d);
      case Stat(d) => q := Pstring(buf, p, d);
      case _ => q := Plist(buf, p, a);
    }
  }

  /** convS2M: the message in the first bytes of buf, or nothing. Too many names or qids
      are noticed only when the message has been begun. */
  method ConvS2M(f: Fcall, buf: array<byte>, nap: u32) returns (n: u32)
    requires nap <= buf.Length && (!f.body.Other? ==> |Message(f)| < WORD)
    modifies buf
    ensures var fits := !f.body.Other? && |Message(f)| <= nap;
            && n == (if fits && ListsOk(f.body) then |Message(f)| else 0)
            && (n > 0 ==> Wrote(old(buf[..]), buf[..], 0, Message(f)))
            && (!fits ==> buf[..] == old(buf[..]))
  {
    hide W, Wrote, Fields, B8, B16, B32;
    n := SizeS2M(f);
    if n == 0 || n > nap {
      MessageSize(f);
      return 0;
    }
    var l := Fields(f.body);
    MessageSize(f);
    ghost var b0, w := buf[..], B32(n);
    var p := Put32(buf, 0, n);
    ghost var b1 := buf[..];
    p := Put8(buf, p, TypeOf(f.body));
    WroteThen(b0, b1, buf[..], 0, w, B8(TypeOf(f.body)));
    b1, w := buf[..], w + B8(TypeOf(f.body));
    p := Put16(buf, p, f.tag);
    WroteThen(b0, b1, buf[..], 0, w, B16(f.tag));
    w := w + B16(f.tag);
    var i := 0;
    ghost var h := w;
    assert l[0..] == l;
    while i < |l|
      invariant i <= |l| && p == |w| && w + WAll(l[i..]) == h + WAll(l) && Wrote(b0, buf[..], 0, w)
      invariant forall j :: 0 <= j < i ==> Listed(l[j])
    {
      if (l[i].Names? && |l[i].names| > MAXWELEM) || (l[i].Qids? && |l[i].qids| > MAXWELEM) {
        ListsNot(f.body, i);
        return 0;
      }
      assert l[i..][1..] == l[i + 1..] && WAll(l[i..]) == W(l[i]) + WAll(l[i + 1..]);
      assert w + (W(l[i]) + WAll(l[i + 1..])) == w + W(l[i]) + WAll(l[i + 1..]);
      b1 := buf[..];
      p := Parg(buf, p, l[i]);
      WroteThen(b0, b1, buf[..], 0, w, W(l[i]));
      w := w + W(l[i]);
      i := i + 1;
    }
    assert l[i..] == [] && w + [] == w;
    ListsAll(f.body);
    MessageIs(f, h);
  }

  predicate Listed(a: Arg) { (a.Names? ==> |a.names| <= MAXWELEM) && (a.Qids? ==> |a.qids| <= MAXWELEM) }

  lemma ListsNot(b: Body, i: nat)
    requires i < |Fields(b)| && !Listed(Fields(b)[i])
    ensures !ListsOk(b)
  {}

  lemma ListsAll(b: Body)
    requires forall i :: 0 <= i < |Fields(b)| ==> Listed(Fields(b)[i])
    ensures ListsOk(b)
  {
    assert b.Twalk? ==> Fields(b)[2] == Names(Raws(b.wname));
    assert b.Rwalk? ==> Fields(b)[0] == Qids(b.wqid);
  }

  lemma MessageIs(f: Fcall, h: seq<byte>)
    requires h == B32(HDR + |WAll(Fields(f.body))|) + B8(TypeOf(f.body)) + B16(f.tag)
    ensures Message(f) == h + WAll(Fields(f.body))
  {
    hide B8, B16, B32, WAll, Fields, TypeOf;
  }
}
