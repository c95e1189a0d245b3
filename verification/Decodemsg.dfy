/**
 The 9P decoder on its buffer (libc/convM2S.c). The strings of the message it fills in are
 pointers into the buffer: each is moved down by a byte, over its count, to make room for
 a NUL, while the rest of the buffer is still to be read.
 */
module Decodemsg {
  import opened Bytes
  import opened Wire
  import opened Fcalls
  import opened Convmsg

  /** A field as the decoder leaves it. */
  datatype Loc =
    | Val(a: Arg)
    | StrAt(p: nat)
    | StrsAt(ps: seq<nat>)
    | DataAt(p: nat, n: u32)
    | StatAt(p: nat, ns: u16)

  function CStrAt(b: seq<byte>, p: nat): CStr { if p <= |b| then Cut(b[p..]) else [] }

  function CStrsAt(b: seq<byte>, ps: seq<nat>): (r: seq<seq<byte>>)
    ensures |r| == |ps| && forall i :: 0 <= i < |ps| ==> r[i] == CStrAt(b, ps[i])
  {
    if ps == [] then [] else [CStrAt(b, ps[0])] + CStrsAt(b, ps[1..])
  }

  /** The field, with the bytes that it points to. */
  function Seen(b: seq<byte>, l: Loc): Arg {
    match l
    case Val(a) => a
    case StrAt(p) => Str(CStrAt(b, p))
    case StrsAt(ps) => Names(CStrsAt(b, ps))
    case DataAt(p, n) => if p + n <= |b| then Data(b[p..p + n]) else Data([])
    case StatAt(p, n) => if p + n <= |b| then Stat(b[p..p + n]) else Stat([])
  }

  predicate StrWithin(b: seq<byte>, p: nat, lo: nat, hi: nat) { lo <= p <= hi <= |b| && 0 in b[p..hi] }

  /** All that is pointed to is from lo to hi, and strings end there. */
  predicate Within(b: seq<byte>, l: Loc, lo: nat, hi: nat) {
    match l
    case Val(a) => true
    case StrAt(p) => StrWithin(b, p, lo, hi)
    case StrsAt(ps) => forall i :: 0 <= i < |ps| ==> StrWithin(b, ps[i], lo, hi)
    case DataAt(p, n) => lo <= p && p + n <= hi <= |b|
    case StatAt(p, n) => lo <= p && p + n <= hi <= |b|
  }

  lemma {:induction false} CutEnds(x: seq<byte>, y: seq<byte>)
    requires 0 in x
    ensures Cut(x + y) == Cut(x)
  {
    if x[0] != 0 {
      assert (x + y)[1..] == x[1..] + y;
      CutEnds(x[1..], y);
    }
  }

  lemma StrStays(b: seq<byte>, c: seq<byte>, p: nat, lo: nat, hi: nat)
    requires StrWithin(b, p, lo, hi) && |c| == |b| && c[lo..hi] == b[lo..hi]
    ensures StrWithin(c, p, lo, hi) && CStrAt(c, p) == CStrAt(b, p)
  {
    assert b[p..hi] == b[lo..hi][p - lo..] && c[p..hi] == c[lo..hi][p - lo..];
    Joint(b, p, hi);
    Joint(c, p, hi);
    CutEnds(b[p..hi], b[hi..]);
    CutEnds(c[p..hi], c[hi..]);
  }

  lemma Sub(b: seq<byte>, lo: nat, hi: nat, i: nat, j: nat)
    requires lo <= hi <= |b| && i <= j <= hi - lo
    ensures b[lo..hi][i..j] == b[lo + i..lo + j]
  {
    var x, y := b[lo..hi][i..j], b[lo + i..lo + j];
    assert forall k :: 0 <= k < |x| ==> x[k] == y[k];
  }

  lemma Joint(b: seq<byte>, p: nat, hi: nat)
    requires p <= hi <= |b|
    ensures b[p..] == b[p..hi] + b[hi..]
  {
    assert b[p..][..hi - p] == b[p..hi] && b[p..][hi - p..] == b[hi..];
  }

  /** What is written elsewhere does not change what a field shows. */
  lemma SeenStays(b: seq<byte>, c: seq<byte>, l: Loc, lo: nat, hi: nat)
    requires Within(b, l, lo, hi) && lo <= hi <= |b| && |c| == |b| && c[lo..hi] == b[lo..hi]
    ensures Within(c, l, lo, hi) && Seen(c, l) == Seen(b, l)
  {
    hide StrWithin, CStrAt;
    match l
    case StrAt(p) => StrStays(b, c, p, lo, hi);
    case StrsAt(ps) =>
      forall i | 0 <= i < |ps| ensures StrWithin(c, ps[i], lo, hi) && CStrAt(c, ps[i]) == CStrAt(b, ps[i]) {
        StrStays(b, c, ps[i], lo, hi);
      }
    case DataAt(p, n) =>
      Sub(b, lo, hi, p - lo, p + n - lo);
      Sub(c, lo, hi, p - lo, p + n - lo);
    case StatAt(p, n) =>
      Sub(b, lo, hi, p - lo, p + n - lo);
      Sub(c, lo, hi, p - lo, p + n - lo);
    case Val(_) =>
  }

  function Nul(s: seq<byte>): (r: seq<byte>)
    ensures |r| == |s| + 1
  {
    s + [0]
  }

  /** gstring */
  method Gstring(buf: array<byte>, p: nat, ep: nat) returns (ok: bool, q: nat, at: nat)
    requires p <= ep <= buf.Length
    modifies buf
    ensures var r := RString(old(buf[p..ep]));
            && ok == r.Read?
            && (ok ==> q == p + r.n <= ep && at == p + 1 && Wrote(old(buf[..]), buf[..], p + 1, Nul(r.v)))
            && (!ok ==> buf[..] == old(buf[..]))
  {
    hide Wrote;
    ok, q, at := false, p, p;
    if p + 2 > ep {
      return;
    }
    ghost var b0 := buf[..];
    var n := buf[p] as nat + 0x100 * (buf[p + 1] as nat);
    at := p + 1;
    if at + n + 1 > ep {
      return;
    }
    Sub(b0, p, ep, 2, 2 + n);
    assert buf[p..ep] == b0[p..ep];
    Down(buf, at, n);
    ok, q := true, at + n + 1;
  }

  /** Moves n bytes down to p, and puts a NUL behind them. */
  method Down(buf: array<byte>, p: nat, n: nat)
    requires p + n + 1 <= buf.Length
    modifies buf
    ensures Wrote(old(buf[..]), buf[..], p, Nul(old(buf[p + 1..p + 1 + n])))
  {
    ghost var b0 := buf[..];
    forall i | 0 <= i < n {
      buf[p + i] := buf[p + 1 + i];
    }
    buf[p + n] := 0;
    ghost var w := Nul(b0[p + 1..p + 1 + n]);
    assert buf[..p] == b0[..p] && buf[p + n + 1..] == b0[p + n + 1..];
    assert buf[p..p + n + 1] == w;
    assert buf[..] == buf[..p] + buf[p..p + n + 1] + buf[p + n + 1..];
  }

  lemma WroteParts(b: seq<byte>, c: seq<byte>, p: nat, w: seq<byte>)
    requires Wrote(b, c, p, w)
    ensures |c| == |b| && p + |w| <= |b| && c[..p] == b[..p] && c[p + |w|..] == b[p + |w|..] && c[p..p + |w|] == w
  {}

  /** A string as it was left is the string that was read, up to a NUL. */
  lemma StringSeen(b: seq<byte>, c: seq<byte>, p: nat, s: seq<byte>)
    requires Wrote(b, c, p + 1, Nul(s))
    ensures CStrAt(c, p + 1) == Cut(s)
  {
    hide *;
    WroteParts(b, c, p + 1, Nul(s));
    CutNul(s);
    FirstCut(c, p + 1, p + 1 + |Nul(s)|, Nul(s));
  }

  lemma StringWithin(b: seq<byte>, c: seq<byte>, p: nat, s: seq<byte>)
    requires Wrote(b, c, p + 1, Nul(s))
    ensures StrWithin(c, p + 1, p, p + 2 + |s|)
  {
    hide *;
    WroteParts(b, c, p + 1, Nul(s));
    CutNul(s);
    EndsWithin(c, p + 1, p, p + 1 + |Nul(s)|, Nul(s));
  }

  /** The bytes around it have not changed. */
  lemma StringRest(b: seq<byte>, c: seq<byte>, p: nat, s: seq<byte>)
    requires Wrote(b, c, p + 1, Nul(s))
    ensures |c| == |b| && p + 2 + |s| <= |b| && c[..p] == b[..p] && c[p + 2 + |s|..] == b[p + 2 + |s|..]
  {
    hide *;
    WroteParts(b, c, p + 1, Nul(s));
    Shorter(b, c, p);
  }

  lemma Shorter(b: seq<byte>, c: seq<byte>, p: nat)
    requires p + 1 <= |b| && p + 1 <= |c| && c[..p + 1] == b[..p + 1]
    ensures c[..p] == b[..p]
  {
    assert b[..p + 1][..p] == b[..p] && c[..p + 1][..p] == c[..p];
  }

  lemma EndsWithin(c: seq<byte>, p: nat, lo: nat, hi: nat, w: seq<byte>)
    requires lo <= p <= hi <= |c| && c[p..hi] == w && 0 in w
    ensures StrWithin(c, p, lo, hi)
  {}

  lemma FirstCut(c: seq<byte>, p: nat, hi: nat, w: seq<byte>)
    requires p <= hi <= |c| && c[p..hi] == w && 0 in w
    ensures CStrAt(c, p) == Cut(w)
  {
    hide Cut;
    Joint(c, p, hi);
    CutEnds(c[p..hi], c[hi..]);
  }

  lemma {:induction false} CutNul(s: seq<byte>)
    ensures Cut(Nul(s)) == Cut(s) && 0 in Nul(s)
  {
    assert Nul(s)[|s|] == 0;
    if s != [] && s[0] != 0 {
      assert Nul(s)[1..] == Nul(s[1..]);
      CutNul(s[1..]);
    }
  }

  function Numbers(k: Kind): bool { k == K8 || k == K16 || k == K32 || k == K64 || k == KQid }

  /** A number or a qid. */
  method Gnumber(buf: array<byte>, p: nat, ep: nat, k: Kind) returns (ok: bool, q: nat, l: Loc)
    requires p <= ep <= buf.Length && Numbers(k)
    ensures var r := R(k, buf[p..ep]); ok == r.Read? && (ok ==> q == p + r.n <= ep && l == Val(r.v) && CutArg(r.v) == r.v)
  {
    hide G8, G16, G32, G64;
    var b := buf[p..ep];
    var n := match k case K8 => 1 case K16 => 2 case K32 => 4 case K64 => 8 case _ => QIDSZ;
    ok, q, l := false, p, Val(N8(0));
    if p + n > ep {
      return;
    }
    ok, q := true, p + n;
    if k == K8 {
      l := Val(N8(G8(b)));
    } else if k == K16 {
      l := Val(N16(G16(b)));
    } else if k == K32 {
      l := Val(N32(G32(b)));
    } else if k == K64 {
      l := Val(N64(G64(b)));
    } else {
      l := Val(AQid(Qid(G8(b), G32(b[1..]), G64(b[5..]))));
    }
  }

  /** A count and as many bytes, which stay where they are. */
  method Gbytes(buf: array<byte>, p: nat, ep: nat, k: Kind) returns (ok: bool, q: nat, l: Loc)
    requires p <= ep <= buf.Length && (k == KData || k == KStat)
    ensures var r := R(k, buf[p..ep]);
            ok == r.Read? && (ok ==> q == p + r.n <= ep && Within(buf[..], l, p, q) && Seen(buf[..], l) == CutArg(r.v))
  {
    hide G16, G32;
    var b := buf[p..ep];
    var h := if k == KData then 4 else 2;
    ok, q, l := false, p, Val(N8(0));
    if p + h > ep {
      return;
    }
    var n := if k == KData then G32(b) else G16(b);
    if p + h + n > ep {
      return;
    }
    ok, q := true, p + h + n;
    Sub(buf[..], p, ep, h, h + n);
    assert buf[..][p..ep] == b;
    l := if k == KData then DataAt(p + h, n) else StatAt(p + h, n);
  }

  function Pre<T>(done: seq<T>, n: nat, r: Read<seq<T>>): Read<seq<T>> {
    match r case Short => Short case Read(l, m) => Read(done + l, n + m)
  }

  lemma NamesNext(b: seq<byte>, count: nat, done: seq<seq<byte>>, n: nat)
    requires count > 0
    ensures var s := RString(b);
            && (s.Short? ==> RNames(b, count) == Short)
            && (s.Read? ==> s.n <= |b| && Pre(done, n, RNames(b, count)) == Pre(done + [s.v], n + s.n, RNames(b[s.n..], count - 1)))
  {
    StringWritten(b);
    var s := RString(b);
    if s.Read? {
      var r := RNames(b[s.n..], count - 1);
      if r.Read? {
        assert done + ([s.v] + r.v) == done + [s.v] + r.v;
      }
    }
  }

  lemma Outside(b: seq<byte>, c: seq<byte>, p: nat, q: nat, ep: nat)
    requires p <= q <= ep <= |b| && |c| == |b|
    ensures c[..q] == b[..q] ==> c[..p] == b[..p] && c[p..q] == b[p..q]
    ensures c[p..] == b[p..] ==> c[q..] == b[q..] && c[p..ep] == b[p..ep]
  {
    assert b[..q][..p] == b[..p] && c[..q][..p] == c[..p] && b[..q][p..] == b[p..q] && c[..q][p..] == c[p..q];
    assert b[p..][q - p..] == b[q..] && c[p..][q - p..] == c[q..];
    assert b[p..][..ep - p] == b[p..ep] && c[p..][..ep - p] == c[p..ep];
  }

  /** The names that were read, as they were left. */
  ghost predicate NamesSeen(b: seq<byte>, ps: seq<nat>, done: seq<seq<byte>>, lo: nat, hi: nat) {
    |ps| == |done| && forall i :: 0 <= i < |ps| ==> StrWithin(b, ps[i], lo, hi) && CStrAt(b, ps[i]) == Cut(done[i])
  }

  lemma NamesKept(b: seq<byte>, c: seq<byte>, ps: seq<nat>, done: seq<seq<byte>>, p: nat, q: nat, s: seq<byte>)
    requires NamesSeen(b, ps, done, p, q) && p <= q && Wrote(b, c, q + 1, Nul(s))
    ensures NamesSeen(c, ps + [q + 1], done + [s], p, q + 2 + |s|)
  {
    hide CStrAt, Cut;
    StringSeen(b, c, q, s);
    StringWithin(b, c, q, s);
    StringRest(b, c, q, s);
    Outside(b, c, p, q, q);
    forall i | 0 <= i < |ps| ensures StrWithin(c, ps[i], p, q + 2 + |s|) && CStrAt(c, ps[i]) == Cut(done[i]) {
      StrStays(b, c, ps[i], p, q);
      Wider(c, ps[i], p, q, q + 2 + |s|);
    }
  }

  lemma Wider(b: seq<byte>, p: nat, lo: nat, hi: nat, hi2: nat)
    requires StrWithin(b, p, lo, hi) && hi <= hi2 <= |b|
    ensures StrWithin(b, p, lo, hi2)
  {
    assert b[p..hi2] == b[p..hi] + b[hi..hi2];
  }

  /** The names of a walk. */
  method Gnames(buf: array<byte>, p: nat, ep: nat, count: nat) returns (ok: bool, q: nat, ps: seq<nat>)
    requires p <= ep <= buf.Length
    modifies buf
    ensures var r := RNames(old(buf[p..ep]), count);
            && ok == r.Read? && buf[..p] == old(buf[..p]) && buf[ep..] == old(buf[ep..])
            && (ok ==> q == p + r.n <= ep && buf[q..] == old(buf[q..]) && NamesSeen(buf[..], ps, r.v, p, q))
  {
    hide Wrote, CStrAt, Cut, RString, NamesSeen;
    ghost var b0 := buf[..];
    ghost var done: seq<seq<byte>> := [];
    q, ps := p, [];
    var i := 0;
    NoNames(buf[..], p);
    assert buf[p..ep] == b0[p..ep];
    PreNone(RNames(b0[p..ep], count));
    while i < count
      invariant i <= count && p <= q <= ep
      invariant buf[..p] == b0[..p] && buf[q..] == b0[q..] && NamesSeen(buf[..], ps, done, p, q)
      invariant RNames(b0[p..ep], count) == Pre(done, q - p, RNames(b0[q..ep], count - i))
    {
      ghost var b1 := buf[..];
      Outside(b0, b1, q, ep, ep);
      NamesNext(b0[q..ep], count - i, done, q - p);
      var at;
      ghost var q0 := q;
      ok, q, at := Gstring(buf, q, ep);
      if !ok {
        return;
      }
      ghost var s := RString(b0[q0..ep]).v;
      StringRest(b1, buf[..], q0, s);
      NamesKept(b1, buf[..], ps, done, p, q0, s);
      StringTaken(b0[q0..ep]);
      Tails(b0, b1, buf[..], p, q0, q, ep);
      ps, done := ps + [at], done + [s];
      i := i + 1;
    }
    Outside(b0, buf[..], q, ep, ep);
    PreDone(done, q - p, RNames(b0[q..ep], 0));
    ok := true;
  }

  lemma StringTaken(b: seq<byte>)
    ensures RString(b).Read? ==> RString(b).n == 2 + |RString(b).v|
  {}

  lemma NoNames(b: seq<byte>, p: nat)
    ensures NamesSeen(b, [], [], p, p)
  {}

  lemma PreNone<T>(r: Read<seq<T>>)
    ensures Pre([], 0, r) == r
  {
    assert r.Read? ==> [] + r.v == r.v;
  }

  lemma PreDone<T>(done: seq<T>, n: nat, r: Read<seq<T>>)
    requires r == Read([], 0)
    ensures Pre(done, n, r) == Read(done, n)
  {
    assert done + [] == done;
  }

  lemma Tails(b0: seq<byte>, b1: seq<byte>, b2: seq<byte>, p: nat, q: nat, n: nat, ep: nat)
    requires p <= q <= n <= ep <= |b0| && |b1| == |b0| && |b2| == |b0|
    requires b1[..p] == b0[..p] && b1[q..] == b0[q..] && b2[..q] == b1[..q] && b2[n..] == b1[n..]
    ensures b2[..p] == b0[..p] && b2[n..] == b0[n..] && b0[q..ep][n - q..] == b0[n..ep]
  {
    Outside(b1, b2, p, q, ep);
    Outside(b0, b1, q, n, ep);
  }

  lemma QidsNext(b: seq<byte>, count: nat, done: seq<Qid>, n: nat)
    requires count > 0
    ensures QIDSZ > |b| ==> RQids(b, count) == Short
    ensures QIDSZ <= |b| ==> Pre(done, n, RQids(b, count)) == Pre(done + [RQid(b).v], n + QIDSZ, RQids(b[QIDSZ..], count - 1))
  {
    if QIDSZ <= |b| {
      var r := RQids(b[QIDSZ..], count - 1);
      if r.Read? {
        assert done + ([RQid(b).v] + r.v) == done + [RQid(b).v] + r.v;
      }
    }
  }

  /** The qids of a walk. */
  method Gqids(buf: array<byte>, p: nat, ep: nat, count: nat) returns (ok: bool, q: nat, l: seq<Qid>)
    requires p <= ep <= buf.Length
    ensures var r := RQids(buf[p..ep], count); ok == r.Read? && (ok ==> q == p + r.n <= ep && l == r.v)
  {
    hide G8, G32, G64;
    var b := buf[..];
    q, l := p, [];
    var i := 0;
    PreNone(RQids(b[p..ep], count));
    assert buf[p..ep] == b[p..ep];
    while i < count
      invariant i <= count && p <= q <= ep
      invariant RQids(b[p..ep], count) == Pre(l, q - p, RQids(b[q..ep], count - i))
    {
      QidsNext(b[q..ep], count - i, l, q - p);
      if q + QIDSZ > ep {
        ok := false;
        return;
      }
      l := l + [RQid(b[q..ep]).v];
      q := q + QIDSZ;
      assert b[q - QIDSZ..ep][QIDSZ..] == b[q..ep];
      i := i + 1;
    }
    PreDone(l, q - p, RQids(b[q..ep], 0));
    ok := true;
  }

  /** What one argument leaves: all but its own bytes as they were, and the field. */
  ghost predicate Left(b0: seq<byte>, b: seq<byte>, p: nat, ep: nat, k: Kind, ok: bool, q: nat, l: Loc)
    requires p <= ep <= |b0|
  {
    var r := R(k, b0[p..ep]);
    && ok == r.Read? && |b| == |b0| && b[..p] == b0[..p] && b[ep..] == b0[ep..]
    && (ok ==> p <= q == p + r.n <= ep && b[q..] == b0[q..] && Within(b, l, p, q) && Seen(b, l) == CutArg(r.v))
  }

  method Glist(buf: array<byte>, p: nat, ep: nat, k: Kind) returns (ok: bool, q: nat, l: Loc)
    requires p <= ep <= buf.Length && (k == KNames || k == KQids)
    modifies buf
    ensures Left(old(buf[..]), buf[..], p, ep, k, ok, q, l)
  {
    hide G16, RNames, RQids, NamesSeen, StrWithin, CStrAt;
    ghost var b0 := buf[..];
    var b := buf[p..ep];
    assert b == b0[p..ep];
    ok, q, l := false, p, Val(N8(0));
    if p + 2 > ep {
      return;
    }
    var count := G16(b);
    if count > MAXWELEM {
      return;
    }
    assert b0[p..ep][2..] == b0[p + 2..ep] == buf[p + 2..ep];
    if k == KNames {
      var ps;
      ok, q, ps := Gnames(buf, p + 2, ep, count);
      l := StrsAt(ps);
      Outside(b0, buf[..], p, p + 2, ep);
      if ok {
        NamesAre(buf[..], ps, RNames(b[2..], count).v, p, q);
      }
    } else {
      var qs;
      ok, q, qs := Gqids(buf, p + 2, ep, count);
      l := Val(Qids(qs));
    }
  }

  lemma NamesAre(b: seq<byte>, ps: seq<nat>, l: seq<seq<byte>>, p: nat, q: nat)
    requires NamesSeen(b, ps, l, p + 2, q)
    ensures Within(b, StrsAt(ps), p, q) && Seen(b, StrsAt(ps)) == CutArg(Names(l))
  {
    hide CStrAt, Cut;
    assert Raws(Cuts(l)) == CStrsAt(b, ps);
  }

  method Garg(buf: array<byte>, p: nat, ep: nat, k: Kind) returns (ok: bool, q: nat, l: Loc)
    requires p <= ep <= buf.Length
    modifies buf
    ensures Left(old(buf[..]), buf[..], p, ep, k, ok, q, l)
  {
    hide RString, CStrAt, Cut, StrWithin, Wrote, CutArg;
    ghost var b0 := buf[..];
    assert buf[p..ep] == b0[p..ep];
    if k == KStr {
      var at;
      ok, q, at := Gstring(buf, p, ep);
      l := StrAt(at);
      if ok {
        ghost var s := RString(b0[p..ep]).v;
        StringSeen(b0, buf[..], p, s);
        StringWithin(b0, buf[..], p, s);
        StringRest(b0, buf[..], p, s);
        StringTaken(b0[p..ep]);
        Outside(b0, buf[..], q, ep, ep);
        CutStr(s);
      }
    } else if k == KData || k == KStat {
      ok, q, l := Gbytes(buf, p, ep, k);
    } else if k == KNames || k == KQids {
      ok, q, l := Glist(buf, p, ep, k);
    } else {
      ok, q, l := Gnumber(buf, p, ep, k);
    }
  }

  lemma CutStr(s: seq<byte>)
    ensures CutArg(Str(s)) == Str(Cut(s))
  {}

  lemma ArgsNext(ks: seq<Kind>, b: seq<byte>, done: seq<Arg>, n: nat)
    requires ks != []
    ensures var r := R(ks[0], b);
            && (r.Short? ==> RAll(ks, b) == Short)
            && (r.Read? ==> r.n <= |b| && Pre(done, n, RAll(ks, b)) == Pre(done + [r.v], n + r.n, RAll(ks[1..], b[r.n..])))
  {
    hide R;
    ArgWritten(ks[0], b);
    var r := R(ks[0], b);
    if r.Read? {
      var l := RAll(ks[1..], b[r.n..]);
      if l.Read? {
        assert done + ([r.v] + l.v) == done + [r.v] + l.v;
      }
    }
  }

  /** The fields left so far, in the bytes from lo to hi, show the arguments done. */
  ghost predicate AllSeen(b: seq<byte>, ls: seq<Loc>, done: seq<Arg>, lo: nat, hi: nat) {
    |ls| == |done| && forall i :: 0 <= i < |ls| ==> Within(b, ls[i], lo, hi) && Seen(b, ls[i]) == CutArg(done[i])
  }

  lemma WithinWider(b: seq<byte>, l: Loc, lo: nat, hi: nat, lo2: nat, hi2: nat)
    requires Within(b, l, lo, hi) && lo2 <= lo <= hi <= hi2 <= |b|
    ensures Within(b, l, lo2, hi2)
  {
    match l
    case StrAt(p) => Wider(b, p, lo, hi, hi2);
    case StrsAt(ps) =>
      forall i | 0 <= i < |ps| ensures StrWithin(b, ps[i], lo2, hi2) {
        Wider(b, ps[i], lo, hi, hi2);
      }
    case _ =>
  }

  /** The next argument leaves the fields before it showing what they did. */
  lemma AllKept(b: seq<byte>, c: seq<byte>, ls: seq<Loc>, done: seq<Arg>, lo: nat, p: nat, ep: nat, k: Kind, q: nat, l: Loc)
    requires AllSeen(b, ls, done, lo, p) && lo <= p <= ep <= |b| && Left(b, c, p, ep, k, true, q, l)
    ensures AllSeen(c, ls + [l], done + [R(k, b[p..ep]).v], lo, q)
  {
    hide Within, Seen, CutArg, R;
    Outside(b, c, lo, p, p);
    forall i | 0 <= i < |ls| ensures Within(c, ls[i], lo, q) && Seen(c, ls[i]) == CutArg(done[i]) {
      SeenStays(b, c, ls[i], lo, p);
      WithinWider(c, ls[i], lo, p, lo, q);
    }
    WithinWider(c, l, p, q, lo, q);
  }

  /** The arguments of a message, one after the other. */
  method Gargs(buf: array<byte>, p: nat, ep: nat, ks: seq<Kind>) returns (ok: bool, q: nat, ls: seq<Loc>)
    requires p <= ep <= buf.Length
    modifies buf
    ensures var r := RAll(ks, old(buf[p..ep]));
            && ok == r.Read? && buf[..p] == old(buf[..p]) && buf[ep..] == old(buf[ep..])
            && (ok ==> q == p + r.n <= ep && buf[q..] == old(buf[q..]) && AllSeen(buf[..], ls, r.v, p, q))
  {
    hide R, RAll, AllSeen, Within, Seen, Left, CutArg;
    ghost var b0 := buf[..];
    ghost var done: seq<Arg> := [];
    q, ls := p, [];
    var i := 0;
    NoFields(buf[..], p);
    assert buf[p..ep] == b0[p..ep] && ks[0..] == ks;
    PreNone(RAll(ks, b0[p..ep]));
    while i < |ks|
      invariant i <= |ks| && p <= q <= ep
      invariant buf[..p] == b0[..p] && buf[q..] == b0[q..] && AllSeen(buf[..], ls, done, p, q)
      invariant RAll(ks, b0[p..ep]) == Pre(done, q - p, RAll(ks[i..], b0[q..ep]))
    {
      ghost var b1, q0 := buf[..], q;
      Outside(b0, b1, q, ep, ep);
      ArgsNext(ks[i..], b0[q..ep], done, q - p);
      var l;
      ok, q, l := Garg(buf, q, ep, ks[i]);
      LeftParts(b1, buf[..], q0, ep, ks[i], ok, q, l);
      Outside(b1, buf[..], p, q0, ep);
      if !ok {
        return;
      }
      AllKept(b1, buf[..], ls, done, p, q0, ep, ks[i], q, l);
      Tails(b0, b1, buf[..], p, q0, q, ep);
      assert ks[i..][1..] == ks[i + 1..];
      ls, done := ls + [l], done + [R(ks[i], b0[q0..ep]).v];
      i := i + 1;
    }
    Outside(b0, buf[..], q, ep, ep);
    AllNone(b0[q..ep]);
    assert ks[i..] == [];
    PreDone(done, q - p, RAll(ks[i..], b0[q..ep]));
    ok := true;
  }

  lemma AllNone(b: seq<byte>)
    ensures RAll([], b) == Read([], 0)
  {}

  lemma LeftParts(b0: seq<byte>, b: seq<byte>, p: nat, ep: nat, k: Kind, ok: bool, q: nat, l: Loc)
    requires p <= ep <= |b0| && Left(b0, b, p, ep, k, ok, q, l)
    ensures ok == R(k, b0[p..ep]).Read? && |b| == |b0| && b[..p] == b0[..p] && b[ep..] == b0[ep..]
    ensures ok ==> p <= q == p + R(k, b0[p..ep]).n <= ep && b[q..] == b0[q..]
  {}

  lemma NoFields(b: seq<byte>, p: nat)
    ensures AllSeen(b, [], [], p, p)
  {}

  /** The message as the decoder leaves it. */
  datatype Filled = Filled(ty: u8, tag: u16, fields: seq<Loc>)

  predicate Shows(b: seq<byte>, f: Filled, g: Fcall) {
    && f.ty == TypeOf(g.body) && f.tag == g.tag && |f.fields| == |Fields(g.body)|
    && forall i :: 0 <= i < |f.fields| ==> Seen(b, f.fields[i]) == Fields(g.body)[i]
  }

  /** convM2S: the size of the message at the front of buf, whose fields are then as f
      shows them there, or 0. Bytes behind the message are left alone. */
  method ConvM2S(buf: array<byte>, nap: u32) returns (n: u32, f: Filled)
    requires nap <= buf.Length
    modifies buf
    ensures var d := Decode(old(buf[..nap]));
            && n == (if d.Some? then d.value.0 else 0)
            && (d.Some? ==> Shows(buf[..], f, d.value.1) && n <= nap && buf[n..] == old(buf[n..]))
            && buf[nap..] == old(buf[nap..])
  {
    hide RAll, Layout, G8, G16, G32, Make, Fields, AllSeen, Seen, Within, CutArgs, TypeOf;
    ghost var b0 := buf[..];
    var b := buf[..nap];
    ParseOk(b);
    n, f := 0, Filled(0, 0, []);
    if HDR > nap {
      return;
    }
    var size := G32(b);
    if size < HDR {
      return;
    }
    f := Filled(G8(b[4..]), G16(b[5..]), []);
    if Layout(f.ty) == None {
      return;
    }
    Front(b0, HDR, nap);
    var ok, q, ls := Gargs(buf, HDR, nap, Layout(f.ty).value);
    if !ok || q != size {
      return;
    }
    n, f := size, f.(fields := ls);
    FieldsMade(f.ty, Parse(b).value);
    SeenFields(buf[..], ls, Parse(b).value, q);
  }

  lemma Front(b: seq<byte>, p: nat, ep: nat)
    requires p <= ep <= |b|
    ensures b[..ep][p..] == b[p..ep]
  {}

  lemma SeenFields(b: seq<byte>, ls: seq<Loc>, l: seq<Arg>, q: nat)
    requires AllSeen(b, ls, l, HDR, q)
    ensures |ls| == |CutArgs(l)| && forall i :: 0 <= i < |ls| ==> Seen(b, ls[i]) == CutArgs(l)[i]
  {}
}
