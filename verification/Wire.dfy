/**
 The byte layouts of 9P (PBIT, GBIT, pstring, pqid and their readers in include/fcall.h,
 libc/convS2M.c and libc/convM2S.c). A message is a sequence of arguments; reading is the
 exact inverse of writing.
 */
module Wire {
  import opened Bytes

  type u8 = x: nat | x < 0x100
  type u16 = x: nat | x < 0x1_0000
  type u32 = x: nat | x < 0x1_0000_0000
  type u64 = x: nat | x < 0x1_0000_0000_0000_0000

  const MAXWELEM: nat := 16
  const QIDSZ: nat := 13

  datatype Qid = Qid(ty: u8, vers: u32, path: u64)

  // ---- Numbers, least byte first ----

  function B8(v: u8): (b: seq<byte>)
    ensures |b| == 1
  {
    [v as byte]
  }

  /** PBIT16 keeps the low bits. */
  function B16(v: nat): (b: seq<byte>)
    ensures |b| == 2
  {
    [(v % 0x100) as byte, (v / 0x100 % 0x100) as byte]
  }

  function B32(v: nat): (b: seq<byte>)
    ensures |b| == 4
  {
    B16(v % 0x1_0000) + B16(v / 0x1_0000)
  }

  function B64(v: nat): (b: seq<byte>)
    ensures |b| == 8
  {
    B32(v % 0x1_0000_0000) + B32(v / 0x1_0000_0000)
  }

  function G8(b: seq<byte>): u8
    requires |b| >= 1
  {
    b[0] as nat
  }

  function G16(b: seq<byte>): (v: u16)
    requires |b| >= 2
  {
    b[0] as nat + 0x100 * (b[1] as nat)
  }

  function G32(b: seq<byte>): (v: u32)
    requires |b| >= 4
  {
    G16(b) + 0x1_0000 * G16(b[2..])
  }

  function G64(b: seq<byte>): (v: u64)
    requires |b| >= 8
  {
    G32(b) + 0x1_0000_0000 * G32(b[4..])
  }

  lemma Got16(v: nat, rest: seq<byte>)
    ensures G16(B16(v) + rest) == v % 0x1_0000
  {}

  lemma Got32(v: nat, rest: seq<byte>)
    ensures G32(B32(v) + rest) == v % 0x1_0000_0000
  {
    hide B16, G16;
    var lo, hi := v % 0x1_0000, v / 0x1_0000;
    Got16(lo, B16(hi) + rest);
    Got16(hi, rest);
    assert B32(v) + rest == B16(lo) + (B16(hi) + rest);
    assert (B32(v) + rest)[2..] == B16(hi) + rest;
  }

  lemma Parts32(v: nat)
    ensures v % 0x1_0000_0000 + 0x1_0000_0000 * (v / 0x1_0000_0000 % 0x1_0000_0000) == v % 0x1_0000_0000_0000_0000
  {}

  lemma Got64(v: nat, rest: seq<byte>)
    ensures G64(B64(v) + rest) == v % 0x1_0000_0000_0000_0000
  {
    hide B32, G32;
    var lo, hi := v % 0x1_0000_0000, v / 0x1_0000_0000;
    Got32(lo, B32(hi) + rest);
    Got32(hi, rest);
    assert B64(v) + rest == B32(lo) + (B32(hi) + rest);
    assert (B64(v) + rest)[4..] == B32(hi) + rest;
    Parts32(v);
  }

  lemma Written16(b: seq<byte>)
    requires |b| >= 2
    ensures B16(G16(b)) == b[..2]
  {}

  lemma Written32(b: seq<byte>)
    requires |b| >= 4
    ensures B32(G32(b)) == b[..4]
  {
    hide B16, G16;
    var lo: int, hi: int := G16(b), G16(b[2..]);
    Written16(b);
    Written16(b[2..]);
    assert (lo + 0x1_0000 * hi) % 0x1_0000 == lo && (lo + 0x1_0000 * hi) / 0x1_0000 == hi;
    assert b[..4] == b[..2] + b[2..][..2];
  }

  lemma Written64(b: seq<byte>)
    requires |b| >= 8
    ensures B64(G64(b)) == b[..8]
  {
    hide B32, G32;
    var lo: int, hi: int := G32(b), G32(b[4..]);
    Written32(b);
    Written32(b[4..]);
    assert (lo + 0x1_0000_0000 * hi) % 0x1_0000_0000 == lo && (lo + 0x1_0000_0000 * hi) / 0x1_0000_0000 == hi;
    assert b[..8] == b[..4] + b[4..][..4];
  }

  // ---- Arguments ----

  datatype Arg =
    | N8(n8: u8) | N16(n16: u16) | N32(n32: u32) | N64(n64: u64)
    | Str(s: seq<byte>)
    | AQid(qid: Qid)
    | Data(data: seq<byte>)
    | Stat(stat: seq<byte>)
    | Names(names: seq<seq<byte>>)
    | Qids(qids: seq<Qid>)

  datatype Kind = K8 | K16 | K32 | K64 | KStr | KQid | KData | KStat | KNames | KQids

  function KindOf(a: Arg): Kind {
    match a
    case N8(_) => K8 case N16(_) => K16 case N32(_) => K32 case N64(_) => K64
    case Str(_) => KStr case AQid(_) => KQid case Data(_) => KData case Stat(_) => KStat
    case Names(_) => KNames case Qids(_) => KQids
  }

  /** What a count can say, and no more than MAXWELEM names or qids. */
  predicate ArgOk(a: Arg) {
    match a
    case Str(s) => |s| < 0x1_0000
    case Data(d) => |d| < 0x1_0000_0000
    case Stat(d) => |d| < 0x1_0000
    case Names(l) => |l| <= MAXWELEM && forall i :: 0 <= i < |l| ==> |l[i]| < 0x1_0000
    case Qids(l) => |l| <= MAXWELEM
    case _ => true
  }

  function WString(s: seq<byte>): seq<byte> { B16(|s|) + s }

  function WQid(q: Qid): (b: seq<byte>)
    ensures |b| == QIDSZ
  {
    B8(q.ty) + (B32(q.vers) + B64(q.path))
  }

  function WNames(l: seq<seq<byte>>): seq<byte> { if l == [] then [] else WString(l[0]) + WNames(l[1..]) }

  function WQids(l: seq<Qid>): (b: seq<byte>)
    ensures |b| == QIDSZ * |l|
  {
    if l == [] then [] else WQid(l[0]) + WQids(l[1..])
  }

  function W(a: Arg): seq<byte> {
    match a
    case N8(n) => B8(n)
    case N16(n) => B16(n)
    case N32(n) => B32(n)
    case N64(n) => B64(n)
    case Str(s) => WString(s)
    case AQid(q) => WQid(q)
    case Data(d) => B32(|d|) + d
    case Stat(d) => B16(|d|) + d
    case Names(l) => B16(|l|) + WNames(l)
    case Qids(l) => B16(|l|) + WQids(l)
  }

  function WAll(l: seq<Arg>): seq<byte> { if l == [] then [] else W(l[0]) + WAll(l[1..]) }

  // ---- Reading ----

  /** A reading: what was read and how many bytes it took. */
  datatype Read<T> = Short | Read(v: T, n: nat)

  /** A count of k bytes and as many bytes. */
  function RCounted(b: seq<byte>, k: nat, count: nat): Read<seq<byte>> {
    if k + count > |b| then Short else Read(b[k..k + count], k + count)
  }

  function RString(b: seq<byte>): Read<seq<byte>> {
    if 2 > |b| then Short else RCounted(b, 2, G16(b))
  }

  function RQid(b: seq<byte>): Read<Qid> {
    if QIDSZ > |b| then Short else Read(Qid(G8(b), G32(b[1..]), G64(b[5..])), QIDSZ)
  }

  function RNames(b: seq<byte>, count: nat): Read<seq<seq<byte>>> {
    if count == 0 then Read([], 0)
    else
      match RString(b)
      case Short => Short
      case Read(s, n) =>
        if n > |b| then Short
        else
          match RNames(b[n..], count - 1)
          case Short => Short
          case Read(l, m) => Read([s] + l, n + m)
  }

  function RQids(b: seq<byte>, count: nat): Read<seq<Qid>> {
    if count == 0 then Read([], 0)
    else if QIDSZ > |b| then Short
    else
      match RQids(b[QIDSZ..], count - 1)
      case Short => Short
      case Read(l, m) => Read([RQid(b).v] + l, QIDSZ + m)
  }

  function Map<T, U>(r: Read<T>, f: T -> U, k: nat): Read<U> {
    match r case Short => Short case Read(v, n) => Read(f(v), k + n)
  }

  function R(k: Kind, b: seq<byte>): Read<Arg> {
    match k
    case K8 => if 1 > |b| then Short else Read(N8(G8(b)), 1)
    case K16 => if 2 > |b| then Short else Read(N16(G16(b)), 2)
    case K32 => if 4 > |b| then Short else Read(N32(G32(b)), 4)
    case K64 => if 8 > |b| then Short else Read(N64(G64(b)), 8)
    case KStr => Map(RString(b), s => Str(s), 0)
    case KQid => Map(RQid(b), q => AQid(q), 0)
    case KData => if 4 > |b| then Short else Map(RCounted(b, 4, G32(b)), d => Data(d), 0)
    case KStat => if 2 > |b| then Short else Map(RCounted(b, 2, G16(b)), d => Stat(d), 0)
    case KNames => if 2 > |b| || G16(b) > MAXWELEM then Short else Map(RNames(b[2..], G16(b)), l => Names(l), 2)
    case KQids => if 2 > |b| || G16(b) > MAXWELEM then Short else Map(RQids(b[2..], G16(b)), l => Qids(l), 2)
  }

  function RAll(ks: seq<Kind>, b: seq<byte>): Read<seq<Arg>> {
    if ks == [] then Read([], 0)
    else
      match R(ks[0], b)
      case Short => Short
      case Read(a, n) =>
        if n > |b| then Short
        else
          match RAll(ks[1..], b[n..])
          case Short => Short
          case Read(l, m) => Read([a] + l, n + m)
  }

  // ---- Reading what was written ----

  lemma StringRead(s: seq<byte>, rest: seq<byte>)
    requires |s| < 0x1_0000
    ensures RString(WString(s) + rest) == Read(s, |WString(s)|)
  {
    var b := WString(s) + rest;
    assert b == B16(|s|) + (s + rest);
    Got16(|s|, s + rest);
    assert b[2..2 + |s|] == s;
  }

  lemma QidRead(q: Qid, rest: seq<byte>)
    ensures RQid(WQid(q) + rest) == Read(q, QIDSZ)
  {
    hide B32, G32, B64, G64;
    var b := WQid(q) + rest;
    assert b[1..] == B32(q.vers) + (B64(q.path) + rest);
    assert b[5..] == B64(q.path) + rest;
    Got32(q.vers, B64(q.path) + rest);
    Got64(q.path, rest);
  }

  lemma {:induction false} NamesRead(l: seq<seq<byte>>, rest: seq<byte>)
    requires forall i :: 0 <= i < |l| ==> |l[i]| < 0x1_0000
    ensures RNames(WNames(l) + rest, |l|) == Read(l, |WNames(l)|)
  {
    if l != [] {
      var w, r := WString(l[0]), WNames(l[1..]) + rest;
      assert WNames(l) + rest == w + r;
      StringRead(l[0], r);
      assert (w + r)[|w|..] == r;
      NamesRead(l[1..], rest);
      assert [l[0]] + l[1..] == l;
    }
  }

  lemma {:induction false} QidsRead(l: seq<Qid>, rest: seq<byte>)
    ensures RQids(WQids(l) + rest, |l|) == Read(l, |WQids(l)|)
  {
    hide RQid, WQid;
    if l != [] {
      var w, r := WQid(l[0]), WQids(l[1..]) + rest;
      assert WQids(l) + rest == w + r;
      QidRead(l[0], r);
      assert (w + r)[QIDSZ..] == r;
      QidsRead(l[1..], rest);
      assert [l[0]] + l[1..] == l;
    }
  }

  /** A count, in the bytes c, and what it counts. */
  lemma CountedRead(c: seq<byte>, d: seq<byte>, rest: seq<byte>)
    ensures RCounted(c + d + rest, |c|, |d|) == Read(d, |c| + |d|)
    ensures c + d + rest == c + (d + rest) && (c + d + rest)[|c|..] == d + rest
  {
    assert (c + d + rest)[|c|..|c| + |d|] == d;
  }

  lemma NumberRead(a: Arg, rest: seq<byte>)
    requires a.N8? || a.N16? || a.N32? || a.N64?
    ensures R(KindOf(a), W(a) + rest) == Read(a, |W(a)|)
  {
    hide B16, G16, B32, G32, B64, G64;
    match a
    case N8(n) =>
    case N16(n) => Got16(n, rest);
    case N32(n) => Got32(n, rest);
    case N64(n) => Got64(n, rest);
  }

  lemma BytesRead(a: Arg, rest: seq<byte>)
    requires ArgOk(a) && (a.Data? || a.Stat?)
    ensures R(KindOf(a), W(a) + rest) == Read(a, |W(a)|)
  {
    hide B16, G16, B32, G32, RCounted;
    match a
    case Data(d) =>
      CountedRead(B32(|d|), d, rest);
      Got32(|d|, d + rest);
    case Stat(d) =>
      CountedRead(B16(|d|), d, rest);
      Got16(|d|, d + rest);
  }

  lemma ListRead(a: Arg, rest: seq<byte>)
    requires ArgOk(a) && (a.Names? || a.Qids?)
    ensures R(KindOf(a), W(a) + rest) == Read(a, |W(a)|)
  {
    hide B16, G16, WNames, RNames, WQids, RQids, RCounted;
    match a
    case Names(l) =>
      CountedRead(B16(|l|), WNames(l), rest);
      Got16(|l|, WNames(l) + rest);
      NamesRead(l, rest);
    case Qids(l) =>
      CountedRead(B16(|l|), WQids(l), rest);
      Got16(|l|, WQids(l) + rest);
      QidsRead(l, rest);
  }

  /** An argument that fits is read back, whatever follows it. */
  lemma ArgRead(a: Arg, rest: seq<byte>)
    requires ArgOk(a)
    ensures R(KindOf(a), W(a) + rest) == Read(a, |W(a)|)
  {
    hide B16, G16, RString, WString, RQid, WQid, WNames, RNames, WQids, RQids, B32, G32, B64, G64;
    match a
    case Str(s) => StringRead(s, rest);
    case AQid(q) => QidRead(q, rest);
    case Data(_) => BytesRead(a, rest);
    case Stat(_) => BytesRead(a, rest);
    case Names(_) => ListRead(a, rest);
    case Qids(_) => ListRead(a, rest);
    case _ => NumberRead(a, rest);
  }

  predicate AllOk(l: seq<Arg>) { forall i :: 0 <= i < |l| ==> ArgOk(l[i]) }

  predicate Kinds(l: seq<Arg>, ks: seq<Kind>) { |l| == |ks| && forall i :: 0 <= i < |l| ==> KindOf(l[i]) == ks[i] }

  lemma {:induction false} AllRead(l: seq<Arg>, ks: seq<Kind>, rest: seq<byte>)
    requires AllOk(l) && Kinds(l, ks)
    ensures RAll(ks, WAll(l) + rest) == Read(l, |WAll(l)|)
  {
    hide R, W;
    if l != [] {
      var w, r := W(l[0]), WAll(l[1..]) + rest;
      assert WAll(l) + rest == w + r;
      ArgRead(l[0], r);
      assert (w + r)[|w|..] == r;
      AllRead(l[1..], ks[1..], rest);
      assert [l[0]] + l[1..] == l;
    }
  }

  // ---- Writing what was read ----

  lemma StringWritten(b: seq<byte>)
    ensures var r := RString(b); r.Read? ==> r.n <= |b| && |r.v| < 0x1_0000 && WString(r.v) == b[..r.n]
  {
    if RString(b).Read? {
      Written16(b);
      var n := G16(b);
      assert b[..2 + n] == b[..2] + b[2..2 + n];
    }
  }

  lemma QidWritten(b: seq<byte>)
    requires |b| >= QIDSZ
    ensures WQid(RQid(b).v) == b[..QIDSZ]
  {
    hide B32, G32, B64, G64;
    Written32(b[1..]);
    Written64(b[5..]);
    assert b[..QIDSZ] == b[..1] + (b[1..][..4] + b[5..][..8]);
  }

  lemma {:induction false} NamesWritten(b: seq<byte>, count: nat)
    ensures var r := RNames(b, count);
            r.Read? ==> r.n <= |b| && |r.v| == count && WNames(r.v) == b[..r.n] &&
                        forall i :: 0 <= i < |r.v| ==> |r.v[i]| < 0x1_0000
  {
    if count > 0 && RNames(b, count).Read? {
      StringWritten(b);
      var s := RString(b);
      NamesWritten(b[s.n..], count - 1);
      var l := RNames(b[s.n..], count - 1);
      assert ([s.v] + l.v)[1..] == l.v;
      assert b[..s.n + l.n] == b[..s.n] + b[s.n..][..l.n];
    }
  }

  lemma {:induction false} QidsWritten(b: seq<byte>, count: nat)
    ensures var r := RQids(b, count); r.Read? ==> r.n <= |b| && |r.v| == count && WQids(r.v) == b[..r.n]
  {
    if count > 0 && RQids(b, count).Read? {
      QidWritten(b);
      QidsWritten(b[QIDSZ..], count - 1);
      var l := RQids(b[QIDSZ..], count - 1);
      assert ([RQid(b).v] + l.v)[1..] == l.v;
      assert b[..QIDSZ + l.n] == b[..QIDSZ] + b[QIDSZ..][..l.n];
    }
  }

  /** What was read fits, and is written back as the bytes it was read from. */
  lemma ArgWritten(k: Kind, b: seq<byte>)
    ensures var r := R(k, b); r.Read? ==> r.n <= |b| && KindOf(r.v) == k && ArgOk(r.v) && W(r.v) == b[..r.n]
  {
    hide B16, G16, B32, G32, B64, G64, RString, WString, WQid, WNames, RNames, WQids, RQids;
    if R(k, b).Read? {
      match k
      case K8 =>
      case K16 => Written16(b);
      case K32 => Written32(b);
      case K64 => Written64(b);
      case KStr => StringWritten(b);
      case KQid => QidWritten(b);
      case KData =>
        Written32(b);
        assert b[..4 + G32(b)] == b[..4] + b[4..4 + G32(b)];
      case KStat =>
        Written16(b);
        assert b[..2 + G16(b)] == b[..2] + b[2..2 + G16(b)];
      case KNames =>
        Written16(b);
        NamesWritten(b[2..], G16(b));
        var n := RNames(b[2..], G16(b)).n;
        assert b[..2 + n] == b[..2] + b[2..][..n];
      case KQids =>
        Written16(b);
        QidsWritten(b[2..], G16(b));
        var n := RQids(b[2..], G16(b)).n;
        assert b[..2 + n] == b[..2] + b[2..][..n];
    }
  }

  lemma {:induction false} AllWritten(ks: seq<Kind>, b: seq<byte>)
    ensures var r := RAll(ks, b); r.Read? ==> r.n <= |b| && Kinds(r.v, ks) && AllOk(r.v) && WAll(r.v) == b[..r.n]
  {
    hide R, W, ArgOk;
    if ks != [] && RAll(ks, b).Read? {
      ArgWritten(ks[0], b);
      var a := R(ks[0], b);
      AllWritten(ks[1..], b[a.n..]);
      var l := RAll(ks[1..], b[a.n..]);
      assert ([a.v] + l.v)[1..] == l.v;
      assert b[..a.n + l.n] == b[..a.n] + b[a.n..][..l.n];
    }
  }
}
