/**
 Where every field of a 9P message and of a directory entry is, byte by byte, as section 5
 of the Plan 9 Programmer's Manual draws them (intro and stat). The encoder writes just
 these bytes, and the decoder makes of them the message that was meant.
 */
module FcallBytes {
  import opened Bytes
  import opened Wire
  import opened Fcalls

  /** The number that bytes make, the least one first. */
  function Le(b: seq<byte>): nat { if b == [] then 0 else b[0] as nat + 0x100 * Le(b[1..]) }

  /** The n bytes from o are the number v. */
  predicate Num(b: seq<byte>, o: nat, n: nat, v: nat) { o + n <= |b| && Le(b[o..o + n]) == v }

  predicate BytesAt(b: seq<byte>, o: nat, s: seq<byte>) { o + |s| <= |b| && b[o..o + |s|] == s }

  /** A count of two bytes and the bytes of the string. */
  predicate TextAt(b: seq<byte>, o: nat, t: Text) { Num(b, o, 2, |Raw(t)|) && BytesAt(b, o + 2, Raw(t)) }

  predicate QidAt(b: seq<byte>, o: nat, q: Qid) {
    Num(b, o, 1, q.ty) && Num(b, o + 1, 4, q.vers) && Num(b, o + 5, 8, q.path)
  }

  /** How many bytes the first n names take. */
  function Before(l: seq<Text>, n: nat): nat
    requires n <= |l|
  {
    if n == 0 then 0 else Before(l, n - 1) + 2 + |Raw(l[n - 1])|
  }

  predicate NamesAt(b: seq<byte>, o: nat, l: seq<Text>) {
    o + Before(l, |l|) == |b| && forall i :: 0 <= i < |l| ==> TextAt(b, o + Before(l, i), l[i])
  }

  predicate QidsAt(b: seq<byte>, o: nat, l: seq<Qid>) {
    o + 13 * |l| == |b| && forall i :: 0 <= i < |l| ==> QidAt(b, o + 13 * i, l[i])
  }

  /** The type at 4 and the fields of each message behind the tag; the last of them ends
      the message. */
  predicate FieldsAt(m: Body, b: seq<byte>) {
    match m
    case Tversion(msize, version) =>
      Num(b, 4, 1, 100) && Num(b, 7, 4, msize) && TextAt(b, 11, version) && |b| == 13 + |Raw(version)|
    case Rversion(msize, version) =>
      Num(b, 4, 1, 101) && Num(b, 7, 4, msize) && TextAt(b, 11, version) && |b| == 13 + |Raw(version)|
    case Tauth(afid, uname, aname) =>
      && Num(b, 4, 1, 102) && Num(b, 7, 4, afid) && TextAt(b, 11, uname) && TextAt(b, 13 + |Raw(uname)|, aname)
      && |b| == 15 + |Raw(uname)| + |Raw(aname)|
    case Rauth(aqid) => Num(b, 4, 1, 103) && QidAt(b, 7, aqid) && |b| == 20
    case Tattach(fid, afid, uname, aname) =>
      && Num(b, 4, 1, 104) && Num(b, 7, 4, fid) && Num(b, 11, 4, afid) && TextAt(b, 15, uname)
      && TextAt(b, 17 + |Raw(uname)|, aname) && |b| == 19 + |Raw(uname)| + |Raw(aname)|
    case Rattach(qid) => Num(b, 4, 1, 105) && QidAt(b, 7, qid) && |b| == 20
    case Rerror(ename) => Num(b, 4, 1, 107) && TextAt(b, 7, ename) && |b| == 9 + |Raw(ename)|
    case Tflush(oldtag) => Num(b, 4, 1, 108) && Num(b, 7, 2, oldtag) && |b| == 9
    case Rflush => Num(b, 4, 1, 109) && |b| == 7
    case Twalk(fid, newfid, wname) =>
      && Num(b, 4, 1, 110) && Num(b, 7, 4, fid) && Num(b, 11, 4, newfid) && Num(b, 15, 2, |wname|)
      && NamesAt(b, 17, wname)
    case Rwalk(wqid) => Num(b, 4, 1, 111) && Num(b, 7, 2, |wqid|) && QidsAt(b, 9, wqid)
    case Topen(fid, mode) => Num(b, 4, 1, 112) && Num(b, 7, 4, fid) && Num(b, 11, 1, mode) && |b| == 12
    case Ropen(qid, iounit) => Num(b, 4, 1, 113) && QidAt(b, 7, qid) && Num(b, 20, 4, iounit) && |b| == 24
    case Tcreate(fid, name, perm, mode) =>
      && Num(b, 4, 1, 114) && Num(b, 7, 4, fid) && TextAt(b, 11, name) && Num(b, 13 + |Raw(name)|, 4, perm)
      && Num(b, 17 + |Raw(name)|, 1, mode) && |b| == 18 + |Raw(name)|
    case Rcreate(qid, iounit) => Num(b, 4, 1, 115) && QidAt(b, 7, qid) && Num(b, 20, 4, iounit) && |b| == 24
    case Tread(fid, offset, count) =>
      Num(b, 4, 1, 116) && Num(b, 7, 4, fid) && Num(b, 11, 8, offset) && Num(b, 19, 4, count) && |b| == 23
    case Rread(data) => Num(b, 4, 1, 117) && Num(b, 7, 4, |data|) && BytesAt(b, 11, data) && |b| == 11 + |data|
    case Twrite(fid, offset, data) =>
      && Num(b, 4, 1, 118) && Num(b, 7, 4, fid) && Num(b, 11, 8, offset) && Num(b, 19, 4, |data|) && BytesAt(b, 23, data)
      && |b| == 23 + |data|
    case Rwrite(count) => Num(b, 4, 1, 119) && Num(b, 7, 4, count) && |b| == 11
    case Tclunk(fid) => Num(b, 4, 1, 120) && Num(b, 7, 4, fid) && |b| == 11
    case Rclunk => Num(b, 4, 1, 121) && |b| == 7
    case Tremove(fid) => Num(b, 4, 1, 122) && Num(b, 7, 4, fid) && |b| == 11
    case Rremove => Num(b, 4, 1, 123) && |b| == 7
    case Tstat(fid) => Num(b, 4, 1, 124) && Num(b, 7, 4, fid) && |b| == 11
    case Rstat(stat) => Num(b, 4, 1, 125) && Num(b, 7, 2, |stat|) && BytesAt(b, 9, stat) && |b| == 9 + |stat|
    case Twstat(fid, stat) =>
      && Num(b, 4, 1, 126) && Num(b, 7, 4, fid) && Num(b, 11, 2, |stat|) && BytesAt(b, 13, stat) && |b| == 13 + |stat|
    case Rwstat => Num(b, 4, 1, 127) && |b| == 7
    case Other(_) => false
  }

  /** The size at 0, the tag at 5. */
  predicate LaidOut(f: Fcall, b: seq<byte>) { Num(b, 0, 4, |b|) && Num(b, 5, 2, f.tag) && FieldsAt(f.body, b) }

  // ---- Numbers ----

  lemma Le1(b: seq<byte>)
    requires |b| == 1
    ensures Le(b) == b[0] as nat
  {
    assert b[1..] == [];
  }

  lemma Le2(b: seq<byte>)
    requires |b| == 2
    ensures Le(b) == G16(b)
  {
    Le1(b[1..]);
  }

  lemma {:induction false} LeParts(b: seq<byte>, n: nat)
    requires n <= |b|
    ensures Le(b) == Le(b[..n]) + Exp(n) * Le(b[n..])
  {
    if n > 0 {
      var c := b[1..];
      LeParts(c, n - 1);
      assert b[..n][1..] == c[..n - 1] && c[n - 1..] == b[n..];
      Times(Exp(n - 1), Le(b[n..]));
    } else {
      assert b[..0] == [] && b[0..] == b;
    }
  }

  function Exp(n: nat): nat { if n == 0 then 1 else 0x100 * Exp(n - 1) }

  lemma Times(x: nat, y: nat)
    ensures 0x100 * (x * y) == (0x100 * x) * y
  {}

  lemma Exps()
    ensures Exp(2) == 0x1_0000 && Exp(4) == 0x1_0000_0000
  {
    assert Exp(1) == 0x100;
    assert Exp(3) == 0x100_0000;
  }

  lemma Le4(b: seq<byte>)
    requires |b| == 4
    ensures Le(b) == G32(b)
  {
    hide Le, G16;
    LeParts(b, 2);
    Exps();
    Le2(b[..2]);
    Le2(b[2..]);
    FrontG16(b);
  }

  lemma FrontG16(b: seq<byte>)
    requires |b| >= 2
    ensures G16(b[..2]) == G16(b)
  {}

  lemma FrontG32(b: seq<byte>)
    requires |b| >= 4
    ensures G32(b[..4]) == G32(b)
  {}

  lemma Le8(b: seq<byte>)
    requires |b| == 8
    ensures Le(b) == G64(b)
  {
    hide Le, G32;
    LeParts(b, 4);
    Exps();
    Le4(b[..4]);
    Le4(b[4..]);
    FrontG32(b);
  }

  /** The bytes at o are those that write the argument a. */
  predicate ArgAt(b: seq<byte>, o: nat, a: Arg) { BytesAt(b, o, W(a)) }

  lemma Num8(b: seq<byte>, o: nat, v: u8)
    ensures Num(b, o, 1, v) <==> BytesAt(b, o, B8(v))
  {
    if o + 1 <= |b| {
      Le1(b[o..o + 1]);
      assert b[o..o + 1] == [b[o]];
    }
  }

  lemma Num16(b: seq<byte>, o: nat, v: u16)
    ensures Num(b, o, 2, v) <==> BytesAt(b, o, B16(v))
  {
    hide B16, G16, Le;
    if o + 2 <= |b| {
      var c := b[o..o + 2];
      Le2(c);
      Got16(v, []);
      Written16(c);
      assert B16(v) + [] == B16(v) && c[..2] == c;
    }
  }

  lemma Num32(b: seq<byte>, o: nat, v: u32)
    ensures Num(b, o, 4, v) <==> BytesAt(b, o, B32(v))
  {
    hide B32, G32, Le;
    if o + 4 <= |b| {
      var c := b[o..o + 4];
      Le4(c);
      Got32(v, []);
      Written32(c);
      assert B32(v) + [] == B32(v) && c[..4] == c;
    }
  }

  lemma Num64(b: seq<byte>, o: nat, v: u64)
    ensures Num(b, o, 8, v) <==> BytesAt(b, o, B64(v))
  {
    hide B64, G64, Le;
    if o + 8 <= |b| {
      var c := b[o..o + 8];
      Le8(c);
      Got64(v, []);
      Written64(c);
      assert B64(v) + [] == B64(v) && c[..8] == c;
    }
  }

  // ---- Arguments ----

  lemma BytesBoth(b: seq<byte>, o: nat, s: seq<byte>, t: seq<byte>)
    ensures BytesAt(b, o, s + t) <==> BytesAt(b, o, s) && BytesAt(b, o + |s|, t)
  {
    if o + |s| + |t| <= |b| {
      assert b[o..o + |s + t|] == b[o..o + |s|] + b[o + |s|..o + |s| + |t|];
      assert b[o..o + |s + t|][..|s|] == b[o..o + |s|] && b[o..o + |s + t|][|s|..] == b[o + |s|..o + |s| + |t|];
    }
  }

  lemma BytesNone(b: seq<byte>, o: nat)
    ensures BytesAt(b, o, []) <==> o <= |b|
  {}

  lemma TextIs(b: seq<byte>, o: nat, t: Text)
    requires |Raw(t)| < 0x1_0000
    ensures TextAt(b, o, t) <==> BytesAt(b, o, WString(Raw(t)))
    ensures |WString(Raw(t))| == 2 + |Raw(t)|
  {
    hide Num, BytesAt, B16;
    Num16(b, o, |Raw(t)|);
    BytesBoth(b, o, B16(|Raw(t)|), Raw(t));
  }

  lemma QidIs(b: seq<byte>, o: nat, q: Qid)
    ensures QidAt(b, o, q) <==> BytesAt(b, o, WQid(q))
  {
    hide Num, BytesAt, B8, B32, B64;
    Num8(b, o, q.ty);
    Num32(b, o + 1, q.vers);
    Num64(b, o + 5, q.path);
    BytesBoth(b, o + 1, B32(q.vers), B64(q.path));
    BytesBoth(b, o, B8(q.ty), B32(q.vers) + B64(q.path));
  }

  /** The bytes from o to the end are those of the arguments l. */
  predicate ArgsAt(b: seq<byte>, o: nat, l: seq<Arg>)
    decreases |l|
  {
    if l == [] then o == |b| else ArgAt(b, o, l[0]) && ArgsAt(b, o + |W(l[0])|, l[1..])
  }

  lemma {:induction false} ArgsAre(b: seq<byte>, o: nat, l: seq<Arg>)
    requires o <= |b|
    ensures ArgsAt(b, o, l) <==> b[o..] == WAll(l)
    decreases |l|
  {
    hide W;
    if l != [] {
      var n := |W(l[0])|;
      if o + n <= |b| {
        ArgsAre(b, o + n, l[1..]);
        assert b[o..] == b[o..o + n] + b[o + n..];
        assert b[o..][..n] == b[o..o + n] && b[o..][n..] == b[o + n..];
        assert WAll(l)[..n] == W(l[0]) && WAll(l)[n..] == WAll(l[1..]);
      } else {
        assert |WAll(l)| >= n;
      }
    }
  }

  lemma ArgsNone(b: seq<byte>, o: nat)
    ensures ArgsAt(b, o, []) <==> o == |b|
  {}

  lemma ArgsFirst(b: seq<byte>, o: nat, a: Arg, l: seq<Arg>)
    ensures ArgsAt(b, o, [a] + l) <==> ArgAt(b, o, a) && ArgsAt(b, o + |W(a)|, l)
  {
    hide W, ArgAt;
    var m := [a] + l;
    assert m != [] && m[0] == a && m[1..] == l;
  }

  // ---- Names and qids ----

  lemma {:induction false} BeforeRest(l: seq<Text>, n: nat)
    requires 0 < n <= |l|
    ensures Before(l, n) == 2 + |Raw(l[0])| + Before(l[1..], n - 1)
  {
    if n > 1 {
      BeforeRest(l, n - 1);
    }
  }

  lemma NamesRest(b: seq<byte>, o: nat, l: seq<Text>)
    requires l != []
    ensures NamesAt(b, o, l) <==> TextAt(b, o, l[0]) && NamesAt(b, o + 2 + |Raw(l[0])|, l[1..])
  {
    hide TextAt, Before, NamesAt;
    if NamesAt(b, o, l) {
      NamesSplit(b, o, l);
    }
    if TextAt(b, o, l[0]) && NamesAt(b, o + 2 + |Raw(l[0])|, l[1..]) {
      NamesJoin(b, o, l);
    }
  }

  lemma NamesSplit(b: seq<byte>, o: nat, l: seq<Text>)
    requires l != [] && NamesAt(b, o, l)
    ensures TextAt(b, o, l[0]) && NamesAt(b, o + 2 + |Raw(l[0])|, l[1..])
  {
    hide TextAt, Raw, NamesAt, Before;
    BeforeRest(l, |l|);
    NamesEnds(b, o, l);
    var r, p := l[1..], o + 2 + |Raw(l[0])|;
    forall i | 0 <= i < |r| ensures TextAt(b, p + Before(r, i), r[i]) {
      NameThere(b, o, l, i + 1);
    }
    NamesListed(b, p, r);
  }

  lemma NamesEnds(b: seq<byte>, o: nat, l: seq<Text>)
    requires l != [] && NamesAt(b, o, l)
    ensures TextAt(b, o, l[0]) && o + Before(l, |l|) == |b|
  {
    assert TextAt(b, o + Before(l, 0), l[0]);
  }

  lemma NamesListed(b: seq<byte>, o: nat, l: seq<Text>)
    requires o + Before(l, |l|) == |b| && forall i :: 0 <= i < |l| ==> TextAt(b, o + Before(l, i), l[i])
    ensures NamesAt(b, o, l)
  {}

  lemma NameThere(b: seq<byte>, o: nat, l: seq<Text>, i: nat)
    requires 0 < i < |l| && NamesAt(b, o, l)
    ensures TextAt(b, o + 2 + |Raw(l[0])| + Before(l[1..], i - 1), l[1..][i - 1])
  {
    hide TextAt, Raw;
    BeforeRest(l, i);
    assert TextAt(b, o + Before(l, i), l[i]);
  }

  lemma NamesJoin(b: seq<byte>, o: nat, l: seq<Text>)
    requires l != [] && TextAt(b, o, l[0]) && NamesAt(b, o + 2 + |Raw(l[0])|, l[1..])
    ensures NamesAt(b, o, l)
  {
    hide TextAt, Raw;
    BeforeRest(l, |l|);
    forall i | 0 <= i < |l| ensures TextAt(b, o + Before(l, i), l[i]) {
      if i > 0 {
        NameLater(b, o, l, i);
      }
    }
  }

  lemma NameLater(b: seq<byte>, o: nat, l: seq<Text>, i: nat)
    requires 0 < i < |l| && NamesAt(b, o + 2 + |Raw(l[0])|, l[1..])
    ensures TextAt(b, o + Before(l, i), l[i])
  {
    hide TextAt, Raw;
    BeforeRest(l, i);
    var r, p := l[1..], o + 2 + |Raw(l[0])|;
    assert TextAt(b, p + Before(r, i - 1), r[i - 1]);
  }

  lemma NoNames(b: seq<byte>, o: nat)
    ensures NamesAt(b, o, []) <==> o == |b|
    ensures WNames(Raws([])) == []
  {}

  lemma NamesBytes(l: seq<Text>)
    requires l != []
    ensures WNames(Raws(l)) == WString(Raw(l[0])) + WNames(Raws(l[1..]))
  {
    hide WString;
    assert Raws(l)[1..] == Raws(l[1..]);
  }

  lemma {:induction false} NamesAre(b: seq<byte>, o: nat, l: seq<Text>)
    requires forall i :: 0 <= i < |l| ==> |Raw(l[i])| < 0x1_0000
    ensures NamesAt(b, o, l) <==> BytesAt(b, o, WNames(Raws(l))) && o + |WNames(Raws(l))| == |b|
    decreases |l|
  {
    hide TextAt, BytesAt, WString, WNames, Raws, NamesAt, Raw;
    if l == [] {
      BytesNone(b, o);
      NoNames(b, o);
    } else {
      var w := WString(Raw(l[0]));
      TextIs(b, o, l[0]);
      NamesRest(b, o, l);
      NamesAre(b, o + |w|, l[1..]);
      NamesBytes(l);
      BytesBoth(b, o, w, WNames(Raws(l[1..])));
    }
  }

  lemma QidsRest(b: seq<byte>, o: nat, l: seq<Qid>)
    requires l != []
    ensures QidsAt(b, o, l) <==> QidAt(b, o, l[0]) && QidsAt(b, o + 13, l[1..])
  {
    hide QidAt;
    if QidsAt(b, o, l) {
      assert QidAt(b, o + 13 * 0, l[0]);
      forall i | 0 <= i < |l| - 1 ensures QidAt(b, o + 13 + 13 * i, l[1..][i]) {
        assert QidAt(b, o + 13 * (i + 1), l[i + 1]);
      }
    }
    if QidAt(b, o, l[0]) && QidsAt(b, o + 13, l[1..]) {
      forall i | 0 <= i < |l| ensures QidAt(b, o + 13 * i, l[i]) {
        if i > 0 {
          assert QidAt(b, o + 13 + 13 * (i - 1), l[1..][i - 1]);
        }
      }
    }
  }

  lemma {:induction false} QidsAre(b: seq<byte>, o: nat, l: seq<Qid>)
    ensures QidsAt(b, o, l) <==> BytesAt(b, o, WQids(l)) && o + |WQids(l)| == |b|
    decreases |l|
  {
    hide QidAt, BytesAt, WQid;
    if l == [] {
      BytesNone(b, o);
    } else {
      QidIs(b, o, l[0]);
      QidsRest(b, o, l);
      QidsAre(b, o + 13, l[1..]);
      BytesBoth(b, o, WQid(l[0]), WQids(l[1..]));
    }
  }

  // ---- Message by message ----

  /** What a field says, wherever it is. */
  lemma FieldIs(b: seq<byte>, o: nat)
    ensures forall v: u8 :: ArgAt(b, o, N8(v)) <==> Num(b, o, 1, v)
    ensures forall v: u16 :: ArgAt(b, o, N16(v)) <==> Num(b, o, 2, v)
    ensures forall v: u32 :: ArgAt(b, o, N32(v)) <==> Num(b, o, 4, v)
    ensures forall v: u64 :: ArgAt(b, o, N64(v)) <==> Num(b, o, 8, v)
    ensures forall q: Qid :: ArgAt(b, o, AQid(q)) <==> QidAt(b, o, q)
  {
    hide Num, BytesAt, QidAt, B8, B16, B32, B64, WQid;
    forall v: u8 ensures ArgAt(b, o, N8(v)) <==> Num(b, o, 1, v) { Num8(b, o, v); }
    forall v: u16 ensures ArgAt(b, o, N16(v)) <==> Num(b, o, 2, v) { Num16(b, o, v); }
    forall v: u32 ensures ArgAt(b, o, N32(v)) <==> Num(b, o, 4, v) { Num32(b, o, v); }
    forall v: u64 ensures ArgAt(b, o, N64(v)) <==> Num(b, o, 8, v) { Num64(b, o, v); }
    forall q: Qid ensures ArgAt(b, o, AQid(q)) <==> QidAt(b, o, q) { QidIs(b, o, q); }
  }

  lemma TextField(b: seq<byte>, o: nat, t: Text)
    requires |Raw(t)| < 0x1_0000
    ensures ArgAt(b, o, Str(Raw(t))) <==> TextAt(b, o, t)
    ensures |W(Str(Raw(t)))| == 2 + |Raw(t)|
  {
    hide Num, BytesAt, WString, TextAt;
    TextIs(b, o, t);
  }

  lemma DataField(b: seq<byte>, o: nat, d: Data32)
    ensures ArgAt(b, o, Data(d)) <==> Num(b, o, 4, |d|) && BytesAt(b, o + 4, d)
  {
    hide Num, BytesAt, B32;
    Num32(b, o, |d|);
    BytesBoth(b, o, B32(|d|), d);
  }

  lemma StatField(b: seq<byte>, o: nat, d: Data16)
    ensures ArgAt(b, o, Stat(d)) <==> Num(b, o, 2, |d|) && BytesAt(b, o + 2, d)
  {
    hide Num, BytesAt, B16;
    Num16(b, o, |d|);
    BytesBoth(b, o, B16(|d|), d);
  }

  lemma ListField(b: seq<byte>, o: nat, a: Arg)
    requires a.Names? || a.Qids?
    requires a.Names? ==> |a.names| < 0x1_0000
    requires a.Qids? ==> |a.qids| < 0x1_0000
    ensures a.Names? ==> (ArgAt(b, o, a) <==> Num(b, o, 2, |a.names|) && BytesAt(b, o + 2, WNames(a.names)))
                         && |W(a)| == 2 + |WNames(a.names)|
    ensures a.Qids? ==> (ArgAt(b, o, a) <==> Num(b, o, 2, |a.qids|) && BytesAt(b, o + 2, WQids(a.qids)))
                        && |W(a)| == 2 + |WQids(a.qids)|
  {
    hide Num, BytesAt, B16, WNames, WQids;
    if a.Names? {
      Num16(b, o, |a.names|);
      BytesBoth(b, o, B16(|a.names|), WNames(a.names));
    } else {
      Num16(b, o, |a.qids|);
      BytesBoth(b, o, B16(|a.qids|), WQids(a.qids));
    }
  }

  lemma ArgsOne(b: seq<byte>, o: nat, x: Arg)
    ensures ArgsAt(b, o, [x]) <==> ArgAt(b, o, x) && o + |W(x)| == |b|
  {
    hide W, ArgAt;
    assert [x] == [x] + [];
    ArgsFirst(b, o, x, []);
    ArgsNone(b, o + |W(x)|);
  }

  lemma ArgsTwo(b: seq<byte>, o: nat, x: Arg, y: Arg)
    ensures ArgsAt(b, o, [x, y]) <==> ArgAt(b, o, x) && ArgAt(b, o + |W(x)|, y) && o + |W(x)| + |W(y)| == |b|
  {
    hide W, ArgAt, ArgsAt;
    assert [x, y] == [x] + [y];
    ArgsFirst(b, o, x, [y]);
    ArgsOne(b, o + |W(x)|, y);
  }

  lemma ArgsThree(b: seq<byte>, o: nat, x: Arg, y: Arg, z: Arg)
    ensures ArgsAt(b, o, [x, y, z]) <==>
              && ArgAt(b, o, x) && ArgAt(b, o + |W(x)|, y) && ArgAt(b, o + |W(x)| + |W(y)|, z)
              && o + |W(x)| + |W(y)| + |W(z)| == |b|
  {
    hide W, ArgAt, ArgsAt;
    assert [x, y, z] == [x] + [y, z];
    ArgsFirst(b, o, x, [y, z]);
    ArgsTwo(b, o + |W(x)|, y, z);
  }

  lemma ArgsFour(b: seq<byte>, o: nat, x: Arg, y: Arg, z: Arg, u: Arg)
    ensures ArgsAt(b, o, [x, y, z, u]) <==>
              && ArgAt(b, o, x) && ArgAt(b, o + |W(x)|, y) && ArgAt(b, o + |W(x)| + |W(y)|, z)
              && ArgAt(b, o + |W(x)| + |W(y)| + |W(z)|, u) && o + |W(x)| + |W(y)| + |W(z)| + |W(u)| == |b|
  {
    hide W, ArgAt, ArgsAt;
    assert [x, y, z, u] == [x] + [y, z, u];
    ArgsFirst(b, o, x, [y, z, u]);
    ArgsThree(b, o + |W(x)|, y, z, u);
  }

  /** The type at 4 and the arguments from 7. */
  predicate Listed(m: Body, b: seq<byte>) { Num(b, 4, 1, TypeOf(m)) && ArgsAt(b, 7, Fields(m)) }

  predicate Fits(m: Body) { !m.Other? && ListsOk(m) && Shorts(m) }

  lemma WithNothing(m: Body, b: seq<byte>)
    requires m.Rflush? || m.Rclunk? || m.Rremove? || m.Rwstat?
    ensures FieldsAt(m, b) <==> Listed(m, b)
  {
    hide Num, ArgsAt;
    ArgsNone(b, 7);
  }

  lemma WithFid(m: Body, b: seq<byte>)
    requires m.Rwrite? || m.Tclunk? || m.Tremove? || m.Tstat?
    ensures FieldsAt(m, b) <==> Listed(m, b)
  {
    hide Num, ArgAt, ArgsAt, BytesAt;
    FieldIs(b, 7);
    var v := if m.Rwrite? then m.count else m.fid;
    ArgsOne(b, 7, N32(v));
  }

  lemma WithNumbers(m: Body, b: seq<byte>)
    requires m.Tflush? || m.Topen? || m.Tread?
    ensures FieldsAt(m, b) <==> Listed(m, b)
  {
    hide Num, ArgAt, ArgsAt, BytesAt;
    FieldIs(b, 7);
    FieldIs(b, 11);
    FieldIs(b, 19);
    match m
    case Tflush(oldtag) => ArgsOne(b, 7, N16(oldtag));
    case Topen(fid, mode) => ArgsTwo(b, 7, N32(fid), N8(mode));
    case Tread(fid, offset, count) => ArgsThree(b, 7, N32(fid), N64(offset), N32(count));
  }

  lemma WithQid(m: Body, b: seq<byte>)
    requires m.Rauth? || m.Rattach? || m.Ropen? || m.Rcreate?
    ensures FieldsAt(m, b) <==> Listed(m, b)
  {
    hide Num, ArgAt, ArgsAt, BytesAt, QidAt, WQid;
    FieldIs(b, 7);
    FieldIs(b, 20);
    match m
    case Rauth(q) => ArgsOne(b, 7, AQid(q));
    case Rattach(q) => ArgsOne(b, 7, AQid(q));
    case Ropen(q, iounit) => ArgsTwo(b, 7, AQid(q), N32(iounit));
    case Rcreate(q, iounit) => ArgsTwo(b, 7, AQid(q), N32(iounit));
  }

  lemma WithData(m: Body, b: seq<byte>)
    requires m.Rread? || m.Twrite? || m.Rstat? || m.Twstat?
    ensures FieldsAt(m, b) <==> Listed(m, b)
  {
    hide Num, ArgAt, ArgsAt, BytesAt;
    FieldIs(b, 7);
    FieldIs(b, 11);
    match m
    case Rread(data) =>
      ArgsOne(b, 7, Data(data));
      DataField(b, 7, data);
    case Twrite(fid, offset, data) =>
      ArgsThree(b, 7, N32(fid), N64(offset), Data(data));
      DataField(b, 19, data);
    case Rstat(stat) =>
      ArgsOne(b, 7, Stat(stat));
      StatField(b, 7, stat);
    case Twstat(fid, stat) =>
      ArgsTwo(b, 7, N32(fid), Stat(stat));
      StatField(b, 11, stat);
  }

  lemma WithLists(m: Body, b: seq<byte>)
    requires (m.Twalk? || m.Rwalk?) && Fits(m)
    ensures FieldsAt(m, b) <==> Listed(m, b)
  {
    hide Num, ArgAt, ArgsAt, BytesAt, NamesAt, QidsAt, WNames, WQids, Raw;
    FieldIs(b, 7);
    FieldIs(b, 11);
    match m
    case Twalk(fid, newfid, wname) =>
      var a := Names(Raws(wname));
      ArgsThree(b, 7, N32(fid), N32(newfid), a);
      ListField(b, 15, a);
      assert forall i :: 0 <= i < |wname| ==> Texts(m)[i] == wname[i];
      NamesAre(b, 17, wname);
    case Rwalk(wqid) =>
      ArgsOne(b, 7, Qids(wqid));
      ListField(b, 7, Qids(wqid));
      QidsAre(b, 9, wqid);
  }

  lemma WithText(m: Body, b: seq<byte>)
    requires (m.Tversion? || m.Rversion? || m.Rerror? || m.Tcreate?) && Fits(m)
    ensures FieldsAt(m, b) <==> Listed(m, b)
  {
    hide Num, ArgAt, ArgsAt, BytesAt, TextAt, Raw;
    FieldIs(b, 7);
    var x := Texts(m)[0];
    var s := Str(Raw(x));
    match m
    case Tversion(msize, _) =>
      ArgsTwo(b, 7, N32(msize), s);
      TextField(b, 11, x);
    case Rversion(msize, _) =>
      ArgsTwo(b, 7, N32(msize), s);
      TextField(b, 11, x);
    case Rerror(_) =>
      ArgsOne(b, 7, s);
      TextField(b, 7, x);
    case Tcreate(fid, _, perm, mode) =>
      ArgsFour(b, 7, N32(fid), s, N32(perm), N8(mode));
      TextField(b, 11, x);
      FieldIs(b, 13 + |Raw(x)|);
      FieldIs(b, 17 + |Raw(x)|);
  }

  lemma WithTexts(m: Body, b: seq<byte>)
    requires (m.Tauth? || m.Tattach?) && Fits(m)
    ensures FieldsAt(m, b) <==> Listed(m, b)
  {
    hide Num, ArgAt, ArgsAt, BytesAt, TextAt, Raw;
    FieldIs(b, 7);
    FieldIs(b, 11);
    var x, y := Texts(m)[0], Texts(m)[1];
    var s, u := Str(Raw(x)), Str(Raw(y));
    match m
    case Tauth(afid, _, _) =>
      ArgsThree(b, 7, N32(afid), s, u);
      TextField(b, 11, x);
      TextField(b, 13 + |Raw(x)|, y);
    case Tattach(fid, afid, _, _) =>
      ArgsFour(b, 7, N32(fid), N32(afid), s, u);
      TextField(b, 15, x);
      TextField(b, 17 + |Raw(x)|, y);
  }

  lemma AllListed(m: Body, b: seq<byte>)
    requires Fits(m)
    ensures FieldsAt(m, b) <==> Listed(m, b)
  {
    hide FieldsAt, Listed, Fits;
    if m.Twalk? || m.Rwalk? {
      WithLists(m, b);
    } else if m.Tauth? || m.Tattach? {
      WithTexts(m, b);
    } else if m.Tversion? || m.Rversion? || m.Rerror? || m.Tcreate? {
      WithText(m, b);
    } else if m.Rread? || m.Twrite? || m.Rstat? || m.Twstat? {
      WithData(m, b);
    } else if m.Rauth? || m.Rattach? || m.Ropen? || m.Rcreate? {
      WithQid(m, b);
    } else if m.Tflush? || m.Topen? || m.Tread? {
      WithNumbers(m, b);
    } else if m.Rwrite? || m.Tclunk? || m.Tremove? || m.Tstat? {
      WithFid(m, b);
    } else {
      KnownBody(m);
      WithNothing(m, b);
    }
  }

  lemma KnownBody(m: Body)
    requires Fits(m)
    ensures !m.Other?
  {}

  /** The encoder writes exactly the bytes that are laid out like that. */
  lemma WrittenAsLaidOut(f: Fcall, b: seq<byte>)
    requires Fits(f.body) && |b| < 0x1_0000_0000
    ensures LaidOut(f, b) <==> b == Message(f)
  {
    hide Num, BytesAt, FieldsAt, ArgsAt, B8, B16, B32, Fields, TypeOf, WAll, Fits;
    AllListed(f.body, b);
    Num32(b, 0, |b|);
    Num8(b, 4, TypeOf(f.body));
    Num16(b, 5, f.tag);
    var h, l := B32(|b|) + (B8(TypeOf(f.body)) + B16(f.tag)), WAll(Fields(f.body));
    BytesBoth(b, 4, B8(TypeOf(f.body)), B16(f.tag));
    BytesBoth(b, 0, B32(|b|), B8(TypeOf(f.body)) + B16(f.tag));
    if |b| >= HDR {
      ArgsAre(b, HDR, Fields(f.body));
      FrontIs(b, h);
      assert b == b[..HDR] + b[HDR..];
      assert (h + l)[..HDR] == h && (h + l)[HDR..] == l;
      assert |b| == HDR + |l| ==> Message(f) == h + l;
    } else {
      Short(b, h);
    }
  }

  lemma FrontIs(b: seq<byte>, h: seq<byte>)
    requires |b| >= |h|
    ensures BytesAt(b, 0, h) <==> b[..|h|] == h
  {
    assert b[0..|h|] == b[..|h|];
  }

  lemma Short(b: seq<byte>, h: seq<byte>)
    requires |b| < |h|
    ensures !BytesAt(b, 0, h)
  {}

  /** And the decoder makes of such bytes, whatever follows them, the message they say. */
  lemma ReadAsLaidOut(f: Fcall, b: seq<byte>, rest: seq<byte>)
    requires Plain(f.body) && |b| < 0x1_0000_0000 && LaidOut(f, b)
    ensures Decode(b + rest) == Some((|b|, f))
  {
    hide LaidOut, Decode, Message;
    PlainFits(f.body);
    WrittenAsLaidOut(f, b);
    RoundTrip(f, rest);
  }

  lemma PlainFits(m: Body)
    requires Plain(m)
    ensures Fits(m)
  {}
}
