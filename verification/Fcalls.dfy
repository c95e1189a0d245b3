/**
 9P messages (include/fcall.h, libc/convS2M.c, libc/convM2S.c). The cases that the encoder
 and the decoder share are a table of argument kinds for each message type. Strings are C
 strings: encoding takes them up to their end, and decoding shows them up to a NUL.
 */
module Fcalls {
  import opened Bytes
  import opened Wire

  /** A C string; None is the nil pointer. */
  type CStr = s: seq<byte> | 0 !in s

  type Text = Option<CStr>

  type Data32 = d: seq<byte> | |d| < 0x1_0000_0000

  type Data16 = d: seq<byte> | |d| < 0x1_0000

  datatype Body =
    | Tversion(msize: u32, version: Text) | Rversion(msize: u32, version: Text)
    | Tauth(afid: u32, uname: Text, aname: Text) | Rauth(aqid: Qid)
    | Tattach(fid: u32, afid: u32, uname: Text, aname: Text) | Rattach(qid: Qid)
    | Rerror(ename: Text)
    | Tflush(oldtag: u16) | Rflush
    | Twalk(fid: u32, newfid: u32, wname: seq<Text>) | Rwalk(wqid: seq<Qid>)
    | Topen(fid: u32, mode: u8) | Ropen(qid: Qid, iounit: u32)
    | Tcreate(fid: u32, name: Text, perm: u32, mode: u8) | Rcreate(qid: Qid, iounit: u32)
    | Tread(fid: u32, offset: u64, count: u32) | Rread(data: Data32)
    | Twrite(fid: u32, offset: u64, data: Data32) | Rwrite(count: u32)
    | Tclunk(fid: u32) | Rclunk
    | Tremove(fid: u32) | Rremove
    | Tstat(fid: u32) | Rstat(stat: Data16)
    | Twstat(fid: u32, stat: Data16) | Rwstat
    | Other(ty: Unknown)

  /** A type that is no message; 106 is one of them. */
  type Unknown = t: u8 | Layout(t) == None witness 0

  datatype Fcall = Fcall(tag: u16, body: Body)

  function TypeOf(b: Body): u8 {
    match b
    case Tversion(_, _) => 100 case Rversion(_, _) => 101
    case Tauth(_, _, _) => 102 case Rauth(_) => 103
    case Tattach(_, _, _, _) => 104 case Rattach(_) => 105
    case Rerror(_) => 107
    case Tflush(_) => 108 case Rflush => 109
    case Twalk(_, _, _) => 110 case Rwalk(_) => 111
    case Topen(_, _) => 112 case Ropen(_, _) => 113
    case Tcreate(_, _, _, _) => 114 case Rcreate(_, _) => 115
    case Tread(_, _, _) => 116 case Rread(_) => 117
    case Twrite(_, _, _) => 118 case Rwrite(_) => 119
    case Tclunk(_) => 120 case Rclunk => 121
    case Tremove(_) => 122 case Rremove => 123
    case Tstat(_) => 124 case Rstat(_) => 125
    case Twstat(_, _) => 126 case Rwstat => 127
    case Other(t) => t
  }

  /** The arguments of a message of type t, if there is such a message. */
  function Layout(t: u8): Option<seq<Kind>> {
    if t == 100 || t == 101 then Some([K32, KStr])
    else if t == 102 then Some([K32, KStr, KStr])
    else if t == 103 || t == 105 then Some([KQid])
    else if t == 104 then Some([K32, K32, KStr, KStr])
    else if t == 107 then Some([KStr])
    else if t == 108 then Some([K16])
    else if t == 109 || t == 121 || t == 123 || t == 127 then Some([])
    else if t == 110 then Some([K32, K32, KNames])
    else if t == 111 then Some([KQids])
    else if t == 112 then Some([K32, K8])
    else if t == 113 || t == 115 then Some([KQid, K32])
    else if t == 114 then Some([K32, KStr, K32, K8])
    else if t == 116 then Some([K32, K64, K32])
    else if t == 117 then Some([KData])
    else if t == 118 then Some([K32, K64, KData])
    else if t == 119 || t == 120 || t == 122 || t == 124 then Some([K32])
    else if t == 125 then Some([KStat])
    else if t == 126 then Some([K32, KStat])
    else None
  }

  function Raw(t: Text): seq<byte> { if t.Some? then t.value else [] }

  function Raws(l: seq<Text>): (r: seq<seq<byte>>)
    ensures |r| == |l| && forall i :: 0 <= i < |l| ==> r[i] == Raw(l[i])
  {
    if l == [] then [] else [Raw(l[0])] + Raws(l[1..])
  }

  function Fields(b: Body): seq<Arg> {
    match b
    case Tversion(msize, version) => [N32(msize), Str(Raw(version))]
    case Rversion(msize, version) => [N32(msize), Str(Raw(version))]
    case Tauth(afid, uname, aname) => [N32(afid), Str(Raw(uname)), Str(Raw(aname))]
    case Rauth(aqid) => [AQid(aqid)]
    case Tattach(fid, afid, uname, aname) => [N32(fid), N32(afid), Str(Raw(uname)), Str(Raw(aname))]
    case Rattach(qid) => [AQid(qid)]
    case Rerror(ename) => [Str(Raw(ename))]
    case Tflush(oldtag) => [N16(oldtag)]
    case Twalk(fid, newfid, wname) => [N32(fid), N32(newfid), Names(Raws(wname))]
    case Rwalk(wqid) => [Qids(wqid)]
    case Topen(fid, mode) => [N32(fid), N8(mode)]
    case Ropen(qid, iounit) => [AQid(qid), N32(iounit)]
    case Tcreate(fid, name, perm, mode) => [N32(fid), Str(Raw(name)), N32(perm), N8(mode)]
    case Rcreate(qid, iounit) => [AQid(qid), N32(iounit)]
    case Tread(fid, offset, count) => [N32(fid), N64(offset), N32(count)]
    case Rread(data) => [Data(data)]
    case Twrite(fid, offset, data) => [N32(fid), N64(offset), Data(data)]
    case Rwrite(count) => [N32(count)]
    case Tclunk(fid) => [N32(fid)]
    case Tremove(fid) => [N32(fid)]
    case Tstat(fid) => [N32(fid)]
    case Rstat(stat) => [Stat(stat)]
    case Twstat(fid, stat) => [N32(fid), Stat(stat)]
    case _ => []
  }

  /** What a C string shows of the bytes s. */
  function Cut(s: seq<byte>): (r: CStr)
    ensures |r| <= |s|
  {
    if s == [] || s[0] == 0 then [] else [s[0]] + Cut(s[1..])
  }

  lemma {:induction false} CutIs(s: seq<byte>)
    ensures Cut(s) <= s && (0 !in s ==> Cut(s) == s) && (0 in s ==> |Cut(s)| < |s| && s[|Cut(s)|] == 0)
  {
    if s != [] {
      CutIs(s[1..]);
    }
  }

  function Cuts(l: seq<seq<byte>>): (r: seq<Text>)
    ensures |r| == |l| && forall i :: 0 <= i < |l| ==> r[i] == Some(Cut(l[i]))
  {
    if l == [] then [] else [Some(Cut(l[0]))] + Cuts(l[1..])
  }

  function T(a: Arg): Text { if a.Str? then Some(Cut(a.s)) else None }

  /** The message of type t with arguments l, as a reader of its strings sees it. */
  function Make(t: u8, l: seq<Arg>): Body
    requires Layout(t).Some? && Kinds(l, Layout(t).value) && AllOk(l)
  {
    assert forall i :: 0 <= i < |l| ==> KindOf(l[i]) == Layout(t).value[i] && ArgOk(l[i]);
    if t == 100 then Tversion(l[0].n32, T(l[1]))
    else if t == 101 then Rversion(l[0].n32, T(l[1]))
    else if t == 102 then Tauth(l[0].n32, T(l[1]), T(l[2]))
    else if t == 103 then Rauth(l[0].qid)
    else if t == 104 then Tattach(l[0].n32, l[1].n32, T(l[2]), T(l[3]))
    else if t == 105 then Rattach(l[0].qid)
    else if t == 107 then Rerror(T(l[0]))
    else if t == 108 then Tflush(l[0].n16)
    else if t == 109 then Rflush
    else if t == 110 then Twalk(l[0].n32, l[1].n32, Cuts(l[2].names))
    else if t == 111 then Rwalk(l[0].qids)
    else if t == 112 then Topen(l[0].n32, l[1].n8)
    else if t == 113 then Ropen(l[0].qid, l[1].n32)
    else if t == 114 then Tcreate(l[0].n32, T(l[1]), l[2].n32, l[3].n8)
    else if t == 115 then Rcreate(l[0].qid, l[1].n32)
    else if t == 116 then Tread(l[0].n32, l[1].n64, l[2].n32)
    else if t == 117 then Rread(l[0].data)
    else if t == 118 then Twrite(l[0].n32, l[1].n64, l[2].data)
    else if t == 119 then Rwrite(l[0].n32)
    else if t == 120 then Tclunk(l[0].n32)
    else if t == 121 then Rclunk
    else if t == 122 then Tremove(l[0].n32)
    else if t == 123 then Rremove
    else if t == 124 then Tstat(l[0].n32)
    else if t == 125 then Rstat(l[0].stat)
    else if t == 126 then Twstat(l[0].n32, l[1].stat)
    else Rwstat
  }

  function Texts(b: Body): seq<Text> {
    match b
    case Tversion(_, version) => [version] case Rversion(_, version) => [version]
    case Tauth(_, uname, aname) => [uname, aname] case Tattach(_, _, uname, aname) => [uname, aname]
    case Rerror(ename) => [ename] case Twalk(_, _, wname) => wname case Tcreate(_, name, _, _) => [name]
    case _ => []
  }

  predicate ListsOk(b: Body) { (b.Twalk? ==> |b.wname| <= MAXWELEM) && (b.Rwalk? ==> |b.wqid| <= MAXWELEM) }

  /** No nil strings, no strings longer than a count can say, not too many names or qids. */
  predicate Plain(b: Body) {
    ListsOk(b) && !b.Other? && forall i :: 0 <= i < |Texts(b)| ==> Texts(b)[i].Some? && |Texts(b)[i].value| < 0x1_0000
  }

  lemma FieldKinds(b: Body)
    requires !b.Other?
    ensures Layout(TypeOf(b)).Some? && Kinds(Fields(b), Layout(TypeOf(b)).value)
  {
    hide Layout, Kinds, Fields;
    if TypeOf(b) <= 112 {
      KindsTo112(b);
    } else {
      KindsAbove(b);
    }
  }

  lemma KindsTo112(b: Body)
    requires !b.Other? && TypeOf(b) <= 112
    ensures Layout(TypeOf(b)).Some? && Kinds(Fields(b), Layout(TypeOf(b)).value)
  {}

  lemma KindsAbove(b: Body)
    requires !b.Other? && TypeOf(b) > 112
    ensures Layout(TypeOf(b)).Some? && Kinds(Fields(b), Layout(TypeOf(b)).value)
  {}

  lemma {:induction false} CutsRaws(l: seq<Text>)
    ensures Cuts(Raws(l)) == l <==> forall i :: 0 <= i < |l| ==> l[i].Some?
  {
    var r := Cuts(Raws(l));
    forall i | 0 <= i < |l| ensures r[i].Some? && r[i].value == Raw(l[i]) {
      CutIs(Raw(l[i]));
    }
    if r == l {
    } else {
      var i :| 0 <= i < |l| && r[i] != l[i];
    }
  }

  predicate Named(b: Body) { forall i :: 0 <= i < |Texts(b)| ==> Texts(b)[i].Some? }

  lemma MadeTwo(b: Body)
    requires b.Tauth? || b.Tattach?
    requires AllOk(Fields(b)) && Kinds(Fields(b), Layout(TypeOf(b)).value)
    ensures Make(TypeOf(b), Fields(b)) == b <==> Named(b)
  {
    hide Cut, T, Raw;
    var x := Texts(b);
    TextBack(x[0]);
    TextBack(x[1]);
  }

  lemma MadeOne(b: Body)
    requires b.Tversion? || b.Rversion? || b.Rerror? || b.Tcreate?
    requires AllOk(Fields(b)) && Kinds(Fields(b), Layout(TypeOf(b)).value)
    ensures Make(TypeOf(b), Fields(b)) == b <==> Named(b)
  {
    hide Cut, T, Raw;
    TextBack(Texts(b)[0]);
  }

  lemma MadeWalk(b: Body)
    requires b.Twalk?
    requires AllOk(Fields(b)) && Kinds(Fields(b), Layout(TypeOf(b)).value)
    ensures Make(TypeOf(b), Fields(b)) == b <==> Named(b)
  {
    hide Cuts, Raws;
    CutsRaws(b.wname);
  }

  lemma MadeNone(b: Body)
    requires Texts(b) == [] && !b.Twalk? && !b.Other?
    requires AllOk(Fields(b)) && Kinds(Fields(b), Layout(TypeOf(b)).value)
    ensures Make(TypeOf(b), Fields(b)) == b
  {}

  /** The message is got back from its arguments unless it had nil strings. */
  lemma MadeBack(b: Body)
    requires !b.Other? && AllOk(Fields(b)) && Kinds(Fields(b), Layout(TypeOf(b)).value)
    ensures Make(TypeOf(b), Fields(b)) == b <==> Named(b)
  {
    hide Make, Fields, Layout, Kinds, AllOk, TypeOf;
    NoNames(b);
    if b.Tauth? || b.Tattach? {
      MadeTwo(b);
    } else if b.Tversion? || b.Rversion? || b.Rerror? || b.Tcreate? {
      MadeOne(b);
    } else if b.Twalk? {
      MadeWalk(b);
    } else {
      MadeNone(b);
    }
  }

  lemma TextBack(t: Text)
    ensures T(Str(Raw(t))) == t <==> t.Some?
  {
    CutIs(Raw(t));
  }

  lemma UpToFour(l: seq<Arg>)
    requires |l| <= 4
    ensures AllOk(l) <==> (|l| > 0 ==> ArgOk(l[0])) && (|l| > 1 ==> ArgOk(l[1])) && (|l| > 2 ==> ArgOk(l[2])) &&
                          (|l| > 3 ==> ArgOk(l[3]))
  {}

  predicate Shorts(b: Body) { forall i :: 0 <= i < |Texts(b)| ==> |Raw(Texts(b)[i])| < 0x1_0000 }

  lemma FitText(b: Body)
    requires b.Tauth? || b.Tattach? || b.Tversion? || b.Rversion? || b.Rerror? || b.Tcreate?
    ensures AllOk(Fields(b)) <==> Shorts(b)
  {
    hide AllOk;
    UpToFour(Fields(b));
    var x := Texts(b);
    assert Shorts(b) <==> |Raw(x[0])| < 0x1_0000 && (|x| > 1 ==> |Raw(x[1])| < 0x1_0000);
  }

  lemma FitList(b: Body)
    requires b.Twalk? || b.Rwalk?
    ensures AllOk(Fields(b)) <==> ListsOk(b) && Shorts(b)
  {
    hide AllOk;
    UpToFour(Fields(b));
    if b.Twalk? {
      assert forall i :: 0 <= i < |b.wname| ==> Raws(b.wname)[i] == Raw(Texts(b)[i]);
    }
  }

  lemma FitNone(b: Body)
    requires Texts(b) == [] && !b.Twalk? && !b.Rwalk?
    ensures AllOk(Fields(b))
  {}

  lemma FieldsFit(b: Body)
    requires !b.Other?
    ensures AllOk(Fields(b)) <==> ListsOk(b) && Shorts(b)
  {
    hide AllOk, Shorts, Fields;
    if b.Twalk? || b.Rwalk? {
      FitList(b);
    } else if Texts(b) == [] {
      FitNone(b);
      NoTexts(b);
    } else {
      FitText(b);
    }
  }

  lemma NoNames(b: Body)
    ensures b.Tauth? || b.Tattach? || b.Tversion? || b.Rversion? || b.Rerror? || b.Tcreate? || b.Twalk? || (Texts(b) ==
        [] && Named(b))
  {}

  lemma NoTexts(b: Body)
    requires Texts(b) == []
    ensures Shorts(b) && Named(b)
  {}

  // ---- Messages as bytes ----

  const HDR: nat := 7

  /** The whole message, as long as its size fits 32 bits. */
  function Message(f: Fcall): seq<byte> {
    var l := WAll(Fields(f.body));
    B32(HDR + |l|) + (B8(TypeOf(f.body)) + (B16(f.tag) + l))
  }

  /** A header that is as long as it says, with the arguments of its type. */
  function Parse(b: seq<byte>): Option<seq<Arg>> {
    if HDR > |b| || G32(b) < HDR then None
    else
      match Layout(G8(b[4..]))
      case None => None
      case Some(ks) =>
        match RAll(ks, b[HDR..])
        case Short => None
        case Read(l, n) => if HDR + n == G32(b) then Some(l) else None
  }

  lemma ParseOk(b: seq<byte>)
    ensures Parse(b).Some? ==> |b| >= HDR && Layout(G8(b[4..])).Some? && Kinds(Parse(b).value, Layout(G8(b[4..])).value)
                               && AllOk(Parse(b).value) && HDR <= G32(b) <= |b| && WAll(Parse(b).value) == b[HDR..G32(b)]
  {
    if Parse(b).Some? {
      AllWritten(Layout(G8(b[4..])).value, b[HDR..]);
    }
  }

  /** The size and the message at the front of b. */
  function Decode(b: seq<byte>): Option<(nat, Fcall)> {
    ParseOk(b);
    match Parse(b)
    case None => None
    case Some(l) => Some((G32(b), Fcall(G16(b[5..]), Make(G8(b[4..]), l))))
  }

  lemma Header(f: Fcall, rest: seq<byte>)
    requires |Message(f)| < 0x1_0000_0000
    ensures var b := Message(f) + rest;
            && G32(b) == |Message(f)| && G8(b[4..]) == TypeOf(f.body) && G16(b[5..]) == f.tag
            && b[HDR..] == WAll(Fields(f.body)) + rest && |Message(f)| == HDR + |WAll(Fields(f.body))|
  {
    hide B16, G16, B32, G32, TypeOf, Fields;
    var l := WAll(Fields(f.body));
    var b := Message(f) + rest;
    var tail := B8(TypeOf(f.body)) + (B16(f.tag) + l) + rest;
    assert b == B32(HDR + |l|) + tail;
    Got32(HDR + |l|, tail);
    assert b[4..] == tail;
    assert b[5..] == B16(f.tag) + (l + rest);
    Got16(f.tag, l + rest);
    assert b[7..] == l + rest;
  }

  /** A message comes back from its bytes, whatever follows them, exactly when it has no nil
      strings, no strings longer than 65535 and no more than MAXWELEM names or qids. */
  lemma RoundTrip(f: Fcall, rest: seq<byte>)
    requires !f.body.Other? && |Message(f)| < 0x1_0000_0000
    ensures Decode(Message(f) + rest) == Some((|Message(f)|, f)) <==> Plain(f.body)
  {
    hide Fields, Make, Layout, RAll, WAll, Kinds, TypeOf, AllOk, Texts, G16, G32, G8, Message;
    var b, l := Message(f) + rest, Fields(f.body);
    Header(f, rest);
    FieldKinds(f.body);
    FieldsFit(f.body);
    if AllOk(l) {
      AllRead(l, Layout(TypeOf(f.body)).value, rest);
      MadeBack(f.body);
    }
    if Decode(b) == Some((|Message(f)|, f)) {
      ParseOk(b);
      MadePlain(G8(b[4..]), Parse(b).value);
    }
  }

  /** What is made from what was read is plain. */
  lemma MadePlain(t: u8, l: seq<Arg>)
    requires Layout(t).Some? && Kinds(l, Layout(t).value) && AllOk(l)
    ensures Plain(Make(t, l))
  {
    hide Make, Plain, Layout;
    if t <= 107 {
      PlainTo107(t, l);
    } else if t <= 114 {
      PlainTo114(t, l);
    } else {
      PlainAbove(t, l);
    }
  }

  lemma PlainTo107(t: u8, l: seq<Arg>)
    requires Layout(t).Some? && Kinds(l, Layout(t).value) && AllOk(l) && t <= 107
    ensures Plain(Make(t, l))
  {
    assert forall i :: 0 <= i < |l| ==> KindOf(l[i]) == Layout(t).value[i] && ArgOk(l[i]);
  }

  lemma PlainTo114(t: u8, l: seq<Arg>)
    requires Layout(t).Some? && Kinds(l, Layout(t).value) && AllOk(l) && 107 < t <= 114
    ensures Plain(Make(t, l))
  {
    assert forall i :: 0 <= i < |l| ==> KindOf(l[i]) == Layout(t).value[i] && ArgOk(l[i]);
  }

  lemma PlainAbove(t: u8, l: seq<Arg>)
    requires Layout(t).Some? && Kinds(l, Layout(t).value) && AllOk(l) && 114 < t
    ensures Plain(Make(t, l))
  {
    assert forall i :: 0 <= i < |l| ==> KindOf(l[i]) == Layout(t).value[i] && ArgOk(l[i]);
  }

  // ---- Bytes that were accepted ----

  function CutArg(a: Arg): Arg {
    match a
    case Str(s) => Str(Cut(s))
    case Names(l) => Names(Raws(Cuts(l)))
    case _ => a
  }

  function CutArgs(l: seq<Arg>): (r: seq<Arg>)
    ensures |r| == |l| && forall i :: 0 <= i < |l| ==> r[i] == CutArg(l[i])
  {
    if l == [] then [] else [CutArg(l[0])] + CutArgs(l[1..])
  }

  /** No string has a NUL in it. */
  predicate Clean(a: Arg) {
    match a
    case Str(s) => 0 !in s
    case Names(l) => forall i :: 0 <= i < |l| ==> 0 !in l[i]
    case _ => true
  }

  predicate AllClean(l: seq<Arg>) { forall i :: 0 <= i < |l| ==> Clean(l[i]) }

  lemma {:induction false} NamesCut(l: seq<seq<byte>>)
    ensures |WNames(Raws(Cuts(l)))| <= |WNames(l)|
    ensures |WNames(Raws(Cuts(l)))| == |WNames(l)| ==> Clean(Names(l))
    ensures Clean(Names(l)) ==> Raws(Cuts(l)) == l
  {
    if l != [] {
      var r := Raws(Cuts(l));
      CutIs(l[0]);
      assert r == [Cut(l[0])] + Raws(Cuts(l[1..]));
      assert r[1..] == Raws(Cuts(l[1..]));
      NamesCut(l[1..]);
      assert Clean(Names(l)) <==> 0 !in l[0] && Clean(Names(l[1..])) by {
        assert forall i :: 0 < i < |l| ==> l[i] == l[1..][i - 1];
        assert Clean(Names(l[1..])) && 0 !in l[0] ==> forall i :: 0 <= i < |l| ==> 0 !in l[i];
      }
      assert [l[0]] + l[1..] == l;
    }
  }

  lemma ArgCut(a: Arg)
    ensures |W(CutArg(a))| <= |W(a)| && (|W(CutArg(a))| == |W(a)| ==> Clean(a)) && (Clean(a) ==> CutArg(a) == a)
  {
    if a.Names? {
      NamesCut(a.names);
    } else if a.Str? {
      CutIs(a.s);
    }
  }

  lemma {:induction false} AllCut(l: seq<Arg>)
    ensures |WAll(CutArgs(l))| <= |WAll(l)| && (|WAll(CutArgs(l))| == |WAll(l)| ==> AllClean(l)) &&
        (AllClean(l) ==> CutArgs(l) == l)
  {
    hide Clean, CutArg, W;
    if l != [] {
      ArgCut(l[0]);
      assert CutArgs(l)[1..] == CutArgs(l[1..]);
      AllCut(l[1..]);
      assert forall i :: 0 < i < |l| ==> l[i] == l[1..][i - 1];
      assert AllClean(l) ==> AllClean(l[1..]);
    }
  }

  lemma FieldsMade(t: u8, l: seq<Arg>)
    requires Layout(t).Some? && Kinds(l, Layout(t).value) && AllOk(l)
    ensures Fields(Make(t, l)) == CutArgs(l) && TypeOf(Make(t, l)) == t
  {
    hide Make, Fields, Layout, CutArgs, TypeOf;
    if t <= 104 {
      FieldsTo104(t, l);
    } else if t <= 109 {
      FieldsTo109(t, l);
    } else if t <= 113 {
      FieldsTo113(t, l);
    } else if t <= 117 {
      FieldsTo117(t, l);
    } else {
      FieldsAbove(t, l);
    }
  }

  lemma FieldsTo104(t: u8, l: seq<Arg>)
    requires Layout(t).Some? && Kinds(l, Layout(t).value) && AllOk(l) && t <= 104
    ensures Fields(Make(t, l)) == CutArgs(l) && TypeOf(Make(t, l)) == t
  {
    hide Cut, Cuts, Raws;
    assert forall i :: 0 <= i < |l| ==> KindOf(l[i]) == Layout(t).value[i] && ArgOk(l[i]);
    var r := CutArgs(l);
    assert forall i :: 0 <= i < |l| ==> r[i] == CutArg(l[i]);
  }

  lemma FieldsTo109(t: u8, l: seq<Arg>)
    requires Layout(t).Some? && Kinds(l, Layout(t).value) && AllOk(l) && 104 < t <= 109
    ensures Fields(Make(t, l)) == CutArgs(l) && TypeOf(Make(t, l)) == t
  {
    hide Cut, Cuts, Raws;
    assert forall i :: 0 <= i < |l| ==> KindOf(l[i]) == Layout(t).value[i] && ArgOk(l[i]);
    var r := CutArgs(l);
    assert forall i :: 0 <= i < |l| ==> r[i] == CutArg(l[i]);
  }

  lemma FieldsTo113(t: u8, l: seq<Arg>)
    requires Layout(t).Some? && Kinds(l, Layout(t).value) && AllOk(l) && 109 < t <= 113
    ensures Fields(Make(t, l)) == CutArgs(l) && TypeOf(Make(t, l)) == t
  {
    hide Cut, Cuts, Raws;
    assert forall i :: 0 <= i < |l| ==> KindOf(l[i]) == Layout(t).value[i] && ArgOk(l[i]);
    var r := CutArgs(l);
    assert forall i :: 0 <= i < |l| ==> r[i] == CutArg(l[i]);
  }

  lemma FieldsTo117(t: u8, l: seq<Arg>)
    requires Layout(t).Some? && Kinds(l, Layout(t).value) && AllOk(l) && 113 < t <= 117
    ensures Fields(Make(t, l)) == CutArgs(l) && TypeOf(Make(t, l)) == t
  {
    hide Cut, Cuts, Raws;
    assert forall i :: 0 <= i < |l| ==> KindOf(l[i]) == Layout(t).value[i] && ArgOk(l[i]);
    var r := CutArgs(l);
    assert forall i :: 0 <= i < |l| ==> r[i] == CutArg(l[i]);
  }

  lemma FieldsAbove(t: u8, l: seq<Arg>)
    requires Layout(t).Some? && Kinds(l, Layout(t).value) && AllOk(l) && 117 < t
    ensures Fields(Make(t, l)) == CutArgs(l) && TypeOf(Make(t, l)) == t
  {
    hide Cut, Cuts, Raws;
    assert forall i :: 0 <= i < |l| ==> KindOf(l[i]) == Layout(t).value[i] && ArgOk(l[i]);
    var r := CutArgs(l);
    assert forall i :: 0 <= i < |l| ==> r[i] == CutArg(l[i]);
  }

  /** A decoded message encodes to the very bytes it came from exactly when none of the
      strings there has a NUL in it. */
  lemma Reencoded(b: seq<byte>)
    requires Decode(b).Some?
    ensures var (n, f) := Decode(b).value;
            n <= |b| && Plain(f.body) && (Message(f) == b[..n] <==> AllClean(Parse(b).value))
  {
    hide Fields, Make, Layout, RAll, WAll, Kinds, TypeOf, AllOk, Plain, Parse, AllClean, CutArgs, B16, B32, G16, G32;
    ParseOk(b);
    var l := Parse(b).value;
    var (n, f) := Decode(b).value;
    MadePlain(G8(b[4..]), l);
    FieldsMade(G8(b[4..]), l);
    AllCut(l);
    if AllClean(l) {
      Written32(b);
      Written16(b[5..]);
      assert b[..n] == b[..4] + (b[4..5] + (b[5..][..2] + b[HDR..n]));
    }
  }
}
