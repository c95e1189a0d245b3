/** Where every field of a directory entry is, as stat(5) draws it. */
module DirentBytes {
  import opened Bytes
  import opened Wire
  import opened Fcalls
  import opened FcallBytes
  import opened Dirent

  predicate DirLaidOut(d: Dir, b: seq<byte>) {
    var n, u, g, m := |Raw(d.name)|, |Raw(d.uid)|, |Raw(d.gid)|, |Raw(d.muid)|;
    && |b| >= 2 && Num(b, 0, 2, |b| - 2) && Num(b, 2, 2, d.ty) && Num(b, 4, 4, d.dev) && QidAt(b, 8, d.qid)
    && Num(b, 21, 4, d.mode) && Num(b, 25, 4, d.atime) && Num(b, 29, 4, d.mtime) && Num(b, 33, 8, d.length)
    && TextAt(b, 41, d.name) && TextAt(b, 43 + n, d.uid) && TextAt(b, 45 + n + u, d.gid) && TextAt(b, 47 + n + u + g, d.muid)
    && |b| == 49 + n + u + g + m
  }

  predicate NumbersAt(d: Dir, b: seq<byte>) {
    && Num(b, 2, 2, d.ty) && Num(b, 4, 4, d.dev) && QidAt(b, 8, d.qid)
    && Num(b, 21, 4, d.mode) && Num(b, 25, 4, d.atime) && Num(b, 29, 4, d.mtime) && Num(b, 33, 8, d.length)
  }

  predicate StringsAt(d: Dir, b: seq<byte>) {
    var n, u, g, m := |Raw(d.name)|, |Raw(d.uid)|, |Raw(d.gid)|, |Raw(d.muid)|;
    && TextAt(b, 41, d.name) && TextAt(b, 43 + n, d.uid) && TextAt(b, 45 + n + u, d.gid) && TextAt(b, 47 + n + u + g, d.muid)
    && |b| == 49 + n + u + g + m
  }

  lemma StringsListed(d: Dir, b: seq<byte>)
    requires AllOk(Strings(d))
    ensures StringsAt(d, b) <==> ArgsAt(b, 41, Strings(d))
  {
    hide TextAt, ArgAt, ArgsAt, Raw, AllOk;
    StringsOk(d);
    var n, u, g := |Raw(d.name)|, |Raw(d.uid)|, |Raw(d.gid)|;
    TextField(b, 41, d.name);
    TextField(b, 43 + n, d.uid);
    TextField(b, 45 + n + u, d.gid);
    TextField(b, 47 + n + u + g, d.muid);
    ArgsFour(b, 41, Str(Raw(d.name)), Str(Raw(d.uid)), Str(Raw(d.gid)), Str(Raw(d.muid)));
  }

  lemma NumbersListed(d: Dir, b: seq<byte>, l: seq<Arg>)
    ensures ArgsAt(b, 2, Fixed(d) + l) <==> NumbersAt(d, b) && ArgsAt(b, 41, l)
  {
    hide ArgAt, ArgsAt, Num, QidAt;
    var k := [N32(d.atime), N32(d.mtime), N64(d.length)] + l;
    NumbersBehind(d, b, l);
    FieldIs(b, 2);
    FieldIs(b, 4);
    FieldIs(b, 8);
    FieldIs(b, 21);
    ArgsFirst(b, 21, N32(d.mode), k);
    ArgsFirst(b, 8, AQid(d.qid), [N32(d.mode)] + k);
    ArgsFirst(b, 4, N32(d.dev), [AQid(d.qid)] + ([N32(d.mode)] + k));
    ArgsFirst(b, 2, N16(d.ty), [N32(d.dev)] + ([AQid(d.qid)] + ([N32(d.mode)] + k)));
    assert Fixed(d) + l == [N16(d.ty)] + ([N32(d.dev)] + ([AQid(d.qid)] + ([N32(d.mode)] + k)));
  }

  lemma NumbersBehind(d: Dir, b: seq<byte>, l: seq<Arg>)
    ensures ArgsAt(b, 25, [N32(d.atime), N32(d.mtime), N64(d.length)] + l) <==>
              Num(b, 25, 4, d.atime) && Num(b, 29, 4, d.mtime) && Num(b, 33, 8, d.length) && ArgsAt(b, 41, l)
  {
    hide ArgAt, ArgsAt, Num;
    FieldIs(b, 25);
    FieldIs(b, 29);
    FieldIs(b, 33);
    ArgsFirst(b, 33, N64(d.length), l);
    ArgsFirst(b, 29, N32(d.mtime), [N64(d.length)] + l);
    ArgsFirst(b, 25, N32(d.atime), [N32(d.mtime)] + ([N64(d.length)] + l));
    assert [N32(d.atime), N32(d.mtime), N64(d.length)] + l == [N32(d.atime)] + ([N32(d.mtime)] + ([N64(d.length)] + l));
  }

  /** The printer writes exactly these bytes, if the entry is not too long for its size. */
  lemma DirWrittenAsLaidOut(d: Dir, b: seq<byte>)
    requires AllOk(Strings(d)) && |b| < 0x1_0002
    ensures DirLaidOut(d, b) <==> b == DirBytes(d)
  {
    hide Num, TextAt, QidAt, ArgsAt, Fixed, Strings, AllOk, B16, WAll, Raw;
    StringsListed(d, b);
    NumbersListed(d, b, Strings(d));
    FieldsAll(d);
    var l := Fixed(d) + Strings(d);
    if |b| >= 2 {
      Num16(b, 0, |b| - 2);
      ArgsAre(b, 2, l);
      FrontIs(b, B16(|b| - 2));
      assert b == b[..2] + b[2..];
      assert DirBytes(d)[..2] == B16(|Dirent.Body(d)|) && DirBytes(d)[2..] == Dirent.Body(d);
    }
  }

  /** And the reader makes of them the entry they say, whatever follows. */
  lemma DirReadAsLaidOut(d: Dir, b: seq<byte>, rest: seq<byte>)
    requires NoNil(d) && AllOk(Strings(d)) && |b| < 0x1_0002 && DirLaidOut(d, b)
    ensures Decoded(b + rest) == Some((|b|, d))
  {
    hide DirLaidOut, Decoded, Strings, AllOk;
    DirWrittenAsLaidOut(d, b);
    DirRoundTrip(d, rest);
  }
}
