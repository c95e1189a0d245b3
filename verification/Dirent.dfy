/**
 Directory entries (libc/convD2M.c and libc/convM2D.c): the printer, the reader, which
 copies the strings to a buffer of the caller, and the check that comes before it.
 */
module Dirent {
  import opened Bytes
  import opened Wire
  import opened Fcalls
  import opened Convmsg
  import opened Decodemsg

  const STATFIXLEN: nat := 49

  datatype Dir = Dir(ty: u16, dev: u32, qid: Qid, mode: u32, atime: u32, mtime: u32, length: u64,
                     name: Text, uid: Text, gid: Text, muid: Text)

  const FIXED: seq<Kind> := [K16, K32, KQid, K32, K32, K32, K64]

  const STRINGS: seq<Kind> := [KStr, KStr, KStr, KStr]

  function Fixed(d: Dir): (l: seq<Arg>)
    ensures Kinds(l, FIXED) && AllOk(l)
  {
    [N16(d.ty), N32(d.dev), AQid(d.qid), N32(d.mode), N32(d.atime), N32(d.mtime), N64(d.length)]
  }

  function Strings(d: Dir): (l: seq<Arg>)
    ensures Kinds(l, STRINGS)
  {
    [Str(Raw(d.name)), Str(Raw(d.uid)), Str(Raw(d.gid)), Str(Raw(d.muid))]
  }

  function Body(d: Dir): seq<byte> { WAll(Fixed(d)) + WAll(Strings(d)) }

  /** The size in front does not count itself. */
  function DirBytes(d: Dir): seq<byte> { B16(|Body(d)|) + Body(d) }

  /** What is read of an entry: its numbers, and its strings as they are. */
  function ReadDir(b: seq<byte>): Read<seq<Arg>> {
    if STATFIXLEN > |b| then Short else RAll(FIXED + STRINGS, b[2..])
  }

  function DirOf(l: seq<Arg>): Dir
    requires Kinds(l, FIXED + STRINGS)
  {
    assert forall i :: 0 <= i < 11 ==> KindOf(l[i]) == (FIXED + STRINGS)[i];
    Dir(l[0].n16, l[1].n32, l[2].qid, l[3].n32, l[4].n32, l[5].n32, l[6].n64, T(l[7]), T(l[8]), T(l[9]), T(l[10]))
  }

  /** How many bytes an entry takes, and what it is. */
  function Decoded(b: seq<byte>): Option<(nat, Dir)> {
    AllWritten(FIXED + STRINGS, if |b| >= 2 then b[2..] else []);
    match ReadDir(b)
    case Short => None
    case Read(l, n) => Some((2 + n, DirOf(l)))
  }

  /** What statcheck accepts: one entry that is as long as it says. */
  predicate StatOk(b: seq<byte>) {
    |b| >= STATFIXLEN && |b| == 2 + G16(b) && ReadDir(b).Read? && ReadDir(b).n == |b| - 2
  }

  lemma {:induction false} WAllJoin(l: seq<Arg>, m: seq<Arg>)
    ensures WAll(l + m) == WAll(l) + WAll(m)
  {
    if l == [] {
      assert l + m == m;
    } else {
      assert (l + m)[1..] == l[1..] + m;
      WAllJoin(l[1..], m);
    }
  }

  lemma SizeStep(l: seq<Arg>, i: nat)
    requires i < |l|
    ensures |WAll(l[i..])| == |W(l[i])| + |WAll(l[i + 1..])|
  {
    assert l[i..][1..] == l[i + 1..];
  }

  lemma FixedSize(d: Dir)
    ensures |WAll(Fixed(d))| == 39
  {
    hide WAll, B16, B32, B64, WQid;
    var l := Fixed(d);
    SizeStep(l, 6);
    SizeStep(l, 5);
    SizeStep(l, 4);
    SizeStep(l, 3);
    SizeStep(l, 2);
    SizeStep(l, 1);
    SizeStep(l, 0);
    assert l[0..] == l && l[7..] == [];
    WAllNone();
  }

  lemma WAllNone()
    ensures WAll([]) == []
  {}

  lemma StringsSize(d: Dir)
    ensures |WAll(Strings(d))| == 8 + |Raw(d.name)| + |Raw(d.uid)| + |Raw(d.gid)| + |Raw(d.muid)|
  {
    hide WAll, B16;
    var l := Strings(d);
    SizeStep(l, 3);
    SizeStep(l, 2);
    SizeStep(l, 1);
    SizeStep(l, 0);
    assert l[0..] == l && l[4..] == [];
    WAllNone();
  }

  /** sizeD2M */
  function SizeD2M(d: Dir): (n: nat)
    ensures n == |DirBytes(d)|
  {
    FixedSize(d);
    StringsSize(d);
    STATFIXLEN + |Raw(d.name)| + |Raw(d.uid)| + |Raw(d.gid)| + |Raw(d.muid)|
  }

  predicate NoNil(d: Dir) { d.name.Some? && d.uid.Some? && d.gid.Some? && d.muid.Some? }

  lemma StringsOk(d: Dir)
    ensures AllOk(Strings(d)) <==> |Raw(d.name)| < 0x1_0000 && |Raw(d.uid)| < 0x1_0000 && |Raw(d.gid)| < 0x1_0000 &&
                                   |Raw(d.muid)| < 0x1_0000
  {
    UpToFour(Strings(d));
  }

  lemma FieldsAll(d: Dir)
    ensures Kinds(Fixed(d) + Strings(d), FIXED + STRINGS) && WAll(Fixed(d) + Strings(d)) == Body(d)
    ensures AllOk(Fixed(d) + Strings(d)) <==> AllOk(Strings(d))
  {
    WAllJoin(Fixed(d), Strings(d));
    var l, m := Fixed(d), Strings(d);
    assert forall i :: 0 <= i < |m| ==> (l + m)[|l| + i] == m[i];
  }

  lemma DirBack(d: Dir)
    requires Kinds(Fixed(d) + Strings(d), FIXED + STRINGS)
    ensures DirOf(Fixed(d) + Strings(d)) == d <==> NoNil(d)
  {
    TextBack(d.name);
    TextBack(d.uid);
    TextBack(d.gid);
    TextBack(d.muid);
  }

  lemma EntryRead(d: Dir, rest: seq<byte>)
    requires AllOk(Strings(d))
    ensures ReadDir(DirBytes(d) + rest) == Read(Fixed(d) + Strings(d), |Body(d)|)
  {
    hide RAll, WAll, Fixed, Strings, AllOk, Kinds;
    FieldsAll(d);
    AllRead(Fixed(d) + Strings(d), FIXED + STRINGS, rest);
    var b := DirBytes(d) + rest;
    assert b[2..] == Body(d) + rest;
    assert SizeD2M(d) >= STATFIXLEN;
  }

  /** An entry is read back from its bytes exactly when it has no nil strings and none
      longer than its count can say; its own size is not looked at. */
  lemma DirRoundTrip(d: Dir, rest: seq<byte>)
    ensures Decoded(DirBytes(d) + rest) == Some((SizeD2M(d), d)) <==> NoNil(d) && AllOk(Strings(d))
  {
    hide RAll, WAll, Fixed, Strings, AllOk, Kinds, DirOf, ReadDir;
    var b := DirBytes(d) + rest;
    AllWritten(FIXED + STRINGS, if |b| >= 2 then b[2..] else []);
    if AllOk(Strings(d)) {
      EntryRead(d, rest);
      FieldsAll(d);
      DirBack(d);
    }
    if Decoded(b) == Some((SizeD2M(d), d)) {
      ReadIs(b);
      DirFits(ReadDir(b).v);
    }
  }

  lemma ReadIs(b: seq<byte>)
    ensures ReadDir(b).Read? ==> |b| >= STATFIXLEN && ReadDir(b) == RAll(FIXED + STRINGS, b[2..]) && ReadDir(b).n + 2 <= |b|
                                 && Kinds(ReadDir(b).v, FIXED + STRINGS) && AllOk(ReadDir(b).v) &&
                                     WAll(ReadDir(b).v) == b[2..2 + ReadDir(b).n]
  {
    if ReadDir(b).Read? {
      AllWritten(FIXED + STRINGS, b[2..]);
    }
  }

  lemma DirFits(l: seq<Arg>)
    requires Kinds(l, FIXED + STRINGS) && AllOk(l)
    ensures NoNil(DirOf(l)) && AllOk(Strings(DirOf(l)))
  {
    var d := DirOf(l);
    assert forall i :: 0 <= i < 11 ==> KindOf(l[i]) == (FIXED + STRINGS)[i] && ArgOk(l[i]);
    StringsOk(d);
  }

  /** statcheck accepts all that the printer writes, as long as its size fits 16 bits. */
  lemma StatAccepts(d: Dir)
    ensures StatOk(DirBytes(d)) <==> SizeD2M(d) < 0x1_0002
  {
    hide RAll, WAll, Strings, Fixed, AllOk, ReadDir;
    var b := DirBytes(d);
    assert b + [] == b;
    Got16(|Body(d)|, Body(d));
    if SizeD2M(d) < 0x1_0002 {
      StringsOk(d);
      EntryRead(d, []);
    }
  }

  /** What statcheck accepts is read to its end, and prints as it was exactly when none of
      its strings has a NUL in it. */
  lemma StatReads(b: seq<byte>)
    requires StatOk(b)
    ensures Decoded(b).Some? && Decoded(b).value.0 == |b|
    ensures DirBytes(Decoded(b).value.1) == b <==> AllClean(ReadDir(b).v)
  {
    hide RAll, WAll, Fixed, Strings, AllOk, Kinds, DirOf, ReadDir, AllClean, CutArgs;
    AllWritten(FIXED + STRINGS, b[2..]);
    ReadIs(b);
    var l := ReadDir(b).v;
    var d := DirOf(l);
    DirCut(l);
    FieldsAll(d);
    AllCut(l);
    if AllClean(l) {
      Written16(b);
      assert b == b[..2] + b[2..];
    }
  }

  lemma DirCut(l: seq<Arg>)
    requires Kinds(l, FIXED + STRINGS)
    ensures Fixed(DirOf(l)) + Strings(DirOf(l)) == CutArgs(l)
  {
    hide CutArgs, Fixed, Strings, DirOf;
    FixedCut(l);
    StringsCut(l);
    assert CutArgs(l) == CutArgs(l)[..7] + CutArgs(l)[7..];
  }

  lemma FixedCut(l: seq<Arg>)
    requires Kinds(l, FIXED + STRINGS)
    ensures Fixed(DirOf(l)) == CutArgs(l)[..7]
  {
    hide CutArgs, DirOf, Fixed, Kinds;
    FixedOf(l);
    FixedUncut(l);
  }

  lemma FixedUncut(l: seq<Arg>)
    requires Kinds(l, FIXED + STRINGS)
    ensures CutArgs(l)[..7] == l[..7]
  {
    var r := CutArgs(l);
    forall i | 0 <= i < 7 ensures r[i] == l[i] {
      assert KindOf(l[i]) == FIXED[i];
    }
  }

  lemma FixedOf(l: seq<Arg>)
    requires Kinds(l, FIXED + STRINGS)
    ensures Fixed(DirOf(l)) == l[..7]
  {
    hide T;
    assert forall i :: 0 <= i < 7 ==> KindOf(l[i]) == FIXED[i];
  }

  lemma StringsCut(l: seq<Arg>)
    requires Kinds(l, FIXED + STRINGS)
    ensures Strings(DirOf(l)) == CutArgs(l)[7..]
  {
    hide DirOf, CutArg, T, Raw, Kinds;
    StringsOf(l);
    TextCut(l[7]);
    TextCut(l[8]);
    TextCut(l[9]);
    TextCut(l[10]);
    assert CutArgs(l)[7..] == [CutArg(l[7]), CutArg(l[8]), CutArg(l[9]), CutArg(l[10])];
  }

  lemma TextCut(a: Arg)
    requires a.Str?
    ensures Str(Raw(T(a))) == CutArg(a)
  {}

  lemma StringsOf(l: seq<Arg>)
    requires Kinds(l, FIXED + STRINGS)
    ensures var d := DirOf(l);
            && |l| == 11 && l[7].Str? && l[8].Str? && l[9].Str? && l[10].Str?
            && d.name == T(l[7]) && d.uid == T(l[8]) && d.gid == T(l[9]) && d.muid == T(l[10])
  {
    hide T;
    assert forall i :: 7 <= i < 11 ==> KindOf(l[i]) == STRINGS[i - 7];
  }
}
