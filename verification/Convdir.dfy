/**
 The printer, the reader and the check for directory entries, on buffers
 (libc/convD2M.c and libc/convM2D.c).
 */
module Convdir {
  import opened Bytes
  import opened Wire
  import opened Fcalls
  import opened Convmsg
  import opened Decodemsg
  import opened Dirent

  method Pargs(buf: array<byte>, p: nat, l: seq<Arg>) returns (q: nat)
    requires p + |WAll(l)| <= buf.Length
    modifies buf
    ensures q == p + |WAll(l)| && Wrote(old(buf[..]), buf[..], p, WAll(l))
  {
    hide W, Wrote;
    q := p;
    var i := 0;
    ghost var w: seq<byte> := [];
    WroteNothing(buf[..], p);
    assert l[0..] == l;
    while i < |l|
      invariant i <= |l| && q == p + |w| && w + WAll(l[i..]) == WAll(l) && Wrote(old(buf[..]), buf[..], p, w)
    {
      assert l[i..][1..] == l[i + 1..] && WAll(l[i..]) == W(l[i]) + WAll(l[i + 1..]);
      ghost var b1 := buf[..];
      q := Parg(buf, q, l[i]);
      WroteThen(old(buf[..]), b1, buf[..], p, w, W(l[i]));
      w := w + W(l[i]);
      i := i + 1;
    }
    assert l[i..] == [] && w + [] == w;
  }

  /** convD2M: the size comes first, so that it is there when there is no room for more. */
  method ConvD2M(d: Dir, buf: array<byte>, nbuf: u32) returns (n: nat)
    requires nbuf <= buf.Length
    modifies buf
    ensures nbuf < 2 ==> n == 0 && buf[..] == old(buf[..])
    ensures 2 <= nbuf < SizeD2M(d) ==> n == 2 && Wrote(old(buf[..]), buf[..], 0, B16(SizeD2M(d) - 2))
    ensures nbuf >= SizeD2M(d) ==> n == SizeD2M(d) && Wrote(old(buf[..]), buf[..], 0, DirBytes(d))
  {
    hide Wrote, Fixed, Strings, WAll, B16;
    if nbuf < 2 {
      return 0;
    }
    var ss := SizeD2M(d);
    ghost var b0 := buf[..];
    var p := Put16(buf, 0, ss - 2);
    if ss > nbuf {
      return 2;
    }
    ghost var b1 := buf[..];
    p := Pargs(buf, p, Fixed(d));
    WroteThen(b0, b1, buf[..], 0, B16(ss - 2), WAll(Fixed(d)));
    b1 := buf[..];
    p := Pargs(buf, p, Strings(d));
    WroteThen(b0, b1, buf[..], 0, B16(ss - 2) + WAll(Fixed(d)), WAll(Strings(d)));
    assert B16(ss - 2) + WAll(Fixed(d)) + WAll(Strings(d)) == DirBytes(d);
    n := p;
  }

  /** The numbers of an entry. */
  function Numbers(b: seq<byte>): (l: seq<Arg>)
    requires |b| >= STATFIXLEN
    ensures |l| == 7
  {
    [N16(G16(b[2..])), N32(G32(b[4..])), AQid(Qid(G8(b[8..]), G32(b[9..]), G64(b[13..]))), N32(G32(b[21..])), N32(G32(b[25..])),
     N32(G32(b[29..])), N64(G64(b[33..]))]
  }

  lemma {:induction false} RAllJoin(ks: seq<Kind>, js: seq<Kind>, b: seq<byte>)
    ensures var r := RAll(ks, b);
            && (r.Short? ==> RAll(ks + js, b) == Short)
            && (r.Read? ==> r.n <= |b| && RAll(ks + js, b) == Pre(r.v, r.n, RAll(js, b[r.n..])))
  {
    hide R;
    if ks == [] {
      assert ks + js == js && b[0..] == b;
      PreNone(RAll(js, b));
    } else {
      assert (ks + js)[1..] == ks[1..] + js;
      ArgWritten(ks[0], b);
      var a := R(ks[0], b);
      if a.Read? {
        RAllJoin(ks[1..], js, b[a.n..]);
        var r := RAll(ks[1..], b[a.n..]);
        if r.Read? {
          assert b[a.n..][r.n..] == b[a.n + r.n..];
          var t := RAll(js, b[a.n + r.n..]);
          assert t.Read? ==> [a.v] + (r.v + t.v) == [a.v] + r.v + t.v;
        }
      }
    }
  }

  lemma NumbersStep(ks: seq<Kind>, i: nat, b: seq<byte>, p: nat, a: Arg, n: nat)
    requires i < |ks| && p + n <= |b| && R(ks[i], b[p..]) == Read(a, n)
    ensures RAll(ks[i..], b[p..]) == Pre([a], n, RAll(ks[i + 1..], b[p + n..]))
  {
    assert ks[i..][1..] == ks[i + 1..] && b[p..][n..] == b[p + n..];
    assert ks[i..][0] == ks[i];
  }

  /** The fixed part of an entry is there if the entry is long enough. */
  lemma NumbersRead(b: seq<byte>)
    requires |b| >= STATFIXLEN
    ensures RAll(FIXED, b[2..]) == Read(Numbers(b), 39)
  {
    hide RAll, G8, G16, G32, G64;
    var l := Numbers(b);
    assert b[8..][1..] == b[9..] && b[8..][5..] == b[13..];
    NumbersStep(FIXED, 6, b, 33, l[6], 8);
    NumbersStep(FIXED, 5, b, 29, l[5], 4);
    NumbersStep(FIXED, 4, b, 25, l[4], 4);
    NumbersStep(FIXED, 3, b, 21, l[3], 4);
    NumbersStep(FIXED, 2, b, 8, l[2], 13);
    NumbersStep(FIXED, 1, b, 4, l[1], 4);
    NumbersStep(FIXED, 0, b, 2, l[0], 2);
    assert FIXED[0..] == FIXED && FIXED[7..] == [];
    AllNone(b[41..]);
    assert [l[0]] + ([l[1]] + ([l[2]] + ([l[3]] + ([l[4]] + ([l[5]] + ([l[6]] + [])))))) == l;
  }

  /** An entry is its numbers and its strings. */
  lemma ReadParts(b: seq<byte>)
    requires |b| >= STATFIXLEN
    ensures ReadDir(b) == Pre(Numbers(b), 39, RAll(STRINGS, b[41..]))
  {
    hide RAll, Numbers;
    NumbersRead(b);
    RAllJoin(FIXED, STRINGS, b[2..]);
    assert b[2..][39..] == b[41..];
  }

  lemma StringStep(i: nat, b: seq<byte>, done: seq<Arg>, n: nat)
    requires i < 4
    ensures var s := RString(b);
            && (s.Short? ==> RAll(STRINGS[i..], b) == Short)
            && (s.Read? ==> s.n <= |b| && Pre(done, n, RAll(STRINGS[i..], b)) ==
                            Pre(done + [Str(s.v)], n + s.n, RAll(STRINGS[i + 1..], b[s.n..])))
  {
    hide RAll, RString, R, WString;
    var ks := STRINGS[i..];
    ArgsNext(ks, b, done, n);
    assert ks[1..] == STRINGS[i + 1..] && ks[0] == KStr;
    StringIs(b);
    StringWritten(b);
  }

  lemma StringIs(b: seq<byte>)
    ensures R(KStr, b) == match RString(b) case Short => Short case Read(s, n) => Read(Str(s), n)
  {}

  /** statcheck */
  method Statcheck(buf: array<byte>, nbuf: u32) returns (ok: bool)
    requires nbuf <= buf.Length
    ensures ok == StatOk(buf[..nbuf])
  {
    hide RAll, Numbers, ReadDir, G16;
    var b := buf[..nbuf];
    if nbuf < STATFIXLEN || nbuf != 2 + G16(b) {
      return false;
    }
    ReadParts(b);
    var p: nat := STATFIXLEN - 4 * 2;
    ghost var done: seq<Arg> := [];
    var i := 0;
    assert STRINGS[0..] == STRINGS;
    PreNone(RAll(STRINGS, b[41..]));
    while i < 4
      invariant i <= 4 && 41 <= p && (p > nbuf ==> RAll(STRINGS, b[41..]) == Short)
      invariant p <= nbuf ==> RAll(STRINGS, b[41..]) == Pre(done, p - 41, RAll(STRINGS[i..], b[p..]))
    {
      if p <= nbuf {
        StringStep(i, b[p..], done, p - 41);
      }
      if p + 2 > nbuf {
        return false;
      }
      var n := 2 + G16(b[p..]);
      if p + n <= nbuf {
        done := done + [Str(RString(b[p..]).v)];
        assert b[p..][n..] == b[p + n..];
      }
      p := p + n;
      i := i + 1;
    }
    if p <= nbuf {
      AllNone(b[p..]);
      assert STRINGS[4..] == [];
      PreDone(done, p - 41, RAll([], b[p..]));
    }
    ok := p == nbuf;
  }

  /** An entry as it is filled in: the strings are in the other buffer. */
  datatype Filleddir = Filleddir(numbers: seq<Arg>, sv: seq<nat>)

  predicate Strs(b: seq<byte>, sv: seq<nat>, done: seq<Arg>, hi: nat) {
    |sv| == |done| && forall i :: 0 <= i < |sv| ==> done[i].Str? && StrWithin(b, sv[i], 0, hi) && CStrAt(b, sv[i]) == Cut(done[i].s)
  }

  lemma StrsKept(b: seq<byte>, c: seq<byte>, sv: seq<nat>, done: seq<Arg>, hi: nat, s: seq<byte>)
    requires Strs(b, sv, done, hi) && Wrote(b, c, hi, Nul(s))
    ensures Strs(c, sv + [hi], done + [Str(s)], hi + |s| + 1)
  {
    hide CStrAt, Cut, StrWithin, Wrote, Nul;
    WroteParts(b, c, hi, Nul(s));
    CutNul(s);
    FirstCut(c, hi, hi + |s| + 1, Nul(s));
    EndsWithin(c, hi, 0, hi + |s| + 1, Nul(s));
    forall i | 0 <= i < |sv| ensures StrWithin(c, sv[i], 0, hi + |s| + 1) && CStrAt(c, sv[i]) == Cut(done[i].s) {
      assert b[0..hi] == b[..hi] && c[0..hi] == c[..hi];
      StrStays(b, c, sv[i], 0, hi);
      Wider(c, sv[i], 0, hi, hi + |s| + 1);
    }
  }

  /** memmove(strs, p, ns) and a NUL behind it. */
  method Keep(strs: array<byte>, p: nat, s: seq<byte>)
    requires p + |s| + 1 <= strs.Length
    modifies strs
    ensures Wrote(old(strs[..]), strs[..], p, Nul(s))
  {
    ghost var b0 := strs[..];
    forall i | 0 <= i < |s| {
      strs[p + i] := s[i];
    }
    strs[p + |s|] := 0;
    assert strs[..] == b0[..p] + Nul(s) + b0[p + |s| + 1..];
  }

  /** The strings of an entry, copied to strs if there is such a buffer. */
  method Gstrings(b: seq<byte>, p0: nat, strs: array?<byte>) returns (ok: bool, p: nat, sv: seq<nat>)
    requires p0 <= |b| && (strs != null ==> strs.Length >= |b| - p0)
    modifies strs
    ensures var r := RAll(STRINGS, b[p0..]);
            && ok == r.Read? && (ok ==> p == p0 + r.n <= |b| && (if strs == null then sv ==
                [] else Strs(strs[..], sv, r.v, strs.Length)))
  {
    hide RAll, RString, Strs, Wrote, Nul;
    p, sv := p0, [];
    ghost var done: seq<Arg> := [];
    var sp: nat, i: nat := 0, 0;
    assert STRINGS[0..] == STRINGS;
    PreNone(RAll(STRINGS, b[p0..]));
    if strs != null {
      NoStrs(strs[..]);
    }
    while i < 4
      invariant i <= 4 && p0 <= p <= |b| && sp <= p - p0
      invariant RAll(STRINGS, b[p0..]) == Pre(done, p - p0, RAll(STRINGS[i..], b[p..]))
      invariant if strs == null then sv == [] else Strs(strs[..], sv, done, sp)
    {
      StringStep(i, b[p..], done, p - p0);
      StringTaken(b[p..]);
      var r := RString(b[p..]);
      if r.Short? {
        ok := false;
        return;
      }
      if strs != null {
        ghost var c := strs[..];
        Keep(strs, sp, r.v);
        StrsKept(c, strs[..], sv, done, sp, r.v);
        sv := sv + [sp];
        sp := sp + |r.v| + 1;
      }
      done := done + [Str(r.v)];
      assert b[p..][r.n..] == b[p + r.n..];
      p := p + r.n;
      i := i + 1;
    }
    assert STRINGS[4..] == [];
    AllNone(b[p..]);
    PreDone(done, p - p0, RAll([], b[p..]));
    if strs != null {
      StrsWider(strs[..], sv, done, sp);
    }
    ok := true;
  }

  lemma NoStrs(b: seq<byte>)
    ensures Strs(b, [], [], 0)
  {}

  lemma StrsWider(b: seq<byte>, sv: seq<nat>, done: seq<Arg>, hi: nat)
    requires Strs(b, sv, done, hi) && hi <= |b|
    ensures Strs(b, sv, done, |b|)
  {
    hide CStrAt, Cut, StrWithin;
    forall i | 0 <= i < |sv| ensures StrWithin(b, sv[i], 0, |b|) {
      Wider(b, sv[i], 0, hi, |b|);
    }
  }

  /** convM2D: the numbers of the entry, and its strings if there is a buffer for them. */
  method ConvM2D(buf: array<byte>, nbuf: u32, strs: array?<byte>) returns (n: nat, f: Filleddir)
    requires nbuf <= buf.Length && strs != buf && (strs != null ==> strs.Length >= nbuf)
    modifies strs
    ensures var b := old(buf[..nbuf]);
            var r := ReadDir(b);
            && n == (if r.Read? then 2 + r.n else 0)
            && (r.Read? ==> |b| >= STATFIXLEN && |r.v| == 11 && r.v == f.numbers + r.v[7..]
                            && (if strs == null then f.sv == [] else Strs(strs[..], f.sv, r.v[7..], strs.Length)))
  {
    hide RAll, Numbers, Strs, Kinds;
    var b := buf[..nbuf];
    n, f := 0, Filleddir([], []);
    if nbuf < STATFIXLEN {
      return;
    }
    ReadParts(b);
    var ok, p, sv := Gstrings(b, STATFIXLEN - 4 * 2, strs);
    AllWritten(STRINGS, b[41..]);
    if !ok {
      return;
    }
    n, f := p, Filleddir(Numbers(b), sv);
    ghost var l := RAll(STRINGS, b[41..]).v;
    SevenFour(Numbers(b), l);
  }

  lemma SevenFour(l: seq<Arg>, m: seq<Arg>)
    requires |l| == 7 && Kinds(m, STRINGS)
    ensures (l + m)[7..] == m && |l + m| == 11
  {}
}
