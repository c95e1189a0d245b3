/**
 cleanname (libc/cleanname.c): the specification as a stack of path elements, the laws
 of its results, and the in-place algorithm.
 */
module CleanSpec {
  /** The position of the first '/', or the length. */
  function Word(s: string): (k: nat)
    ensures k <= |s| && (k < |s| ==> s[k] == '/') && '/' !in s[..k]
  {
    if s == [] || s[0] == '/' then 0
    else
      var k := 1 + Word(s[1..]);
      assert s[..k] == [s[0]] + s[1..][..k - 1];
      k
  }

  /** The elements of a path, without the empty ones. */
  function Elems(s: string): seq<string>
    decreases |s|
  {
    if s == [] then []
    else if s[0] == '/' then Elems(s[1..])
    else [s[..Word(s)]] + Elems(s[Word(s)..])
  }

  /** ups is the number of leading ".." that could not be resolved; kept are the elements
      after them. erased: the beginning of the name has been dropped. */
  datatype Stack = Stack(ups: nat, kept: seq<string>, erased: bool)

  function Take(t: Stack, rooted: bool, e: string): Stack {
    if e == "." then t
    else if e == ".." then
      if t.kept != [] then
        Stack(t.ups, t.kept[..|t.kept| - 1], t.erased || (!rooted && t.ups == 0 && |t.kept| == 1))
      else if !rooted then t.(ups := t.ups + 1)
      else t
    else t.(kept := t.kept + [e])
  }

  function Run(t: Stack, rooted: bool, es: seq<string>): Stack
    decreases |es|
  {
    if es == [] then t else Run(Take(t, rooted, es[0]), rooted, es[1..])
  }

  function Dots(n: nat): seq<string> { if n == 0 then [] else Dots(n - 1) + [".."] }

  function Join(es: seq<string>): string {
    if es == [] then "" else if |es| == 1 then es[0] else Join(es[..|es| - 1]) + "/" + es[|es| - 1]
  }

  predicate Rooted(s: string) { s != [] && s[0] == '/' }

  function Text(t: Stack, rooted: bool): string {
    (if rooted then "/" else "") + Join(Dots(t.ups) + t.kept)
  }

  function Start(s: string): Stack {
    Stack(0, [], !Rooted(s) && Elems(s) != [] && Elems(s)[0] == ".")
  }

  function Whole(s: string): Stack { Run(Start(s), Rooted(s), Elems(s)) }

  /** An empty result is ".", and what becomes a device name only by erasure is marked. */
  function Finish(text: string, erased: bool): string {
    if text == "" then "."
    else if erased && text[0] == '#' then "./" + text
    else text
  }

  function Clean(s: string): string { Finish(Text(Whole(s), Rooted(s)), Whole(s).erased) }

  // ---- Laws ----

  predicate Plain(e: string) { e != "" && '/' !in e }

  predicate Proper(e: string) { Plain(e) && e != "." && e != ".." }

  predicate AllPlain(es: seq<string>) { forall i :: 0 <= i < |es| ==> Plain(es[i]) }

  predicate AllProper(es: seq<string>) { forall i :: 0 <= i < |es| ==> Proper(es[i]) }

  lemma {:induction false} ElemsPlain(s: string)
    ensures AllPlain(Elems(s))
    decreases |s|
  {
    if s != [] {
      if s[0] == '/' {
        ElemsPlain(s[1..]);
      } else {
        ElemsPlain(s[Word(s)..]);
      }
    }
  }

  lemma {:induction false} WordOf(e: string, t: string)
    requires '/' !in e && (t == "" || t[0] == '/')
    ensures Word(e + t) == |e|
  {
    if e == "" {
      assert e + t == t;
    } else {
      WordOf(e[1..], t);
      assert (e + t)[1..] == e[1..] + t && (e + t)[0] == e[0];
    }
  }

  lemma ElemsFirst(e: string, t: string)
    requires Plain(e) && (t == "" || t[0] == '/')
    ensures Elems(e + t) == [e] + Elems(t)
  {
    WordOf(e, t);
    assert (e + t)[0] == e[0];
    assert (e + t)[..|e|] == e && (e + t)[|e|..] == t;
  }

  /** Elements of a path put after another. */
  lemma {:induction false} ElemsAfter(s: string, t: string)
    requires t == "" || t[0] == '/'
    ensures Elems(s + t) == Elems(s) + Elems(t)
    decreases |s|
  {
    if s == [] {
      assert s + t == t;
    } else if s[0] == '/' {
      ElemsAfter(s[1..], t);
      assert (s + t)[1..] == s[1..] + t;
    } else {
      var k := Word(s);
      ElemsAfter(s[k..], t);
      ElemsAfterWord(s[..k], s[k..], t);
      assert s == s[..k] + s[k..];
    }
  }

  lemma ElemsAfterWord(e: string, r: string, t: string)
    requires Plain(e) && (r == "" || r[0] == '/') && (t == "" || t[0] == '/')
    requires Elems(r + t) == Elems(r) + Elems(t)
    ensures Elems(e + r + t) == Elems(e + r) + Elems(t)
  {
    hide Elems;
    assert e + r + t == e + (r + t);
    ElemsFirst(e, r + t);
    ElemsFirst(e, r);
  }

  lemma {:induction false} ElemsJoin(es: seq<string>)
    requires AllPlain(es)
    ensures Elems(Join(es)) == es
  {
    if |es| == 1 {
      ElemsFirst(es[0], "");
      assert es[0] + "" == es[0] && es == [es[0]];
    } else if |es| > 1 {
      var n := |es| - 1;
      ElemsJoin(es[..n]);
      ElemsAfter(Join(es[..n]), "/" + es[n]);
      assert ("/" + es[n])[1..] == es[n];
      ElemsFirst(es[n], "");
      assert es[n] + "" == es[n];
      assert Join(es) == Join(es[..n]) + ("/" + es[n]);
      assert es == es[..n] + [es[n]];
    }
  }

  lemma {:induction false} RunAfter(t: Stack, rooted: bool, es: seq<string>, fs: seq<string>)
    ensures Run(t, rooted, es + fs) == Run(Run(t, rooted, es), rooted, fs)
    decreases |es|
  {
    if es == [] {
      assert es + fs == fs;
    } else {
      assert (es + fs)[1..] == es[1..] + fs;
      RunAfter(Take(t, rooted, es[0]), rooted, es[1..], fs);
    }
  }

  lemma {:induction false} RunProper(t: Stack, rooted: bool, es: seq<string>)
    requires AllProper(es)
    ensures Run(t, rooted, es) == t.(kept := t.kept + es)
    decreases |es|
  {
    if es == [] {
      assert t.kept + es == t.kept;
    } else {
      RunProper(Take(t, rooted, es[0]), rooted, es[1..]);
      assert t.kept + [es[0]] + es[1..] == t.kept + es;
    }
  }

  lemma {:induction false} RunDots(n: nat, erased: bool)
    ensures Run(Stack(0, [], erased), false, Dots(n)) == Stack(n, [], erased)
  {
    if n > 0 {
      RunDots(n - 1, erased);
      RunAfter(Stack(0, [], erased), false, Dots(n - 1), [".."]);
    }
  }

  lemma {:induction false} DotsAre(n: nat)
    ensures |Dots(n)| == n && forall i :: 0 <= i < n ==> Dots(n)[i] == ".."
  {
    if n > 0 {
      DotsAre(n - 1);
    }
  }

  /** A stack in which a run of elements can end. */
  predicate Sound(t: Stack, rooted: bool) { AllProper(t.kept) && (rooted ==> t.ups == 0 && !t.erased) }

  lemma {:induction false} RunKeepsSound(t: Stack, rooted: bool, es: seq<string>)
    requires Sound(t, rooted) && AllPlain(es)
    ensures Sound(Run(t, rooted, es), rooted)
    decreases |es|
  {
    if es != [] {
      RunKeepsSound(Take(t, rooted, es[0]), rooted, es[1..]);
    }
  }

  lemma WholeSound(s: string)
    ensures Sound(Whole(s), Rooted(s))
  {
    ElemsPlain(s);
    RunKeepsSound(Start(s), Rooted(s), Elems(s));
  }

  lemma {:induction false} JoinFirst(es: seq<string>)
    requires es != [] && AllPlain(es)
    ensures Join(es) != "" && Join(es)[0] == es[0][0]
  {
    if |es| > 1 {
      JoinFirst(es[..|es| - 1]);
    }
  }

  /** A cleaned path has the elements of its stack, and is rooted as before. */
  lemma CleanedElems(t: Stack, rooted: bool)
    requires Sound(t, rooted)
    ensures Elems(Text(t, rooted)) == Dots(t.ups) + t.kept
    ensures Rooted(Text(t, rooted)) == rooted
  {
    var es := Dots(t.ups) + t.kept;
    DotsAre(t.ups);
    assert AllPlain(es);
    ElemsJoin(es);
    if rooted {
      assert Text(t, rooted)[1..] == Join(es);
    } else {
      assert Text(t, rooted) == Join(es);
      if es != [] {
        JoinFirst(es);
      }
    }
  }

  /** Cleaning what is clean changes nothing. */
  lemma CleanIdempotent(s: string)
    ensures Clean(Clean(s)) == Clean(s)
  {
    WholeSound(s);
    var t, rooted := Whole(s), Rooted(s);
    var text := Text(t, rooted);
    CleanedElems(t, rooted);
    if text == "" {
      ElemsFirst(".", "");
      assert "." + "" == ".";
      assert Take(Start("."), false, ".") == Start(".") && Elems(".")[1..] == [];
    } else if t.erased && text[0] == '#' {
      Marked(t, text);
    } else {
      Again(t, rooted, text);
    }
  }

  lemma Again(t: Stack, rooted: bool, text: string)
    requires Sound(t, rooted) && text == Text(t, rooted) != "" && Elems(text) == Dots(t.ups) + t.kept && Rooted(text) == rooted
    ensures Clean(text) == text
  {
    DotsAre(t.ups);
    var es := Elems(text);
    assert es != [] ==> es[0] != ".";
    assert Start(text) == Stack(0, [], false);
    RunAfter(Stack(0, [], false), rooted, Dots(t.ups), t.kept);
    if rooted {
      assert Dots(0) + t.kept == t.kept;
    } else {
      RunDots(t.ups, false);
    }
    RunProper(Stack(t.ups, [], false), rooted, t.kept);
    assert [] + t.kept == t.kept;
  }

  lemma Marked(t: Stack, text: string)
    requires Sound(t, false) && text == Text(t, false) != "" && text[0] == '#' && Elems(text) == Dots(t.ups) + t.kept
    ensures Clean("./" + text) == "./" + text
  {
    var s := "./" + text;
    assert s == "." + ("/" + text) && ("/" + text)[1..] == text;
    ElemsFirst(".", "/" + text);
    assert Elems(s) == ["."] + Elems(text) && Elems(s)[1..] == Elems(text);
    DotsAre(t.ups);
    RunAfter(Stack(0, [], true), false, Dots(t.ups), t.kept);
    RunDots(t.ups, true);
    RunProper(Stack(t.ups, [], true), false, t.kept);
    assert [] + t.kept == t.kept;
    assert Whole(s) == Stack(t.ups, t.kept, true);
  }
}

module CleanName {
  import opened CleanSpec

  /** How the text of a stack grows by an element. */
  lemma TextPush(t: Stack, rooted: bool, es: seq<string>, e: string)
    requires Sound(t, rooted) && Plain(e) && es == Dots(t.ups) + t.kept
    ensures Join(es + [e]) == Join(es) + (if es == [] then "" else "/") + e
    ensures Join(es) == "" <==> es == []
  {
    DotsAre(t.ups);
    assert (es + [e])[..|es|] == es;
    if es != [] {
      JoinFirst(es);
    }
  }

  lemma {:induction false} JoinLonger(d: seq<string>, es: seq<string>)
    ensures |Join(d)| <= |Join(d + es)|
  {
    if es == [] {
      assert d + es == d;
    } else {
      var n := |es| - 1;
      JoinLonger(d, es[..n]);
      assert (d + es)[..|d + es| - 1] == d + es[..n];
    }
  }

  /** Where the unresolved ".." end. */
  function DotEnd(ups: nat, rooted: bool): nat { (if rooted then 1 else 0) + |Join(Dots(ups))| }

  lemma DotEndIs(t: Stack, rooted: bool)
    requires Sound(t, rooted)
    ensures DotEnd(t.ups, rooted) <= |Text(t, rooted)|
    ensures t.kept == [] <==> DotEnd(t.ups, rooted) == |Text(t, rooted)|
    ensures |Text(t, rooted)| == (if rooted then 1 else 0) <==> Dots(t.ups) + t.kept == []
  {
    DotsAre(t.ups);
    var d := Dots(t.ups);
    JoinLonger(d, t.kept);
    if t.kept == [] {
      assert d + t.kept == d;
    } else {
      var n := |t.kept| - 1;
      JoinLonger(d, t.kept[..n]);
      assert (d + t.kept)[..|d + t.kept| - 1] == d + t.kept[..n];
    }
    if d + t.kept != [] {
      JoinFirst(d + t.kept);
    }
  }

  /** A stack with something kept, without its last element. */
  function Popped(t: Stack): Stack
    requires t.kept != []
  {
    t.(kept := t.kept[..|t.kept| - 1])
  }

  lemma TextPop(t: Stack, rooted: bool)
    requires Sound(t, rooted) && t.kept != []
    ensures var u, e := Popped(t), t.kept[|t.kept| - 1];
            && Sound(u, rooted)
            && Text(t, rooted) == Text(u, rooted) + (if Dots(u.ups) + u.kept == [] then "" else "/") + e
  {
    var u, e := Popped(t), t.kept[|t.kept| - 1];
    TextPush(u, rooted, Dots(u.ups) + u.kept, e);
    assert Dots(u.ups) + u.kept + [e] == Dots(t.ups) + t.kept;
  }

  /** Moves q back over the last element written. */
  method Backtrack(name: array<char>, q0: nat, dotdot: nat, ghost t: Stack, rooted: bool) returns (q: nat)
    requires Sound(t, rooted) && t.kept != [] && q0 <= name.Length && name[..q0] == Text(t, rooted)
    requires dotdot == DotEnd(t.ups, rooted)
    ensures q < q0 && name[..q] == Text(Popped(t), rooted)
  {
    hide Join, Dots, Text, DotEnd;
    TextPop(t, rooted);
    ghost var u, e := Popped(t), t.kept[|t.kept| - 1];
    DotEndIs(u, rooted);
    ghost var l := |Text(u, rooted)|;
    ghost var text := name[..q0];
    assert Proper(e) && text[..l] == Text(u, rooted);
    assert forall i :: |text| - |e| <= i < |text| ==> text[i] == e[i - (|text| - |e|)];
    assert u.kept == [] ==> l == dotdot;
    assert |text| - |e| > l ==> text[l] == '/';
    q := q0 - 1;
    while q > dotdot && name[q] != '/'
      invariant l <= q < q0
    {
      q := q - 1;
    }
    assert text[..q] == name[..q];
  }

  function First(rooted: bool): nat { if rooted then 1 else 0 }

  predicate Sep(s: string, p: nat) { p >= |s| || s[p] == '/' }

  /** p is where an element, a '/' or the end is next; the elements before p are on the
      stack t, whose text takes q bytes. Unless p is still at the beginning, whatever was
      erased leaves two bytes to spare. */
  predicate At(s: string, p: nat, q: nat, t: Stack, erased: bool) {
    var rooted := Rooted(s);
    && Sound(t, rooted) && q == |Text(t, rooted)|
    && p <= |s| && Run(t, rooted, Elems(s[p..])) == Whole(s)
    && (if p == 0 then !erased && t == Start(s) else erased == t.erased)
    && Room(s, p, q, erased)
  }

  predicate Room(s: string, p: nat, q: nat, erased: bool) {
    var first := First(Rooted(s));
    && first <= q <= p <= |s|
    && (p == first || Sep(s, p) || s[p - 1] == '/')
    && (p > first && s[p - 1] == '/' ==> q < p)
    && (erased ==> || (q + 2 <= p && (q > 0 && s[p - 1] == '/' ==> q + 3 <= p))
                   || (q == 0 && p == 1 && Sep(s, 1)))
  }

  /** An element of k bytes, written with a '/' before it if it is not the first. */
  lemma RoomAfter(s: string, p: nat, q: nat, erased: bool, k: nat, q': nat, now: bool)
    requires Room(s, p, q, erased) && p + k <= |s| && k > 0 && '/' !in s[p..p + k] && Sep(s, p + k)
    requires First(Rooted(s)) <= q' <= if q == First(Rooted(s)) then q + k else q + k + 1
    requires now ==> erased || (q' == 0 && k >= 2)
    ensures Room(s, p + k, q', now) && (q > First(Rooted(s)) ==> q < p)
  {
    assert s[p] == s[p..p + k][0] && s[p + k - 1] == s[p..p + k][k - 1];
  }

  lemma AtStart(s: string)
    ensures At(s, First(Rooted(s)), First(Rooted(s)), Start(s), false)
  {
    if Rooted(s) {
      assert Elems(s) == Elems(s[1..]);
    } else {
      assert s[0..] == s;
    }
    assert Dots(0) + [] == [] && Text(Start(s), Rooted(s)) == if Rooted(s) then "/" else "";
  }

  lemma PastSlash(s: string, p: nat, q: nat, t: Stack, erased: bool)
    requires At(s, p, q, t, erased) && p < |s| && s[p] == '/'
    ensures p > 0 && At(s, p + 1, q, t, erased)
  {
    assert s[p..][1..] == s[p + 1..];
    assert p == 0 ==> Rooted(s);
  }

  lemma ElemAt(s: string, p: nat, k: nat)
    requires p + k <= |s| && k > 0 && '/' !in s[p..p + k] && Sep(s, p + k)
    ensures Elems(s[p..]) == [s[p..p + k]] + Elems(s[p + k..])
  {
    assert s[p..] == s[p..p + k] + s[p + k..];
    ElemsFirst(s[p..p + k], s[p + k..]);
  }

  lemma PastDot(s: string, p: nat, q: nat, t: Stack, erased: bool)
    requires At(s, p, q, t, erased) && p < |s| && s[p] == '.' && Sep(s, p + 1)
    ensures At(s, p + 1, q, t, erased || p == 0)
  {
    assert s[p..p + 1] == ".";
    ElemAt(s, p, 1);
    assert Take(t, Rooted(s), ".") == t;
    if p == 0 {
      assert s[0..] == s;
    }
  }

  /** The stack after the element s[p..p + k] has been dealt with. */
  lemma PastElem(s: string, p: nat, q: nat, t: Stack, erased: bool, k: nat, q': nat)
    requires At(s, p, q, t, erased) && p + k <= |s| && k > 0 && '/' !in s[p..p + k] && Sep(s, p + k)
    requires s[p..p + k] != "."
    requires var u := Take(t, Rooted(s), s[p..p + k]);
             && q' == |Text(u, Rooted(s))| && First(Rooted(s)) <= q'
             && q' <= (if q == First(Rooted(s)) then q + k else q + k + 1)
             && (u.erased && !t.erased ==> q' == 0 && k >= 2)
    ensures At(s, p + k, q', Take(t, Rooted(s), s[p..p + k]), Take(t, Rooted(s), s[p..p + k]).erased)
  {
    hide Elems, Text, Room;
    ElemAt(s, p, k);
    var e := s[p..p + k];
    var u := Take(t, Rooted(s), e);
    assert Plain(e);
    RunKeepsSound(t, Rooted(s), [e]);
    assert Run(t, Rooted(s), [e]) == u;
    if p == 0 {
      assert s[0..] == s && Elems(s)[0] == e;
    }
    RoomAfter(s, p, q, erased, k, q', u.erased);
  }

  /** The buffer still holds the name from p on. */
  predicate Unread(buf: seq<char>, s: string, p: nat) {
    && |s| < |buf| && p <= |s| && '\0' !in s
    && (forall k :: p <= k < |s| ==> buf[k] == s[k]) && buf[|s|] == '\0'
  }

  /** Copies the element at p to q. */
  method CopyElem(name: array<char>, p0: nat, q0: nat, ghost s: string) returns (p: nat, q: nat)
    requires |s| < name.Length && q0 <= p0 < |s| && '\0' !in s && s[p0] != '/'
    requires (forall k :: p0 <= k < |s| ==> name[k] == s[k]) && name[|s|] == '\0'
    modifies name
    ensures p0 < p <= |s| && '/' !in s[p0..p] && Sep(s, p) && q == q0 + (p - p0)
    ensures name[..q] == old(name[..q0]) + s[p0..p]
    ensures forall k :: p <= k < name.Length ==> name[k] == old(name[k])
  {
    p, q := p0, q0;
    name[q] := name[p];
    while name[q] != '/' && name[q] != '\0'
      invariant p0 <= p <= |s| && q == q0 + (p - p0)
      invariant forall k :: p <= k < name.Length ==> name[k] == old(name[k])
      invariant name[q] == if p < |s| then s[p] else '\0'
      invariant name[..q0] == old(name[..q0])
      invariant forall k :: p0 <= k < p ==> name[k - p0 + q0] == s[k] && s[k] != '/'
      invariant p == p0 ==> name[q] == s[p]
      decreases |s| - p
    {
      p, q := p + 1, q + 1;
      name[q] := name[p];
    }
    assert name[q0..q] == s[p0..p];
  }

  /** Which elements the first two tests of the loop let through. */
  lemma IsName(s: string, p: nat, k: nat)
    requires p < |s| && 0 < k && p + k <= |s| && Sep(s, p + k)
    requires !(s[p] == '.' && Sep(s, p + 1))
    requires !(s[p] == '.' && p + 1 < |s| && s[p + 1] == '.' && Sep(s, p + 2))
    ensures s[p..p + k] != "." && s[p..p + k] != ".."
  {
    assert s[p..p + k][0] == s[p];
    if k == 2 {
      assert s[p..p + k][1] == s[p + 1];
    }
  }

  function Push(t: Stack, e: string): Stack { t.(kept := t.kept + [e]) }

  lemma PushText(t: Stack, rooted: bool, e: string)
    requires Sound(t, rooted) && Plain(e)
    ensures Text(Push(t, e), rooted) == Text(t, rooted) + (if |Text(t, rooted)| == First(rooted) then "" else "/") + e
  {
    hide Join, Dots, DotEnd;
    DotEndIs(t, rooted);
    var es := Dots(t.ups) + t.kept;
    TextPush(t, rooted, es, e);
    assert es + [e] == Dots(t.ups) + (t.kept + [e]);
  }

  /** Adds an element to the text, with a '/' before it if there is text already. */
  method PutElem(name: array<char>, p0: nat, q0: nat, rooted: bool, ghost s: string, ghost t: Stack, ghost erased: bool)
      returns (p: nat, q: nat)
    requires At(s, p0, q0, t, erased) && Room(s, p0, q0, erased) && rooted == Rooted(s) && p0 < |s| && s[p0] != '/'
    requires Unread(name[..], s, p0) && name[..q0] == Text(t, rooted) && Sound(t, rooted)
    requires !(s[p0] == '.' && Sep(s, p0 + 1)) && !(s[p0] == '.' && p0 + 1 < |s| && s[p0 + 1] == '.' && Sep(s, p0 + 2))
    modifies name
    ensures p0 < p <= |s| && At(s, p, q, Push(t, s[p0..p]), t.erased) && erased == t.erased
    ensures q <= name.Length && name[..q] == Text(Push(t, s[p0..p]), rooted)
    ensures forall k :: p <= k < name.Length ==> name[k] == old(name[k])
  {
    hide Run, Elems, Text, At;
    q := q0;
    assert forall k :: p0 <= k < |s| ==> name[..][k] == s[k];
    ghost var text := name[..q0];
    if q != First(rooted) {
      name[q] := '/';
      q := q + 1;
    }
    assert name[..q] == text + if q0 == First(rooted) then "" else "/";
    p, q := CopyElem(name, p0, q, s);
    ghost var e := s[p0..p];
    IsName(s, p0, p - p0);
    AtText(s, p0, q0, t, erased);
    PushText(t, rooted, e);
    assert Take(t, rooted, e) == Push(t, e);
    SameErased(s, p0, q0, t, erased, p - p0);
    PastElem(s, p0, q0, t, erased, p - p0, q);
  }

  lemma AtText(s: string, p: nat, q: nat, t: Stack, erased: bool)
    requires At(s, p, q, t, erased)
    ensures q == |Text(t, Rooted(s))| && Room(s, p, q, erased) && Sound(t, Rooted(s)) && p <= |s|
  {}

  /** The element "..": takes back the last element written, or is written itself when
      there is none, unless the path is rooted. */
  method Up(name: array<char>, p0: nat, q0: nat, dotdot0: nat, rooted: bool, erased0: bool, ghost s: string, ghost t: Stack)
      returns (q: nat, dotdot: nat, erased: bool)
    requires At(s, p0, q0, t, erased0) && rooted == Rooted(s) && p0 + 2 <= |s| && s[p0..p0 + 2] == ".." && Sep(s, p0 + 2)
    requires Unread(name[..], s, p0) && q0 <= p0 && name[..q0] == Text(t, rooted) && dotdot0 == DotEnd(t.ups, rooted)
    modifies name
    ensures var u := Take(t, rooted, "..");
            && At(s, p0 + 2, q, u, erased) && q <= name.Length && name[..q] == Text(u, rooted) && dotdot == DotEnd(u.ups, rooted)
    ensures forall k :: p0 + 2 <= k < name.Length ==> name[k] == old(name[k])
  {
    hide Run, Elems, Text, At, Join, Dots, DotEnd, Room;
    AtText(s, p0, q0, t, erased0);
    DotEndIs(t, rooted);
    ghost var u := Take(t, rooted, "..");
    ghost var text := name[..q0];
    TakeUp(s, p0, q0, t, erased0);
    q, dotdot, erased := q0, dotdot0, erased0;
    if q > dotdot {
      q := Backtrack(name, q, dotdot, t, rooted);
      TextIgnores(Popped(t), rooted, u.erased);
    } else if !rooted {
      MoreDots(t);
      RoomFor(s, p0, q0, erased0);
      if q != 0 {
        name[q] := '/';
        q := q + 1;
      }
      assert name[..q] == text + if q0 == 0 then "" else "/";
      name[q] := '.';
      name[q + 1] := '.';
      q := q + 2;
      assert name[..q] == text + (if q0 == 0 then "" else "/") + "..";
      dotdot := q;
    }
    if q == 0 {
      erased := true;
    }
    RunKeepsSound(t, rooted, [".."]);
    assert Run(t, rooted, [".."]) == u by { RunOne(t, rooted, ".."); }
    DotEndIs(u, rooted);
    SameErased(s, p0, q0, t, erased0, 2);
    PastElem(s, p0, q0, t, erased0, 2, q);
  }

  lemma TextIgnores(t: Stack, rooted: bool, erased: bool)
    ensures Text(t.(erased := erased), rooted) == Text(t, rooted)
  {}

  lemma RunOne(t: Stack, rooted: bool, e: string)
    ensures Run(t, rooted, [e]) == Take(t, rooted, e)
  {
    assert [e][1..] == [];
  }

  lemma SameErased(s: string, p: nat, q: nat, t: Stack, erased: bool, k: nat)
    requires At(s, p, q, t, erased) && p + k <= |s| && k > 0 && '/' !in s[p..p + k] && Sep(s, p + k) && s[p..p + k] != "."
    ensures erased == t.erased
  {
    ElemAt(s, p, k);
    if p == 0 {
      assert s[0..] == s;
    }
  }

  lemma MoreDots(t: Stack)
    requires Sound(t, false) && t.kept == []
    ensures Text(t.(ups := t.ups + 1), false) == Text(t, false) + (if |Text(t, false)| == 0 then "" else "/") + ".."
  {
    var es := Dots(t.ups);
    assert es + [] == es && Dots(t.ups + 1) + [] == es + [".."] && Dots(t.ups) + t.kept == es;
    TextPush(t, false, es, "..");
  }

  lemma RoomFor(s: string, p: nat, q: nat, erased: bool)
    requires Room(s, p, q, erased) && p < |s| && s[p] != '/'
    ensures q > First(Rooted(s)) ==> q < p
  {}

  /** What the stack becomes, in the terms of the loop. */
  lemma TakeUp(s: string, p: nat, q: nat, t: Stack, erased: bool)
    requires At(s, p, q, t, erased) && p + 2 <= |s| && s[p..p + 2] == ".." && Sep(s, p + 2)
    ensures s[p] != '/'
    ensures t.kept != [] ==> Take(t, Rooted(s), "..") == Popped(t).(erased := t.erased || |Text(Popped(t), Rooted(s))| == 0)
  {
    assert s[p] == s[p..p + 2][0];
  }

  /** One round of the loop: a '/' is passed over, or an element dealt with. */
  method OneElem(name: array<char>, p0: nat, q0: nat, dotdot0: nat, rooted: bool, erased0: bool, ghost s: string, ghost t0: Stack)
      returns (p: nat, q: nat, dotdot: nat, erased: bool, ghost t: Stack)
    requires At(s, p0, q0, t0, erased0) && rooted == Rooted(s) && p0 < |s| && q0 <= p0 && Unread(name[..], s, p0)
    requires dotdot0 == DotEnd(t0.ups, rooted) && name[..q0] == Text(t0, rooted)
    modifies name
    ensures p0 < p <= |s| && q <= p && At(s, p, q, t, erased)
    ensures dotdot == DotEnd(t.ups, rooted) && name[..q] == Text(t, rooted)
    ensures forall k :: p <= k < name.Length ==> name[k] == old(name[k])
  {
    hide At, Text, Run, Elems, Whole, DotEnd, Room;
    p, q, dotdot, erased, t := p0, q0, dotdot0, erased0, t0;
    AtText(s, p, q, t, erased);
    assert name[..][p] == s[p] && (p + 1 < |s| ==> name[..][p + 1] == s[p + 1]) && (p + 2 < |s| ==> name[..][p + 2] == s[p + 2]);
    assert forall k :: 0 <= k < |s| ==> s[k] in s;
    if name[p] == '/' {
      PastSlash(s, p, q, t, erased);
      p := p + 1;
    } else if name[p] == '.' && (name[p + 1] == '/' || name[p + 1] == '\0') {
      PastDot(s, p, q, t, erased);
      if p == 0 {
        erased := true;
      }
      p := p + 1;
    } else if name[p] == '.' && name[p + 1] == '.' && (name[p + 2] == '/' || name[p + 2] == '\0') {
      assert s[p..p + 2] == "..";
      q, dotdot, erased := Up(name, p, q, dotdot, rooted, erased, s, t);
      p, t := p + 2, Take(t, rooted, "..");
    } else {
      p, q := PutElem(name, p, q, rooted, s, t, erased);
      t := Push(t, s[p0..p]);
    }
    AtText(s, p, q, t, erased);
    RoomIs(s, p, q, erased);
  }

  /** The in-place rewriting of a name of n bytes, in a buffer with room for two bytes at
      least: what it writes never overtakes what it has read. */
  method Cleanname(name: array<char>, ghost n: nat)
    requires n < name.Length && name.Length >= 2 && name[n] == '\0' && '\0' !in name[..n]
    modifies name
    ensures var r := Clean(old(name[..n]));
            && |r| <= (if n == 0 then 1 else n)
            && name[..|r|] == r && name[|r|] == '\0'
    ensures forall k :: n < k < name.Length && 1 < k ==> name[k] == old(name[k])
  {
    hide At, Text, Start, Clean, Run, Elems, Whole, Finish, DotEnd, Room;
    ghost var s := name[..n];
    assert forall k :: 0 <= k < n ==> s[k] == name[k] && name[k] in s;
    var rooted := name[0] == '/';
    AtStart(s);
    StartText(s);
    var p: nat, q: nat, dotdot, erased := First(rooted), First(rooted), First(rooted), false;
    ghost var t := Start(s);
    while name[p] != '\0'
      invariant p <= n && q <= p && At(s, p, q, t, erased)
      invariant dotdot == DotEnd(t.ups, rooted) && name[..q] == Text(t, rooted)
      invariant forall k :: p <= k < name.Length ==> name[k] == old(name[k])
      decreases n - p
    {
      p, q, dotdot, erased, t := OneElem(name, p, q, dotdot, rooted, erased, s, t);
    }
    Terminate(name, q, erased, s, t);
  }

  /** The end of cleanname: an empty name becomes ".", and "./" goes in front of what
      has become a device name. */
  method Terminate(name: array<char>, q0: nat, erased: bool, ghost s: string, ghost t: Stack)
    requires At(s, |s|, q0, t, erased) && |s| < name.Length && name.Length >= 2
    requires q0 <= |s| && name[..q0] == Text(t, Rooted(s))
    modifies name
    ensures var r := Clean(s); |r| <= (if |s| == 0 then 1 else |s|) && name[..|r|] == r && name[|r|] == '\0'
    ensures forall k :: |s| < k < name.Length && 1 < k ==> name[k] == old(name[k])
  {
    hide At, Text, Clean, Finish;
    AtEnd(s, q0, t, erased);
    ghost var text := name[..q0];
    var q := q0;
    if q == 0 {
      name[q] := '.';
      q := q + 1;
    }
    name[q] := '\0';
    assert name[..q] == if q0 == 0 then "." else text;
    if erased && name[0] == '#' {
      Insert(name, q);
    }
  }

  /** memmove(name + 2, name, q + 1), and "./" in front. */
  method Insert(name: array<char>, q: nat)
    requires q + 2 < name.Length && name[q] == '\0'
    modifies name
    ensures name[..q + 2] == "./" + old(name[..q]) && name[q + 2] == '\0'
    ensures forall k :: q + 2 < k < name.Length ==> name[k] == old(name[k])
  {
    forall k | 0 <= k <= q {
      name[k + 2] := name[k];
    }
    name[0] := '.';
    name[1] := '/';
    assert name[2..q + 2] == old(name[..q]);
    assert name[..q + 2] == name[..2] + name[2..q + 2];
  }

  lemma AtEnd(s: string, q: nat, t: Stack, erased: bool)
    requires At(s, |s|, q, t, erased)
    ensures Clean(s) == Finish(Text(t, Rooted(s)), erased)
    ensures Finish(Text(t, Rooted(s)), erased) ==
              if q == 0 then "." else if erased && Text(t, Rooted(s))[0] ==
                  '#' then "./" + Text(t, Rooted(s)) else Text(t, Rooted(s))
    ensures erased && q > 0 ==> q + 2 <= |s|
  {
    assert s[|s|..] == "";
  }

  lemma RoomIs(s: string, p: nat, q: nat, erased: bool)
    requires Room(s, p, q, erased)
    ensures q <= p <= |s|
  {}

  lemma StartText(s: string)
    ensures var r := Rooted(s);
            Text(Start(s), r) == (if r then "/" else "") && DotEnd(Start(s).ups, r) == First(r) && First(r) <= |s|
  {
    assert Dots(0) + [] == [];
  }
}
