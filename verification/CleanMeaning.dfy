/**
 What cleaning leaves alone: the file that a name leads to. A name is followed from a
 directory one element at a time, and at the root ".." stays where it is.
 */
module CleanMeaning {
  import opened CleanSpec

  /** Where the elements lead from the directory at p. */
  function Goes(p: seq<string>, es: seq<string>): seq<string>
    decreases |es|
  {
    if es == [] then p
    else
      var e := es[0];
      Goes(if e == "." then p else if e != ".." then p + [e] else if p == [] then p else p[..|p| - 1], es[1..])
  }

  lemma {:induction false} GoesOn(p: seq<string>, es: seq<string>, fs: seq<string>)
    ensures Goes(p, es + fs) == Goes(Goes(p, es), fs)
    decreases |es|
  {
    if es == [] {
      assert es + fs == fs;
    } else {
      var e := es[0];
      var q := if e == "." then p else if e != ".." then p + [e] else if p == [] then p else p[..|p| - 1];
      assert (es + fs)[1..] == es[1..] + fs;
      GoesOn(q, es[1..], fs);
    }
  }

  lemma GoesOne(p: seq<string>, e: string)
    ensures Goes(p, [e]) == if e == "." then p else if e != ".." then p + [e] else if p == [] then p else p[..|p| - 1]
  {
    assert [e][1..] == [];
  }

  lemma {:induction false} GoesDown(p: seq<string>, es: seq<string>)
    requires AllProper(es)
    ensures Goes(p, es) == p + es
    decreases |es|
  {
    if es != [] {
      assert Proper(es[0]) && AllProper(es[1..]);
      GoesDown(p + [es[0]], es[1..]);
      assert p + es == p + [es[0]] + es[1..];
    }
  }

  /** Where a stack stands for. */
  function At(p: seq<string>, t: Stack): seq<string> { Goes(p, Dots(t.ups) + t.kept) }

  /** One element more goes where the stack then stands for. */
  lemma TakeGoes(p: seq<string>, t: Stack, rooted: bool, e: string)
    requires Sound(t, rooted) && (rooted ==> p == []) && Plain(e)
    ensures At(p, Take(t, rooted, e)) == Goes(At(p, t), [e])
  {
    hide Goes;
    var d, k := Dots(t.ups), t.kept;
    GoesOn(p, d, k);
    GoesDown(Goes(p, d), k);
    GoesOne(At(p, t), e);
    if e == ".." {
      if k != [] {
        GoesOn(p, d, k[..|k| - 1]);
        assert AllProper(k[..|k| - 1]);
        GoesDown(Goes(p, d), k[..|k| - 1]);
        assert (Goes(p, d) + k)[..|Goes(p, d) + k| - 1] == Goes(p, d) + k[..|k| - 1];
      } else if !rooted {
        assert d + [] == d && d + [".."] + [] == d + [".."];
        GoesOn(p, d, [".."]);
      } else {
        assert d + [] == [];
        GoesNone(p);
      }
    } else if e != "." {
      assert d + (k + [e]) == d + k + [e];
      GoesOn(p, d + k, [e]);
    }
  }

  lemma GoesNone(p: seq<string>)
    ensures Goes(p, []) == p
  {}

  lemma {:induction false} RunGoes(p: seq<string>, t: Stack, rooted: bool, es: seq<string>)
    requires Sound(t, rooted) && (rooted ==> p == []) && AllPlain(es)
    ensures At(p, Run(t, rooted, es)) == Goes(At(p, t), es)
    decreases |es|
  {
    hide Take, At, Goes;
    if es == [] {
      GoesNone(At(p, t));
    } else {
      assert Plain(es[0]) && AllPlain(es[1..]);
      TakeSound(t, rooted, es[0]);
      TakeGoes(p, t, rooted, es[0]);
      RunGoes(p, Take(t, rooted, es[0]), rooted, es[1..]);
      GoesOn(At(p, t), [es[0]], es[1..]);
      assert [es[0]] + es[1..] == es;
    }
  }

  lemma TakeSound(t: Stack, rooted: bool, e: string)
    requires Sound(t, rooted) && Plain(e)
    ensures Sound(Take(t, rooted, e), rooted)
  {}

  /** A cleaned name leads where the name led: from the root when it is rooted, and
      otherwise from any directory. */
  lemma CleanLeadsThere(s: string, p: seq<string>)
    requires Rooted(s) ==> p == []
    ensures Rooted(Clean(s)) == Rooted(s) && Goes(p, Elems(Clean(s))) == Goes(p, Elems(s))
  {
    hide Goes, Elems, Text, Run, Dots;
    var rooted, t := Rooted(s), Whole(s);
    WholeSound(s);
    ElemsPlain(s);
    RunGoes(p, Start(s), rooted, Elems(s));
    StartGoes(p, s);
    CleanedElems(t, rooted);
    var text := Text(t, rooted);
    if text == "" {
      DotOnly();
      GoesOne(p, ".");
      NoElems();
      GoesNone(p);
    } else if t.erased && text[0] == '#' {
      ElemsFirst(".", "/" + text);
      SlashElems(text);
      assert "./" + text == "." + ("/" + text);
      GoesOn(p, ["."], Elems(text));
      GoesOne(p, ".");
    }
  }

  lemma StartGoes(p: seq<string>, s: string)
    ensures At(p, Start(s)) == p && Sound(Start(s), Rooted(s))
  {
    assert Dots(0) + [] == [];
  }

  lemma DotOnly()
    ensures Elems(".") == ["."]
  {
    ElemsFirst(".", "");
    NoElems();
    assert "." + "" == ".";
  }

  lemma NoElems()
    ensures Elems("") == []
  {}

  lemma SlashElems(text: string)
    ensures Elems("/" + text) == Elems(text)
  {
    assert ("/" + text)[1..] == text;
  }

  /** n times ".." and then proper elements. */
  predicate Reduced(es: seq<string>, n: nat) {
    n <= |es| && (forall i :: 0 <= i < n ==> es[i] == "..") && forall i :: n <= i < |es| ==> Proper(es[i])
  }

  /** The elements of a cleaned name: ".." only in front, and not under the root, and nothing
      to be cleaned further, but for a "." that is all there is or that is put before what
      would else start with "#". */
  lemma CleanedForm(s: string) returns (n: nat)
    ensures var es := Elems(Clean(s));
            || (Reduced(es, n) && (Rooted(s) ==> n == 0))
            || (!Rooted(s) && es != [] && es[0] == "." && Reduced(es[1..], 0) && (|es| > 1 ==> es[1] != "" && es[1][0] == '#'))
  {
    hide Elems, Text, Run;
    var rooted, t := Rooted(s), Whole(s);
    WholeSound(s);
    CleanedElems(t, rooted);
    DotsAre(t.ups);
    n := t.ups;
    var text, es := Text(t, rooted), Dots(t.ups) + t.kept;
    assert Reduced(es, n);
    if text == "" {
      DotOnly();
    } else if t.erased && text[0] == '#' {
      ElemsFirst(".", "/" + text);
      SlashElems(text);
      assert "./" + text == "." + ("/" + text);
      MarkedFirst(t, rooted);
      assert (["."] + es)[1..] == es;
    }
  }

  lemma MarkedFirst(t: Stack, rooted: bool)
    requires Sound(t, rooted) && !rooted && Text(t, rooted) != "" && Text(t, rooted)[0] == '#'
    ensures t.ups == 0 && t.kept != [] && t.kept[0] != "" && t.kept[0][0] == '#'
  {
    DotsAre(t.ups);
    var es := Dots(t.ups) + t.kept;
    if es == [] {
      NoJoin();
    } else {
      assert AllPlain(es);
      JoinFirst(es);
    }
  }

  lemma NoJoin()
    ensures Join([]) == ""
  {}
}
