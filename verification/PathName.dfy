/**
 The name and the mount history of a Path (addelem and fixdotdotname of kern/chan.c).
 A name is a root, "/" or a device such as "#c", and the elements below it; its text is
 what the source keeps. Every element has a slot in the history, as has the root.
 */
module PathName {
  import opened Bytes
  import opened CleanSpec

  datatype Name = Name(root: string, elems: seq<string>)

  predicate RootOk(root: string) {
    root == "/" || root == "#/" || (|root| > 1 && root[0] == '#' && '/' !in root)
  }

  predicate NameOk(n: Name) { RootOk(n.root) && AllProper(n.elems) }

  function Render(n: Name): string {
    if n.elems == [] then n.root
    else n.root + (if EndsSlash(n.root) then "" else "/") + Join(n.elems)
  }

  predicate EndsSlash(s: string) { s != "" && s[|s| - 1] == '/' }

  /** The text with an element behind it, after a slash if there is none yet. */
  function Appended(s: string, e: string): string {
    if s != "" && !EndsSlash(s) && (e == "" || e[0] != '/') then s + "/" + e else s + e
  }

  /** fixdotdotname: of a device name only the part from the first slash is cleaned, and
      that slash is dropped if nothing follows it, except in "#/". */
  function Fixdotdot(s: string): string {
    if s != "" && s[0] == '#' then
      var k := Word(s);
      if k == |s| then s
      else
        var r := Clean(s[k..]);
        if r == "/" && k != 1 then s[..k] else s[..k] + r
    else Clean(s)
  }

  /** The text part of addelem. */
  function AddText(s: string, e: string): string {
    if e == "." then s else if e == ".." then Fixdotdot(Appended(s, e)) else Appended(s, e)
  }

  /** Its meaning on names: at the root ".." stays. */
  function AddName(n: Name, e: string): Name {
    if e == "." then n
    else if e != ".." then n.(elems := n.elems + [e])
    else if n.elems == [] then n
    else n.(elems := n.elems[..|n.elems| - 1])
  }

  /** The mount history: one slot goes with its element. */
  function AddSlot<T>(m: seq<T>, e: string, from: T): seq<T> {
    if e == "." then m
    else if e != ".." then m + [from]
    else if |m| > 1 then m[..|m| - 1]
    else m
  }

  lemma RootedText(es: seq<string>)
    requires AllProper(es)
    ensures Clean("/" + Join(es) + "/..") == "/" + Join(if es == [] then [] else es[..|es| - 1])
    ensures Clean("/..") == "/"
  {
    var fs := if es == [] then [] else es[..|es| - 1];
    assert "/.."[1..] == "..";
    ElemsFirst("..", "");
    assert ".." + "" == "..";
    UpOne(es);
    var s := "/" + Join(es) + "/..";
    assert s == ("/" + Join(es)) + "/.." && ("/" + Join(es))[1..] == Join(es);
    ElemsJoin(es);
    ElemsAfter("/" + Join(es), "/..");
    assert Elems(s) == es + [".."] && Rooted(s);
    assert Dots(0) + fs == fs;
    UpOne([]);
    assert [] + [".."] == [".."] && Dots(0) + [] == [];
  }

  /** The last element is taken back. */
  lemma UpOne(es: seq<string>)
    requires AllProper(es)
    ensures Run(Stack(0, [], false), true, es + [".."]) == Stack(0, if es == [] then [] else es[..|es| - 1], false)
  {
    RunProper(Stack(0, [], false), true, es);
    RunAfter(Stack(0, [], false), true, es, [".."]);
    assert [] + es == es && [".."][1..] == [];
  }

  lemma {:induction false} JoinTail(es: seq<string>)
    requires es != [] && AllProper(es)
    ensures Join(es) != "" && Join(es)[|Join(es)| - 1] != '/'
  {
    var e := es[|es| - 1];
    assert Join(es)[|Join(es)| - 1] == e[|e| - 1];
  }

  /** The text of the elements with e behind them. */
  function Below(es: seq<string>, e: string): string { if es == [] then e else Join(es) + "/" + e }

  lemma AppendedIs(n: Name, e: string)
    requires NameOk(n) && e != "" && e[0] != '/'
    ensures Appended(Render(n), e) == n.root + (if EndsSlash(n.root) then "" else "/") + Below(n.elems, e)
  {
    var sep := if EndsSlash(n.root) then "" else "/";
    if n.elems != [] {
      JoinTail(n.elems);
      var s := Render(n);
      assert s == (n.root + sep) + Join(n.elems);
      assert s[|s| - 1] == Join(n.elems)[|Join(n.elems)| - 1];
      assert s + "/" + e == n.root + sep + (Join(n.elems) + "/" + e);
    }
  }

  /** addelem of an element, in text and in meaning. */
  lemma AddProper(n: Name, e: string)
    requires NameOk(n) && Proper(e)
    ensures NameOk(AddName(n, e)) && AddText(Render(n), e) == Render(AddName(n, e))
  {
    AppendedIs(n, e);
    assert (n.elems + [e])[..|n.elems|] == n.elems;
    assert Join(n.elems + [e]) == Below(n.elems, e);
  }

  /** addelem of "..", in text and in meaning. */
  lemma AddDotdot(n: Name)
    requires NameOk(n)
    ensures NameOk(AddName(n, "..")) && AddText(Render(n), "..") == Render(AddName(n, ".."))
  {
    hide Join, Clean, Render, Fixdotdot, Appended, RootOk;
    var es := n.elems;
    AppendedIs(n, "..");
    TextUp(n.root, es, Appended(Render(n), ".."));
    assert n == Name(n.root, es);
  }

  /** The text with "/.." behind it, fixed. */
  lemma TextUp(root: string, es: seq<string>, s: string)
    requires RootOk(root) && AllProper(es)
    requires s == root + (if EndsSlash(root) then "" else "/") + Below(es, "..")
    ensures Fixdotdot(s) == Render(Name(root, if es == [] then [] else es[..|es| - 1]))
  {
    hide Join, Clean, Render, Fixdotdot, Below;
    var fs := if es == [] then [] else es[..|es| - 1];
    var t := if es == [] then "/.." else "/" + Join(es) + "/..";
    SlashBelow(es);
    RootedText(es);
    JoinNothing(fs);
    RenderIs(root, fs);
    if root == "/" {
      assert s == t && s[0] == '/';
      CleanIs(s);
    } else {
      var d := if root == "#/" then "#" else root;
      assert s == d + t;
      DeviceText(d, es, s);
    }
  }

  lemma SlashBelow(es: seq<string>)
    ensures "/" + Below(es, "..") == if es == [] then "/.." else "/" + Join(es) + "/.."
  {
    assert "/" + (Join(es) + "/" + "..") == "/" + Join(es) + "/..";
  }

  lemma CleanIs(s: string)
    requires s != "" && s[0] == '/'
    ensures Fixdotdot(s) == Clean(s)
  {}

  lemma JoinNothing(fs: seq<string>)
    requires AllProper(fs)
    ensures Join(fs) == "" <==> fs == []
  {
    if fs != [] {
      JoinTail(fs);
    }
  }

  lemma RenderIs(root: string, fs: seq<string>)
    requires RootOk(root) && AllProper(fs)
    ensures root == "/" ==> Render(Name(root, fs)) == "/" + Join(fs)
    ensures root == "#/" ==> Render(Name(root, fs)) == "#" + ("/" + Join(fs))
    ensures root != "/" && root != "#/" ==> Render(Name(root, fs)) == if fs == [] then root else root + ("/" + Join(fs))
    ensures root != "/" ==> (EndsSlash(root) <==> root == "#/")
  {}

  /** The device part is left alone. */
  lemma DeviceText(d: string, es: seq<string>, s: string)
    requires d != "" && d[0] == '#' && '/' !in d && AllProper(es)
    requires s == d + if es == [] then "/.." else "/" + Join(es) + "/.."
    ensures var r := "/" + Join(if es == [] then [] else es[..|es| - 1]);
            Fixdotdot(s) == if r == "/" && d != "#" then d else d + r
  {
    hide Clean, Join, Word;
    var t := if es == [] then "/.." else "/" + Join(es) + "/..";
    JoinNothing([]);
    WordOf(d, t);
    RootedText(es);
    assert s[0] == d[0] && s[..|d|] == d && s[|d|..] == t;
  }

  /** An element and ".." after it give back name and history, and the history has one
      slot more than the name has elements throughout. */
  lemma ThereAndBack<T>(n: Name, m: seq<T>, e: string, from: T, none: T)
    requires NameOk(n) && Proper(e) && |m| == |n.elems| + 1
    ensures AddText(AddText(Render(n), e), "..") == Render(n)
    ensures AddName(AddName(n, e), "..") == n
    ensures AddSlot(AddSlot(m, e, from), "..", none) == m
  {
    AddProper(n, e);
    AddDotdot(AddName(n, e));
    assert (n.elems + [e])[..|n.elems|] == n.elems;
  }

  lemma SlotsMatch<T>(n: Name, m: seq<T>, e: string, from: T)
    requires |m| == |n.elems| + 1
    ensures |AddSlot(m, e, from)| == |AddName(n, e).elems| + 1
  {}
}
