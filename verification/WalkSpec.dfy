/**
 Where walk of kern/chan.c leads. walk sends up to sixteen names at a time, stops at the
 first mount point on the way, tries the rest of a union when its first member refuses,
 and goes back over mount points for "..". All of it comes to taking one name at a time.
 */
module WalkSpec {
  import opened Bytes
  import opened PathName
  import opened ChanHeap

  const MAXWELEM := 16

  datatype Walkqid = Walkqid(qids: seq<Qid>, whole: bool)

  type Device = (nat, nat, Qid, seq<string>) -> Option<Walkqid>

  /** A file as a device names it. */
  datatype File = File(ty: nat, dev: nat, qid: Qid)

  /** What a walk goes by: the channels and mount heads there are, the mount table in
      search order, and the devices. */
  datatype Space = Space(objs: Objs, table: seq<Id>, dev: Device, nomount: bool)

  /** Where a walk stands: a file, the mount history of its path, and, if a mount point
      has just been crossed, its head. */
  datatype Spot = Spot(file: File, hist: seq<Option<Id>>, head: Option<Id>)

  datatype Round = Stuck(nerr: nat) | On(n: nat, spot: Spot)

  datatype End = Nowhere(nerr: nat) | There(spot: Spot)

  function Ask(dev: Device, f: File, names: seq<string>): Option<Walkqid> { dev(f.ty, f.dev, f.qid, names) }

  function FileAt(objs: Objs, x: Id): File {
    if x in objs && objs[x].Chan? then File(objs[x].ty, objs[x].dev, objs[x].qid) else File(0, 0, Qid(0, false))
  }

  predicate OnHead(objs: Objs, m: Id, f: File) {
    m in objs && objs[m].Mhead? && objs[m].from in objs && objs[objs[m].from].Chan? &&
    var g := FileAt(objs, objs[m].from);
    g.qid.path == f.qid.path && g.ty == f.ty && g.dev == f.dev
  }

  function MountOn(objs: Objs, table: seq<Id>, f: File): Option<Id> {
    if table == [] then None
    else if OnHead(objs, table[0], f) then Some(table[0])
    else MountOn(objs, table[1..], f)
  }

  function From(objs: Objs, m: Id): Option<Id> {
    if m in objs && objs[m].Mhead? then Some(objs[m].from) else None
  }

  function Mounts(objs: Objs, m: Id): seq<Id> {
    if m in objs && objs[m].Mhead? then objs[m].mount else []
  }

  function Mounted(objs: Objs, m: Id): File {
    FileAt(objs, if Mounts(objs, m) == [] then 0 else Mounts(objs, m)[0])
  }

  function Top(h: seq<Option<Id>>): Option<Id> { if h == [] then None else h[|h| - 1] }

  function SetTop(h: seq<Option<Id>>, x: Option<Id>): seq<Option<Id>> {
    if h == [] then h else h[..|h| - 1] + [x]
  }

  /** domount: the history notes where from. */
  function Crossed(s: Space, t: Spot): Spot {
    match MountOn(s.objs, s.table, t.file)
    case None => t
    case Some(m) => Spot(Mounted(s.objs, m), SetTop(t.hist, From(s.objs, m)), Some(m))
  }

  function UnionAsk(s: Space, l: seq<Id>, names: seq<string>): Option<(File, Walkqid)> {
    if l == [] then None
    else
      match Ask(s.dev, FileAt(s.objs, l[0]), names)
      case Some(w) => Some((FileAt(s.objs, l[0]), w))
      case None => UnionAsk(s, l[1..], names)
  }

  /** The member of the union that answers, and what. */
  function Answer(s: Space, t: Spot, names: seq<string>): Option<(File, Walkqid)> {
    match Ask(s.dev, t.file, names)
    case Some(w) => Some((t.file, w))
    case None =>
      if t.head.Some? && !s.nomount && Mounts(s.objs, t.head.value) != [] then
        UnionAsk(s, Mounts(s.objs, t.head.value)[1..], names)
      else None
  }

  function Reached(f: File, w: Walkqid): File {
    f.(qid := if w.qids == [] then f.qid else w.qids[|w.qids| - 1])
  }

  /** "..": the history goes up; if a mount was crossed there, to the file mounted upon. */
  function Up(s: Space, t: Spot, f: File): Spot {
    var h := AddSlot(t.hist, "..", None);
    if Top(h).Some? then Spot(FileAt(s.objs, Top(h).value), SetTop(h, None), None) else Spot(f, h, None)
  }

  // ---- In batches ----

  /** The first file on the way, within the first lim, that something is mounted on. */
  function MountAlong(s: Space, f: File, qids: seq<Qid>, lim: nat): (r: Option<(nat, Id)>)
    ensures r.Some? ==> 1 <= r.value.0 <= lim
  {
    if qids == [] || lim == 0 then None
    else
      match MountOn(s.objs, s.table, f.(qid := qids[0]))
      case Some(m) => Some((1, m))
      case None => Further(MountAlong(s, f, qids[1..], lim - 1), 1)
  }

  function Further(r: Option<(nat, Id)>, k: nat): Option<(nat, Id)> {
    match r
    case None => None
    case Some((n, m)) => Some((n + k, m))
  }

  lemma FurtherNone()
    ensures forall r :: Further(r, 0) == r
  {}

  lemma FurtherTwice(r: Option<(nat, Id)>, k: nat)
    ensures Further(Further(r, 1), k) == Further(r, k + 1)
  {}

  lemma AlongOnce(s: Space, f: File, qids: seq<Qid>, lim: nat)
    requires qids != [] && lim > 0
    ensures MountAlong(s, f, qids, lim) == match MountOn(s.objs, s.table, f.(qid := qids[0]))
                                           case Some(m) => Some((1, m))
                                           case None => Further(MountAlong(s, f, qids[1..], lim - 1), 1)
  {}

  lemma AlongEnd(s: Space, f: File, qids: seq<Qid>, lim: nat)
    requires qids == [] || lim == 0
    ensures MountAlong(s, f, qids, lim) == None
  {}

  function AddSlots(h: seq<Option<Id>>, names: seq<string>, from: Option<Id>): seq<Option<Id>>
    decreases |names|
  {
    if names == [] then h
    else if |names| == 1 then AddSlot(h, names[0], from)
    else AddSlots(AddSlot(h, names[0], None), names[1..], from)
  }

  lemma SlotsOnce(h: seq<Option<Id>>, names: seq<string>, from: Option<Id>)
    requires names != []
    ensures AddSlots(h, names, from) == AddSlots(AddSlot(h, names[0], if |names| == 1 then from else None), names[1..], from)
  {}

  lemma SlotsDone(h: seq<Option<Id>>, from: Option<Id>)
    ensures AddSlots(h, [], from) == h
  {}

  function Down(s: Space, h: seq<Option<Id>>, f: File, w: Walkqid, names: seq<string>): (r: Round)
    requires names != []
    ensures r.On? ==> 1 <= r.n <= |names|
  {
    var at: Option<(nat, Id)> := if s.nomount then None else MountAlong(s, f, w.qids, |names| - 1);
    match at
    case Some((n, m)) => On(n, Spot(Mounted(s.objs, m), AddSlots(h, names[..n], From(s.objs, m)), Some(m)))
    case None =>
      if w.whole then On(|names|, Spot(Reached(f, w), AddSlots(h, names, None), None))
      else Stuck(if w.qids == [] || w.qids[|w.qids| - 1].dir then |w.qids| + 1 else |w.qids|)
  }

  lemma DownIs(s: Space, h: seq<Option<Id>>, f: File, w: Walkqid, names: seq<string>)
    requires names != []
    ensures var at: Option<(nat, Id)> := if s.nomount then None else MountAlong(s, f, w.qids, |names| - 1);
            && (at.Some? ==> Down(s, h, f, w, names) == On(at.value.0, Spot(Mounted(s.objs, at.value.1), AddSlots(h,
                names[..at.value.0], From(s.objs, at.value.1)), Some(at.value.1))))
            && (at == None && w.whole ==> Down(s, h, f, w, names) ==
                                          On(|names|, Spot(Reached(f, w), AddSlots(h, names, None), None)))
            && (at == None && !w.whole ==> Down(s, h, f, w, names) == Stuck(if w.qids ==
                [] || w.qids[|w.qids| - 1].dir then |w.qids| + 1 else |w.qids|))
  {}

  lemma NtryUp(names: seq<string>)
    requires names != [] && names[0] == ".."
    ensures Ntry(names) == 1
  {}

  /** The names that go in one message: ".." alone, or those before the next "..". */
  function Ntry(names: seq<string>): (n: nat)
    requires names != []
    ensures 1 <= n <= |names| && (forall i :: 1 <= i < n ==> names[i] != "..")
  {
    if names[0] == ".." then 1 else Before(names, 1, if |names| > MAXWELEM then MAXWELEM else |names|)
  }

  function Before(names: seq<string>, i: nat, n: nat): (k: nat)
    requires i <= n <= |names|
    ensures i <= k <= n && forall j :: i <= j < k ==> names[j] != ".."
    decreases n - i
  {
    if i == n || names[i] == ".." then i else Before(names, i + 1, n)
  }

  function Ready(s: Space, t: Spot, name: string): Spot {
    if name != ".." && !s.nomount && t.head == None then Crossed(s, t) else t
  }

  /** One round of walk. */
  function Batch(s: Space, t: Spot, names: seq<string>): (r: Round)
    requires names != []
    ensures r.On? ==> 1 <= r.n <= |names|
  {
    if !t.file.qid.dir then Stuck(0)
    else
      var seg := names[..Ntry(names)];
      var u := Ready(s, t, names[0]);
      match Answer(s, u, seg)
      case None => Stuck(1)
      case Some((f, w)) =>
        if names[0] == ".." then On(1, Up(s, u, Reached(f, w))) else Down(s, u.hist, f, w, seg)
  }

  function Shift(e: End, n: nat): End { if e.Nowhere? then Nowhere(n + e.nerr) else e }

  function Batches(s: Space, t: Spot, names: seq<string>): End
    decreases |names|
  {
    if names == [] then There(t)
    else
      match Batch(s, t, names)
      case Stuck(e) => Nowhere(e)
      case On(n, u) => Shift(Batches(s, u, names[n..]), n)
  }

  /** A ".." leads to a channel of the history: a mount was crossed where it goes. */
  predicate Uncrosses(h: seq<Option<Id>>, name: string) { name == ".." && Top(AddSlot(h, name, None)).Some? }

  /** Whether a walk ends with a channel that others have too: without names it is the
      caller's, and after a ".." back over a mount point it is one of the history. Any
      other is a new one from the device. */
  predicate Shared(s: Space, t: Spot, names: seq<string>)
    decreases |names|
  {
    || names == []
    || match Batch(s, t, names)
       case Stuck(_) => false
       case On(n, u) => if n == |names| then Uncrosses(t.hist, names[0]) else Shared(s, u, names[n..])
  }

  lemma SharedOn(s: Space, t: Spot, names: seq<string>)
    requires names != [] && Batch(s, t, names).On?
    ensures var r := Batch(s, t, names);
            Shared(s, t, names) == if r.n == |names| then Uncrosses(t.hist, names[0]) else Shared(s, r.spot, names[r.n..])
  {}

  /** The same, told by the last name and the history it is taken from. */
  lemma {:induction false} SharedAtLast(s: Space, t: Spot, names: seq<string>)
    requires Batches(s, t, names).There?
    ensures Shared(s, t, names) <==>
      || names == []
      || var k := |names| - 1;
         var e := Batches(s, t, names[..k]);
         names[k] == ".." && e.There? && Uncrosses(e.spot.hist, "..")
    decreases |names|
  {
    hide Uncrosses, Batch;
    if names != [] {
      var r, k := Batch(s, t, names), |names| - 1;
      var n, front := r.n, names[..k];
      WithinSegment(s, t, names);
      NeverUp(t.hist, names[0]);
      if n < |names| {
        SharedAtLast(s, r.spot, names[n..]);
        assert names[n..][|names| - n - 1] == names[k] && names[n..][..k - n] == front[n..];
        if names[k] == ".." {
          FrontBatch(s, t, names);
        }
      }
    }
  }

  lemma NeverUp(h: seq<Option<Id>>, name: string)
    ensures Uncrosses(h, name) ==> name == ".."
  {}

  lemma WithinSegment(s: Space, t: Spot, names: seq<string>)
    requires names != [] && Batch(s, t, names).On?
    ensures var n := Batch(s, t, names).n;
            && 1 <= n <= |names| && (names[0] == ".." ==> n == 1) && forall i :: 1 <= i < n ==> names[i] != ".."
  {
    hide Answer, Ready;
  }

  /** A ".." at the end is not part of an earlier message. */
  lemma FrontBatch(s: Space, t: Spot, names: seq<string>)
    requires |names| > 1 && names[|names| - 1] == ".."
    ensures Batch(s, t, names[..|names| - 1]) == Batch(s, t, names)
  {
    hide Answer, Ready, Down, Up;
    var front := names[..|names| - 1];
    if names[0] != ".." {
      BeforeFront(names, 1);
    }
    assert front[..Ntry(front)] == names[..Ntry(names)];
  }

  lemma {:induction false} BeforeFront(names: seq<string>, i: nat)
    requires |names| > 1 && names[|names| - 1] == ".." && 1 <= i < |names| && i <= MAXWELEM
    ensures var front := names[..|names| - 1];
            Before(names, i, if |names| > MAXWELEM then MAXWELEM else |names|)
            == Before(front, i, if |front| > MAXWELEM then MAXWELEM else |front|)
    decreases |names| - i
  {
    if i < |names| - 1 && i < MAXWELEM && names[i] != ".." {
      BeforeFront(names, i + 1);
    }
  }

  // ---- One at a time ----

  /** Crosses the mount point, if this is one, asks for one name, and notes it. */
  function Step(s: Space, t: Spot, name: string): Round {
    if !t.file.qid.dir then Stuck(0)
    else
      var u := Ready(s, t, name);
      match Answer(s, u, [name])
      case None => Stuck(1)
      case Some((f, w)) =>
        if name == ".." then On(1, Up(s, u, Reached(f, w)))
        else On(1, Spot(Reached(f, w), AddSlot(u.hist, name, None), None))
  }

  function Steps(s: Space, t: Spot, names: seq<string>): End
    decreases |names|
  {
    if names == [] then There(t)
    else
      match Step(s, t, names[0])
      case Stuck(e) => Nowhere(e)
      case On(_, u) => Shift(Steps(s, u, names[1..]), 1)
  }

  /** The qids of the names that can be walked in turn. */
  function Along(dev: Device, f: File, names: seq<string>): seq<Qid>
    decreases |names|
  {
    if names == [] then []
    else
      match Ask(dev, f, [names[0]])
      case None => []
      case Some(w) => if w.qids == [] then [] else [w.qids[0]] + Along(dev, f.(qid := w.qids[0]), names[1..])
  }

  /** walk(5): the names are walked in turn as far as they go, it is an error if the first
      cannot be walked, and only directories can be walked from. */
  ghost predicate Stepwise(dev: Device) {
    && (forall f: File, names: seq<string> :: names != [] ==>
          Ask(dev, f, names) == var q := Along(dev, f, names); if q == [] then None else Some(Walkqid(q, |q| == |names|)))
    && (forall f: File, name: string :: !f.qid.dir ==> Ask(dev, f, [name]) == None)
  }

  /** A directory is mounted on a directory, a file on a file: cmount sees to that. */
  predicate SameKind(s: Space, f: File) {
    var m := MountOn(s.objs, s.table, f); m.Some? ==> Mounted(s.objs, m.value).qid.dir == f.qid.dir
  }

  /** And so it is for the files that devices answer with. */
  ghost predicate DirsOk(s: Space) {
    forall f: File, name: string :: var w := Ask(s.dev, f, [name]);
      w.Some? && w.value.qids != [] ==> SameKind(s, f.(qid := w.value.qids[0]))
  }

  lemma AskOne(dev: Device, f: File, names: seq<string>)
    requires Stepwise(dev) && names != []
    ensures Ask(dev, f, names) == var q := Along(dev, f, names); if q == [] then None else Some(Walkqid(q, |q| == |names|))
    ensures var w := Ask(dev, f, [names[0]]);
            && (w == None <==> Ask(dev, f, names) == None)
            && (w.Some? ==> |w.value.qids| == 1 && w.value.whole
                            && Along(dev, f, names) == w.value.qids + Along(dev, f.(qid := w.value.qids[0]), names[1..]))
  {
    var one := [names[0]];
    assert one[1..] == [] && one[0] == names[0];
    assert Along(dev, f, one) == match Ask(dev, f, one) case None => [] case Some(w) => if w.qids == [] then [] else [w.qids[0]];
  }

  lemma {:induction false} UnionFirst(s: Space, l: seq<Id>, names: seq<string>)
    requires Stepwise(s.dev) && names != []
    ensures var a, b := UnionAsk(s, l, names), UnionAsk(s, l, [names[0]]);
            (a == None <==> b == None) && (a.Some? ==> a.value.0 == b.value.0 &&
                                                       Answers(s.dev, names, a.value.0, a.value.1, b.value.1))
  {
    if l != [] {
      AskOne(s.dev, FileAt(s.objs, l[0]), names);
      UnionFirst(s, l[1..], names);
    }
  }

  ghost predicate Answers(dev: Device, names: seq<string>, f: File, w: Walkqid, v: Walkqid) {
    && w == Walkqid(Along(dev, f, names), |Along(dev, f, names)| == |names|) && |v.qids| == 1 && w.qids != [] && names != []
    && w.qids == v.qids + Along(dev, f.(qid := v.qids[0]), names[1..])
  }

  /** Whoever answers for a batch is who answers for its first name. */
  lemma AnswerFirst(s: Space, t: Spot, names: seq<string>)
    requires Stepwise(s.dev) && names != []
    ensures var a, b := Answer(s, t, names), Answer(s, t, [names[0]]);
            (a == None <==> b == None) && (a.Some? ==> a.value.0 == b.value.0 &&
                                                       Answers(s.dev, names, a.value.0, a.value.1, b.value.1))
  {
    AskOne(s.dev, t.file, names);
    if t.head.Some? && Mounts(s.objs, t.head.value) != [] {
      UnionFirst(s, Mounts(s.objs, t.head.value)[1..], names);
    }
  }

  /** What a round leaves to be done. */
  function Rest(s: Space, r: Round, names: seq<string>): End
    requires r.On? ==> r.n <= |names|
  {
    match r
    case Stuck(e) => Nowhere(e)
    case On(n, u) => Shift(Batches(s, u, names[n..]), n)
  }

  lemma ShiftTwice(e: End, m: nat, n: nat)
    ensures Shift(Shift(e, m), n) == Shift(e, m + n)
  {}

  /** The names of one message, of which the first has been walked. */
  lemma {:induction false} SegmentIsSteps(s: Space, h: seq<Option<Id>>, f: File, w: Walkqid, names: seq<string>, k: nat)
    requires Stepwise(s.dev) && DirsOk(s) && "." !in names && 1 <= k <= |names| && forall i :: 0 <= i < k ==> names[i] != ".."
    requires w.qids != [] && w == Walkqid(Along(s.dev, f, names[..k]), |Along(s.dev, f, names[..k])| == k)
    ensures Rest(s, Down(s, h, f, w, names[..k]), names)
         == Shift(Steps(s, Spot(f.(qid := w.qids[0]), AddSlot(h, names[0], None), None), names[1..]), 1)
    decreases |names|, k
  {
    var g, h1 := f.(qid := w.qids[0]), AddSlot(h, names[0], None);
    var t := Spot(g, h1, None);
    AskOne(s.dev, f, names[..k]);
    assert names[..k][0] == names[0] && SameKind(s, g);
    BatchesAreSteps(s, t, names[1..]);
    var m := MountOn(s.objs, s.table, g);
    if k == 1 {
      assert names[..1][1..] == [] && w.qids == [w.qids[0]];
    } else if !s.nomount && m.Some? {
      assert MountAlong(s, f, w.qids, k - 1) == Some((1, m.value));
      assert names[..k][..1] == [names[0]] && names[1..][0] == names[1];
      assert AddSlots(h, [names[0]], From(s.objs, m.value)) == SetTop(h1, From(s.objs, m.value));
    } else {
      WalksOn(s, h, f, w, names, k);
    }
  }

  /** The same with nothing mounted on the file reached. */
  lemma {:induction false} WalksOn(s: Space, h: seq<Option<Id>>, f: File, w: Walkqid, names: seq<string>, k: nat)
    requires Stepwise(s.dev) && DirsOk(s) && "." !in names && 1 < k <= |names| && forall i :: 0 <= i < k ==> names[i] != ".."
    requires w.qids != [] && w == Walkqid(Along(s.dev, f, names[..k]), |Along(s.dev, f, names[..k])| == k)
    requires s.nomount || MountOn(s.objs, s.table, f.(qid := w.qids[0])) == None
    ensures Rest(s, Down(s, h, f, w, names[..k]), names)
         == Shift(Steps(s, Spot(f.(qid := w.qids[0]), AddSlot(h, names[0], None), None), names[1..]), 1)
    decreases |names|, k - 1
  {
    hide Stepwise, DirsOk, Down, AddSlot, Batches, Along, Step, MountOn, Rest;
    var g, h1, n := f.(qid := w.qids[0]), AddSlot(h, names[0], None), names[1..];
    var t, seg := Spot(g, h1, None), names[1..][..k - 1];
    assert names[..k][1..] == seg && names[..k][0] == names[0] && seg[0] == n[0];
    AskOne(s.dev, f, names[..k]);
    assert w.qids[1..] == Along(s.dev, g, seg);
    AskOne(s.dev, g, seg);
    StepPlain(s, t, n[0]);
    NotFromFile(s.dev, g, n[0]);
    if w.qids[1..] == [] {
      StuckThere(s, h, f, w, names, k);
    } else {
      var v := Walkqid(w.qids[1..], w.whole);
      var one := Ask(s.dev, g, [n[0]]);
      assert one.value.qids[0] == w.qids[1] && |one.value.qids| == 1;
      assert Reached(g, one.value) == g.(qid := v.qids[0]);
      SegmentIsSteps(s, h1, g, v, n, k - 1);
      DownMore(s, h, f, w, names[..k]);
      SameRest(s, Down(s, h, f, w, names[..k]), Down(s, h1, g, v, seg), names);
      assert g.(qid := v.qids[0]) == f.(qid := w.qids[1]);
      ShiftTwice(Steps(s, Spot(g.(qid := v.qids[0]), AddSlot(h1, n[0], None), None), n[1..]), 1, 1);
    }
  }

  lemma StepPlain(s: Space, t: Spot, name: string)
    requires t.head == None && name != ".." && (s.nomount || MountOn(s.objs, s.table, t.file) == None)
    ensures Step(s, t, name) == StepOn(s, t, name)
  {}

  lemma NotFromFile(dev: Device, f: File, name: string)
    requires Stepwise(dev)
    ensures !f.qid.dir ==> Ask(dev, f, [name]) == None
  {}

  lemma StuckThere(s: Space, h: seq<Option<Id>>, f: File, w: Walkqid, names: seq<string>, k: nat)
    requires 1 < k <= |names| && |w.qids| == 1 && !w.whole
    requires s.nomount || MountOn(s.objs, s.table, f.(qid := w.qids[0])) == None
    ensures Rest(s, Down(s, h, f, w, names[..k]), names) == Nowhere(if w.qids[0].dir then 2 else 1)
  {
    assert MountAlong(s, f, w.qids[1..], k - 2) == None;
  }

  /** A step where nothing is mounted. */
  function StepOn(s: Space, t: Spot, name: string): Round {
    if !t.file.qid.dir then Stuck(0)
    else
      match Ask(s.dev, t.file, [name])
      case None => Stuck(1)
      case Some(w) => On(1, Spot(Reached(t.file, w), AddSlot(t.hist, name, None), None))
  }

  /** With nothing mounted on the first file, a walk down is one from there. */
  lemma DownMore(s: Space, h: seq<Option<Id>>, f: File, w: Walkqid, names: seq<string>)
    requires |names| > 1 && |w.qids| > 1 && (s.nomount || MountOn(s.objs, s.table, f.(qid := w.qids[0])) == None)
    ensures Down(s, h, f, w, names) == Later(Down(s, AddSlot(h, names[0], None), f.(qid := w.qids[0]),
        Walkqid(w.qids[1..], w.whole), names[1..]))
  {
    var g := f.(qid := w.qids[0]);
    SameDevice(s, f, g, w.qids[1..], |names| - 2);
    var r := MountAlong(s, f, w.qids[1..], |names| - 2);
    if !s.nomount && r.Some? {
      var n := r.value.0;
      assert names[..n + 1][1..] == names[1..][..n] && names[..n + 1][0] == names[0];
    }
  }

  lemma {:induction false} SameDevice(s: Space, f: File, g: File, qids: seq<Qid>, lim: nat)
    requires f.ty == g.ty && f.dev == g.dev
    ensures MountAlong(s, f, qids, lim) == MountAlong(s, g, qids, lim)
  {
    if qids != [] && lim > 0 {
      assert f.(qid := qids[0]) == g.(qid := qids[0]);
      SameDevice(s, f, g, qids[1..], lim - 1);
    }
  }

  function Later(r: Round): Round { if r.On? then On(r.n + 1, r.spot) else Stuck(r.nerr + 1) }

  lemma SameRest(s: Space, q: Round, r: Round, names: seq<string>)
    requires names != [] && q == Later(r) && (r.On? ==> r.n < |names|)
    ensures Rest(s, q, names) == Shift(Rest(s, r, names[1..]), 1)
  {
    if r.On? {
      assert names[1..][r.n..] == names[r.n + 1..];
    }
  }

  /** walk in batches is walk one name at a time. */
  lemma {:induction false} BatchesAreSteps(s: Space, t: Spot, names: seq<string>)
    requires Stepwise(s.dev) && DirsOk(s) && "." !in names && t.head == None
    ensures Batches(s, t, names) == Steps(s, t, names)
    ensures SameKind(s, t.file) && names != [] && Ready(s, t, names[0]).head.Some? ==>
        Batches(s, Crossed(s, t), names) == Steps(s, t, names)
    decreases |names|, |names| + 1
  {
    hide Stepwise, DirsOk, UnionAsk, MountAlong, MountOn, Ask;
    if names != [] && t.file.qid.dir {
      var u, k := Ready(s, t, names[0]), Ntry(names);
      var seg := names[..k];
      AnswerFirst(s, u, seg);
      assert seg[0] == names[0];
      var a := Answer(s, u, seg);
      assert Ready(s, u, names[0]) == u by { CrossedOnce(s, t, names[0]); }
      if a.Some? {
        var f, w := a.value.0, a.value.1;
        if names[0] == ".." {
          assert seg == [".."];
          BatchesAreSteps(s, Up(s, u, Reached(f, w)), names[1..]);
        } else {
          SegmentIsSteps(s, u.hist, f, w, names, k);
        }
      }
    }
  }

  lemma CrossedOnce(s: Space, t: Spot, name: string)
    requires t.head == None
    ensures Ready(s, Ready(s, t, name), name) == Ready(s, t, name)
  {}

  /** A device on which ".." leads back to the directory a name was walked from. */
  ghost predicate GoesBack(dev: Device) {
    forall f: File, name: string :: var w := Ask(dev, f, [name]);
      w.Some? && w.value.qids != [] && name != ".." && Reached(f, w.value).qid.dir ==>
        Ask(dev, Reached(f, w.value), [".."]) == Some(Walkqid([f.qid], true))
  }

  /** A step down and a step up lead back to the same file with the same history, though
      a mount point was crossed and a member of its union answered. */
  lemma BackAgain(s: Space, t: Spot, name: string)
    requires Stepwise(s.dev) && GoesBack(s.dev) && name != "." && name != ".."
    requires t.head == None && t.hist != [] && Top(t.hist) == None
    requires Step(s, t, name).On? && Step(s, t, name).spot.file.qid.dir
    ensures var r := Step(s, Step(s, t, name).spot, "..");
            && r.On? && r.spot.hist == t.hist && r.spot.head == None
            && r.spot.file.(qid := t.file.qid) == t.file && r.spot.file.qid.path == t.file.qid.path
  {
    var u := Ready(s, t, name);
    AnswerFirst(s, u, [name]);
    var f, w := Answer(s, u, [name]).value.0, Answer(s, u, [name]).value.1;
    MountOnIs(s.objs, s.table, t.file);
    AnsweredBy(s, u, [name]);
    assert (u.hist + [None])[..|u.hist|] == u.hist;
    var v := Spot(Reached(f, w), u.hist + [None], None);
    assert w.qids != [];
    assert Ask(s.dev, f, [name]) == Some(w);
    assert Ask(s.dev, v.file, [".."]) == Some(Walkqid([f.qid], true));
    assert Step(s, t, name) == On(1, v);
    assert Step(s, v, "..") == On(1, Up(s, v, f));
    if MountOn(s.objs, s.table, t.file).Some? && !s.nomount {
      assert SetTop(u.hist, None) == t.hist;
    }
  }

  lemma {:induction false} MountOnIs(objs: Objs, table: seq<Id>, f: File)
    ensures MountOn(objs, table, f).Some? ==> OnHead(objs, MountOn(objs, table, f).value, f)
  {
    if table != [] {
      MountOnIs(objs, table[1..], f);
    }
  }

  lemma AnsweredBy(s: Space, t: Spot, names: seq<string>)
    ensures var a := Answer(s, t, names); a.Some? ==> Ask(s.dev, a.value.0, names) == Some(a.value.1)
  {
    if t.head.Some? && Mounts(s.objs, t.head.value) != [] {
      UnionBy(s, Mounts(s.objs, t.head.value)[1..], names);
    }
  }

  lemma {:induction false} UnionBy(s: Space, l: seq<Id>, names: seq<string>)
    ensures var a := UnionAsk(s, l, names); a.Some? ==> Ask(s.dev, a.value.0, names) == Some(a.value.1)
  {
    if l != [] {
      UnionBy(s, l[1..], names);
    }
  }

  // ---- Who answers, and where it leads ----

  predicate Refuses(s: Space, f: File, name: string) { s.dev(f.ty, f.dev, f.qid, [name]) == None }

  /** The file that the device leads to from f. */
  function LedTo(s: Space, f: File, name: string): File
    requires !Refuses(s, f, name)
  {
    var q := s.dev(f.ty, f.dev, f.qid, [name]).value.qids;
    if q == [] then f else File(f.ty, f.dev, q[|q| - 1])
  }

  /** The first of the files that does not refuse, or their number. */
  lemma {:induction false} UnionFrom(s: Space, l: seq<Id>, name: string) returns (i: nat)
    ensures i <= |l| && forall j :: 0 <= j < i ==> Refuses(s, FileAt(s.objs, l[j]), name)
    ensures i < |l| ==> var f := FileAt(s.objs, l[i]);
        !Refuses(s, f, name) && UnionAsk(s, l, [name]) == Some((f, s.dev(f.ty, f.dev, f.qid, [name]).value))
    ensures i == |l| ==> UnionAsk(s, l, [name]) == None
  {
    if l == [] || !Refuses(s, FileAt(s.objs, l[0]), name) {
      i := 0;
    } else {
      var k := UnionFrom(s, l[1..], name);
      i := k + 1;
      forall j | 0 <= j < i ensures Refuses(s, FileAt(s.objs, l[j]), name) {
        assert j > 0 ==> l[j] == l[1..][j - 1];
      }
    }
  }

  /** A step within a mount point asks the file it is at, which is the first channel
      mounted there, and after it the others in the order of the list. It fails exactly
      if all refuse, and leads where the first that does not refuse leads. */
  lemma UnionInOrder(s: Space, t: Spot, name: string, m: Id) returns (n: nat)
    requires t.file.qid.dir && t.head == Some(m) && m in s.objs && s.objs[m].Mhead? && !s.nomount
    requires name != ".." && s.objs[m].mount != []
    ensures var l, r := s.objs[m].mount, Step(s, t, name);
            && 1 <= n <= |l| && (forall j :: 1 <= j < n ==> Refuses(s, FileAt(s.objs, l[j]), name))
            && (n < |l| ==> !Refuses(s, FileAt(s.objs, l[n]), name))
            && (r.Stuck? <==> Refuses(s, t.file, name) && n == |l|) && (r.Stuck? ==> r.nerr == 1)
            && (r.On? ==> && r.spot.head == None && r.spot.hist == t.hist + (if name == "." then [] else [None])
                          && r.spot.file == if Refuses(s, t.file, name) then LedTo(s, FileAt(s.objs, l[n]), name)
                                            else LedTo(s, t.file, name))
  {
    hide UnionAsk;
    var l := s.objs[m].mount;
    var k := l[1..];
    assert forall i :: 0 <= i < |k| ==> k[i] == l[i + 1];
    var i := UnionFrom(s, k, name);
    n := i + 1;
    forall j | 1 <= j < n ensures Refuses(s, FileAt(s.objs, l[j]), name) {
      assert l[j] == k[j - 1];
    }
    if i < |k| {
      assert l[n] == k[i];
    }
  }

  /** Outside a mount point only the file itself is asked. */
  lemma AloneAnswers(s: Space, t: Spot, name: string)
    requires t.file.qid.dir && (t.head == None || s.nomount) && name != ".."
    requires s.nomount || forall i :: 0 <= i < |s.table| ==> !OnHead(s.objs, s.table[i], t.file)
    ensures var r := Step(s, t, name);
            && (r.Stuck? <==> Refuses(s, t.file, name)) && (r.Stuck? ==> r.nerr == 1)
            && (r.On? ==> && r.spot.file == LedTo(s, t.file, name) && r.spot.head == None
                          && r.spot.hist == t.hist + if name == "." then [] else [None])
  {
    NoMountOn(s.objs, s.table, t.file);
  }

  /** ".." outside a mount point: the last slot goes. If the one before it names a file that
      was mounted upon, that is where it leads, and the slot is emptied. */
  lemma UpLeads(s: Space, t: Spot)
    requires t.file.qid.dir && (t.head == None || s.nomount)
    ensures var r := Step(s, t, "..");
            var h := if |t.hist| > 1 then t.hist[..|t.hist| - 1] else t.hist;
            && (r.Stuck? <==> Refuses(s, t.file, "..")) && (r.Stuck? ==> r.nerr == 1) && (r.On? ==> r.spot.head == None)
            && (r.On? ==>
                  if h != [] && h[|h| - 1].Some? then
                    r.spot.file == FileAt(s.objs, h[|h| - 1].value) && r.spot.hist == h[..|h| - 1] + [None]
                  else r.spot.file == LedTo(s, t.file, "..") && r.spot.hist == h)
  {}

  /** Nothing leads on from what is no directory. */
  lemma FileStops(s: Space, t: Spot, name: string)
    requires !t.file.qid.dir
    ensures Step(s, t, name) == Stuck(0)
  {}

  /** A walk is a chain of steps: it goes as far as they do. */
  lemma {:induction false} StepsChain(s: Space, t: Spot, front: seq<string>, name: string)
    ensures var e := Steps(s, t, front);
            Steps(s, t, front + [name]) ==
            if e.Nowhere? then e
            else if Step(s, e.spot, name).Stuck? then Nowhere(|front| + Step(s, e.spot, name).nerr)
            else There(Step(s, e.spot, name).spot)
    decreases |front|
  {
    hide Step;
    if front == [] {
      assert [] + [name] == [name] && [name][1..] == [];
    } else {
      assert (front + [name])[1..] == front[1..] + [name];
      if Step(s, t, front[0]).On? {
        StepsChain(s, Step(s, t, front[0]).spot, front[1..], name);
      }
    }
  }

  lemma {:induction false} NoMountOn(objs: Objs, table: seq<Id>, f: File)
    ensures MountOn(objs, table, f) == None <==> forall i :: 0 <= i < |table| ==> !OnHead(objs, table[i], f)
    ensures MountOn(objs, table, f).Some? ==>
      exists i :: 0 <= i < |table| && MountOn(objs, table, f) == Some(table[i]) && OnHead(objs, table[i], f)
                  && forall j :: 0 <= j < i ==> !OnHead(objs, table[j], f)
  {
    hide OnHead;
    if table != [] && !OnHead(objs, table[0], f) {
      NoMountOn(objs, table[1..], f);
      forall i | 0 < i < |table| ensures table[i] == table[1..][i - 1] {}
      if MountOn(objs, table, f).Some? {
        var i :| 0 <= i < |table| - 1 && MountOn(objs, table[1..], f) == Some(table[1..][i]) && OnHead(objs, table[1..][i], f)
          && forall j :: 0 <= j < i ==> !OnHead(objs, table[1..][j], f);
        assert table[i + 1] == table[1..][i];
        forall j | 0 <= j < i + 1 ensures !OnHead(objs, table[j], f) {
          assert j > 0 ==> table[j] == table[1..][j - 1];
        }
      }
    }
  }

  /** A step from a file that is mounted upon begins at the first channel of the first head
      for it, and the history notes the file. */
  lemma CrossesFirst(s: Space, t: Spot, name: string, i: nat)
    requires t.head == None && !s.nomount && name != ".." && i < |s.table| && t.file.qid.dir
    requires OnHead(s.objs, s.table[i], t.file) && forall j :: 0 <= j < i ==> !OnHead(s.objs, s.table[j], t.file)
    requires s.objs[s.table[i]].mount != []
    ensures var h := s.objs[s.table[i]];
            var u := Spot(FileAt(s.objs, h.mount[0]),
                          if t.hist == [] then [] else t.hist[..|t.hist| - 1] + [Some(h.from)], Some(s.table[i]));
            u.file.qid.dir ==> Step(s, t, name) == Step(s, u, name)
  {
    hide OnHead, Answer, AddSlot;
    NoMountOn(s.objs, s.table, t.file);
    HeadThere(s.objs, s.table[i], t.file);
  }

  /** The k-th member is the first that does not refuse. */
  predicate FirstToAnswer(s: Space, l: seq<Id>, name: string, k: nat) {
    && k < |l| && !Refuses(s, FileAt(s.objs, l[k]), name)
    && forall j :: 0 <= j < k ==> Refuses(s, FileAt(s.objs, l[j]), name)
  }

  predicate AllRefuse(s: Space, l: seq<Id>, name: string) {
    forall k :: 0 <= k < |l| ==> Refuses(s, FileAt(s.objs, l[k]), name)
  }

  /** f is where the first member that does not refuse leads. */
  ghost predicate LedByFirst(s: Space, l: seq<Id>, name: string, f: File) {
    exists k: nat :: FirstToAnswer(s, l, name, k) && f == LedTo(s, FileAt(s.objs, l[k]), name)
  }

  /** A step from a file mounted upon asks the channels mounted there, from the first. */
  lemma StepIntoUnion(s: Space, t: Spot, name: string, i: nat)
    requires t.head == None && !s.nomount && name != ".." && i < |s.table| && t.file.qid.dir
    requires OnHead(s.objs, s.table[i], t.file) && forall j :: 0 <= j < i ==> !OnHead(s.objs, s.table[j], t.file)
    requires s.objs[s.table[i]].mount != [] && FileAt(s.objs, s.objs[s.table[i]].mount[0]).qid.dir
    ensures var l, r := s.objs[s.table[i]].mount, Step(s, t, name);
            && (r.Stuck? <==> AllRefuse(s, l, name)) && (r.Stuck? ==> r.nerr == 1)
            && (r.On? ==> LedByFirst(s, l, name, r.spot.file))
  {
    hide Step, Refuses, LedTo;
    var h := s.objs[s.table[i]];
    var l := h.mount;
    var u := Spot(FileAt(s.objs, l[0]), if t.hist == [] then [] else t.hist[..|t.hist| - 1] + [Some(h.from)], Some(s.table[i]));
    CrossesFirst(s, t, name, i);
    HeadThere(s.objs, s.table[i], t.file);
    var n := UnionInOrder(s, u, name, s.table[i]);
    var k := if Refuses(s, u.file, name) then n else 0;
    assert k < |l| ==> FirstToAnswer(s, l, name, k);
  }

  lemma HeadThere(objs: Objs, m: Id, f: File)
    requires OnHead(objs, m, f)
    ensures m in objs && objs[m].Mhead?
  {}
}
