/**
 The reader/writer lock of kern/rwlock.c, over the hand-off lock of kern/qlock.c, over
 the counted sleep and wakeup of kern/posix.c. Any number of processes lock and unlock
 in any interleaving; a section under a spin lock is one step, and so is each of
 incrementing nsleep, finding the counters balanced, and incrementing nwakeup.
 */
module RwLock {
  import opened Bytes

  type Pid = nat

  /** joined and served record in which order processes queued and got the lock. */
  datatype Qlock = Qlock(hold: Option<Pid>, queue: seq<Pid>, joined: seq<Pid>, served: seq<Pid>)

  /** w tells a writer from a reader. Sleep: queued, before nsleep++ of procsleep; Wait: in
      its loop. TryK: readers counted, before canqlock. UnlX: before qunlock(&x). Wake: the
      lock is handed to q, before procwakeup(q). Last: readers is 0, before qunlock(&k). */
  datatype Pc =
    | Idle
    | SleepX(w: bool) | WaitX(w: bool) | HasX(w: bool) | UnlX(w: bool) | WakeX(w: bool, q: Pid)
    | TryK | Reading | Last | WakeLast(q: Pid)
    | SleepK | WaitK | Writing | WakeK(q: Pid)

  datatype Proc = Proc(pc: Pc, nsleep: nat, nwakeup: nat)

  datatype State = State(procs: map<Pid, Proc>, x: Qlock, k: Qlock, readers: int, lk: Option<Pid>)

  // ---- kern/qlock.c ----

  /** qlock: whether it got the lock at once, or queued up. */
  function Qlocked(l: Qlock, p: Pid): (Qlock, bool) {
    if l.hold == None then (l.(hold := Some(p)), true)
    else (l.(queue := l.queue + [p], joined := l.joined + [p]), false)
  }

  function Canqlocked(l: Qlock, p: Pid): Qlock {
    if l.hold == None then l.(hold := Some(p)) else l
  }

  /** qunlock hands the lock to the first in the queue, who has to be woken. */
  function Qunlocked(l: Qlock): Qlock {
    if l.queue == [] then l.(hold := None)
    else Qlock(Some(l.queue[0]), l.queue[1..], l.joined, l.served + [l.queue[0]])
  }

  // ---- Steps ----

  function Pcof(s: State, p: Pid): Pc
    requires p in s.procs
  {
    s.procs[p].pc
  }

  function Goto(s: State, p: Pid, pc: Pc): State
    requires p in s.procs
  {
    s.(procs := s.procs[p := s.procs[p].(pc := pc)])
  }

  /** procwakeup(q), and p goes on. */
  function Waken(s: State, p: Pid, q: Pid, pc: Pc): State
    requires p in s.procs && q in s.procs
  {
    var s1 := s.(procs := s.procs[q := s.procs[q].(nwakeup := s.procs[q].nwakeup + 1)]);
    Goto(s1, p, pc)
  }

  function CountSleep(s: State, p: Pid, pc: Pc): State
    requires p in s.procs
  {
    s.(procs := s.procs[p := Proc(pc, s.procs[p].nsleep + 1, s.procs[p].nwakeup)])
  }

  function Done(w: bool): Pc { if w then Idle else Reading }

  predicate Enabled(s: State, p: Pid) {
    && p in s.procs
    && match Pcof(s, p)
       case WaitX(_) => s.procs[p].nsleep <= s.procs[p].nwakeup
       case WaitK => s.procs[p].nsleep <= s.procs[p].nwakeup
       case HasX(w) => !w ==> s.lk == None
       case Reading => s.lk == None
       case WakeX(_, q) => q in s.procs
       case WakeLast(q) => q in s.procs
       case WakeK(q) => q in s.procs
       case _ => true
  }

  /** The next step of p; write says whether an idle process starts to write. */
  function Step(s: State, p: Pid, write: bool): State
    requires Enabled(s, p)
  {
    match Pcof(s, p)
    case Idle =>
      var (x, got) := Qlocked(s.x, p);
      Goto(s.(x := x), p, if got then HasX(write) else SleepX(write))
    case SleepX(w) => CountSleep(s, p, WaitX(w))
    case WaitX(w) => Goto(s, p, HasX(w))
    case HasX(w) =>
      if w then
        var (k, got) := Qlocked(s.k, p);
        Goto(s.(k := k), p, if got then Writing else SleepK)
      else Goto(s.(lk := Some(p), readers := s.readers + 1), p, TryK)
    case TryK => Goto(s.(k := Canqlocked(s.k, p), lk := None), p, UnlX(false))
    case UnlX(w) =>
      Goto(s.(x := Qunlocked(s.x)), p, if s.x.queue == [] then Done(w) else WakeX(w, s.x.queue[0]))
    case WakeX(w, q) => Waken(s, p, q, Done(w))
    case Reading =>
      if s.readers == 1 then Goto(s.(readers := 0, lk := Some(p)), p, Last)
      else Goto(s.(readers := s.readers - 1), p, Idle)
    case Last =>
      if s.k.queue == [] then Goto(s.(k := Qunlocked(s.k), lk := None), p, Idle)
      else Goto(s.(k := Qunlocked(s.k)), p, WakeLast(s.k.queue[0]))
    case WakeLast(q) => Waken(s.(lk := None), p, q, Idle)
    case SleepK => CountSleep(s, p, WaitK)
    case WaitK => Goto(s, p, Writing)
    case Writing =>
      Goto(s.(k := Qunlocked(s.k)), p, if s.k.queue == [] then UnlX(true) else WakeK(s.k.queue[0]))
    case WakeK(q) => Waken(s, p, q, UnlX(true))
  }

  predicate Init(s: State) {
    && (forall p :: p in s.procs ==> s.procs[p] == Proc(Idle, 0, 0))
    && s.x == s.k == Qlock(None, [], [], [])
    && s.readers == 0 && s.lk == None
  }

  // ---- The invariant ----

  predicate InX(pc: Pc) { pc.SleepX? || pc.WaitX? }

  predicate InK(pc: Pc) { pc.SleepK? || pc.WaitK? }

  /** Stages at which a process has the x lock without waiting for anything. */
  predicate OwnsX(pc: Pc) { pc.HasX? || pc.TryK? || pc.UnlX? || pc.Writing? || pc.WakeK? }

  /** nwakeup - nsleep when the process has not been woken. */
  function Low(pc: Pc): int { if pc.WaitX? || pc.WaitK? then -1 else 0 }

  function Credit(s: State, p: Pid): int
    requires p in s.procs
  {
    s.procs[p].nwakeup - s.procs[p].nsleep
  }

  /** p has queued for x, or for k, and has been handed it. */
  predicate Granted(s: State, p: Pid)
    requires p in s.procs
  {
    (InX(Pcof(s, p)) && p !in s.x.queue) || (InK(Pcof(s, p)) && p !in s.k.queue)
  }

  /** One process: where it is queued, what it holds, and how its counters stand. */
  predicate ProcInv(s: State, p: Pid)
    requires p in s.procs
  {
    var pc, c := Pcof(s, p), Credit(s, p);
    && (p in s.x.queue ==> InX(pc))
    && (p in s.k.queue ==> InK(pc))
    && (OwnsX(pc) || InK(pc) || (InX(pc) && p !in s.x.queue) <==> s.x.hold == Some(p))
    && (pc.TryK? || pc.Last? || pc.WakeLast? <==> s.lk == Some(p))
    && (c == Low(pc) || (Granted(s, p) && c == Low(pc) + 1))
  }

  /** The process that a process at this stage is about to wake. */
  function Target(pc: Pc): Option<Pid> {
    match pc
    case WakeX(_, q) => Some(q)
    case WakeK(q) => Some(q)
    case WakeLast(q) => Some(q)
    case _ => None
  }

  /** Who is about to be woken has been handed the lock, and has not been woken. */
  predicate WakerInv(s: State, p: Pid)
    requires p in s.procs
  {
    var t := Target(Pcof(s, p));
    t.Some? ==>
      && t.value in s.procs && p != t.value
      && Granted(s, t.value) && Credit(s, t.value) == Low(Pcof(s, t.value))
      && InX(Pcof(s, t.value)) == Pcof(s, p).WakeX?
  }

  predicate OneWaker(s: State) {
    forall p, p' ::
      p in s.procs && p' in s.procs && Target(Pcof(s, p)).Some? && Target(Pcof(s, p')).Some? ==> p == p'
  }

  predicate Counted(pc: Pc) { pc.TryK? || (pc.UnlX? && !pc.w) || (pc.WakeX? && !pc.w) || pc.Reading? }

  function CountedSet(s: State): set<Pid> {
    set p | p in s.procs && Counted(s.procs[p].pc)
  }

  predicate LkAt(s: State, tryk: bool) {
    && s.lk.Some? && s.lk.value in s.procs
    && if tryk then Pcof(s, s.lk.value).TryK? else Pcof(s, s.lk.value).Last?
  }

  /** The readers as a group hold k. */
  predicate GroupHasK(s: State) {
    LkAt(s, false) || s.readers > 1 || (s.readers == 1 && !LkAt(s, true))
  }

  /** The process that holds x is a writer that holds k too. */
  predicate WriterHasK(s: State) {
    && s.x.hold.Some? && s.x.hold.value in s.procs
    && var w := s.x.hold.value;
       Pcof(s, w).Writing? || (InK(Pcof(s, w)) && w !in s.k.queue)
  }

  predicate Distinct(q: seq<Pid>) { forall i, j :: 0 <= i < j < |q| ==> q[i] != q[j] }

  /** Who holds k: the readers as a group, or the writer that holds x; only that writer
      can be queued for k. */
  predicate KInv(s: State) {
    && (s.k.hold.Some? <==> GroupHasK(s) || WriterHasK(s))
    && (WriterHasK(s) ==> s.k.hold == s.x.hold && s.readers == 0 && !LkAt(s, false))
    && (LkAt(s, false) ==> s.readers == 0)
    && (s.k.queue != [] ==> GroupHasK(s) && s.x.hold.Some? && s.k.queue == [s.x.hold.value])
  }

  predicate XInv(s: State) {
    && (s.x.queue != [] ==> s.x.hold.Some?)
    && (s.x.hold.Some? ==> s.x.hold.value in s.procs)
    && (s.lk.Some? ==> s.lk.value in s.procs)
    && Distinct(s.x.queue)
    && (forall i :: 0 <= i < |s.x.queue| ==> s.x.queue[i] in s.procs)
  }

  predicate CountInv(s: State) { s.readers == |CountedSet(s)| }

  predicate Orders(s: State) {
    s.x.joined == s.x.served + s.x.queue && s.k.joined == s.k.served + s.k.queue
  }

  predicate Procs(s: State) { forall p :: p in s.procs ==> ProcInv(s, p) }

  predicate Wakers(s: State) { forall p :: p in s.procs ==> WakerInv(s, p) }

  predicate Inv(s: State) { Procs(s) && Wakers(s) && OneWaker(s) && KInv(s) && XInv(s) && CountInv(s) && Orders(s) }

  // ---- Every step keeps the invariant: by what the step does ----

  predicate Starts(pc: Pc) { pc.Idle? }

  predicate Enters(pc: Pc) { pc.HasX? || pc.TryK? }

  predicate Sleeps(pc: Pc) { InX(pc) || InK(pc) }

  predicate Wakes(pc: Pc) { Target(pc).Some? }

  predicate Releases(pc: Pc) { pc.UnlX? || pc.Writing? }

  predicate Leaves(pc: Pc) { pc.Reading? || pc.Last? }

  predicate Moves(s: State, p: Pid, r: Pid) { Inv(s) && Enabled(s, p) && r in s.procs }

  lemma StartingKeepsProc(s: State, p: Pid, write: bool, r: Pid)
    requires Moves(s, p, r) && Starts(Pcof(s, p))
    ensures ProcInv(Step(s, p, write), r)
  {
    assert ProcInv(s, p) && ProcInv(s, r) && WakerInv(s, p);
  }

  lemma EnteringKeepsProc(s: State, p: Pid, write: bool, r: Pid)
    requires Moves(s, p, r) && Enters(Pcof(s, p))
    ensures ProcInv(Step(s, p, write), r)
  {
    assert ProcInv(s, p) && ProcInv(s, r) && WakerInv(s, p);
  }

  lemma SleepingKeepsProc(s: State, p: Pid, write: bool, r: Pid)
    requires Moves(s, p, r) && Sleeps(Pcof(s, p))
    ensures ProcInv(Step(s, p, write), r)
  {
    assert ProcInv(s, p) && ProcInv(s, r) && WakerInv(s, p);
  }

  lemma WakingKeepsProc(s: State, p: Pid, write: bool, r: Pid)
    requires Moves(s, p, r) && Wakes(Pcof(s, p))
    ensures ProcInv(Step(s, p, write), r)
  {
    assert ProcInv(s, p) && ProcInv(s, r) && WakerInv(s, p);
  }

  lemma ReleasingKeepsProc(s: State, p: Pid, write: bool, r: Pid)
    requires Moves(s, p, r) && Releases(Pcof(s, p))
    ensures ProcInv(Step(s, p, write), r)
  {
    assert ProcInv(s, p) && ProcInv(s, r) && WakerInv(s, p);
  }

  lemma RunlockKeepsProc(s: State, p: Pid, write: bool, r: Pid)
    requires Moves(s, p, r) && Pcof(s, p).Reading?
    ensures ProcInv(Step(s, p, write), r)
  {
    assert ProcInv(s, p) && ProcInv(s, r) && WakerInv(s, p);
  }

  lemma LastKeepsProc(s: State, p: Pid, write: bool, r: Pid)
    requires Moves(s, p, r) && Pcof(s, p).Last?
    ensures ProcInv(Step(s, p, write), r)
  {
    assert ProcInv(s, p) && ProcInv(s, r) && WakerInv(s, p);
  }

  lemma ProcKept(s: State, p: Pid, write: bool, r: Pid)
    requires Moves(s, p, r)
    ensures r in Step(s, p, write).procs && ProcInv(Step(s, p, write), r)
  {
    hide Step, ProcInv, Inv;
    if Starts(Pcof(s, p)) {
      StartingKeepsProc(s, p, write, r);
    } else if Enters(Pcof(s, p)) {
      EnteringKeepsProc(s, p, write, r);
    } else if Sleeps(Pcof(s, p)) {
      SleepingKeepsProc(s, p, write, r);
    } else if Wakes(Pcof(s, p)) {
      WakingKeepsProc(s, p, write, r);
    } else if Releases(Pcof(s, p)) {
      ReleasingKeepsProc(s, p, write, r);
    } else if Pcof(s, p).Reading? {
      RunlockKeepsProc(s, p, write, r);
    } else {
      LastKeepsProc(s, p, write, r);
    }
    SamePcs(s, p, write);
  }

  lemma StartingKeepsWaker(s: State, p: Pid, write: bool, r: Pid)
    requires Moves(s, p, r) && Starts(Pcof(s, p))
    ensures WakerInv(Step(s, p, write), r)
  {
    assert ProcInv(s, p) && ProcInv(s, r) && WakerInv(s, p) && WakerInv(s, r);
  }

  lemma EnteringKeepsWaker(s: State, p: Pid, write: bool, r: Pid)
    requires Moves(s, p, r) && Enters(Pcof(s, p))
    ensures WakerInv(Step(s, p, write), r)
  {
    assert ProcInv(s, p) && ProcInv(s, r) && WakerInv(s, p) && WakerInv(s, r);
  }

  lemma SleepingKeepsWaker(s: State, p: Pid, write: bool, r: Pid)
    requires Moves(s, p, r) && Sleeps(Pcof(s, p))
    ensures WakerInv(Step(s, p, write), r)
  {
    assert ProcInv(s, p) && ProcInv(s, r) && WakerInv(s, p) && WakerInv(s, r);
  }

  lemma WakingKeepsWaker(s: State, p: Pid, write: bool, r: Pid)
    requires Moves(s, p, r) && Wakes(Pcof(s, p))
    ensures WakerInv(Step(s, p, write), r)
  {
    assert ProcInv(s, p) && ProcInv(s, r) && WakerInv(s, p) && WakerInv(s, r);
  }

  lemma ReleasingKeepsWaker(s: State, p: Pid, write: bool, r: Pid)
    requires Moves(s, p, r) && Releases(Pcof(s, p))
    ensures WakerInv(Step(s, p, write), r)
  {
    assert ProcInv(s, p) && ProcInv(s, r) && WakerInv(s, p) && WakerInv(s, r);
  }

  lemma LeavingKeepsWaker(s: State, p: Pid, write: bool, r: Pid)
    requires Moves(s, p, r) && Leaves(Pcof(s, p))
    ensures WakerInv(Step(s, p, write), r)
  {
    assert ProcInv(s, p) && ProcInv(s, r) && WakerInv(s, p) && WakerInv(s, r);
  }

  lemma WakerKept(s: State, p: Pid, write: bool, r: Pid)
    requires Moves(s, p, r)
    ensures r in Step(s, p, write).procs && WakerInv(Step(s, p, write), r)
  {
    hide Step, ProcInv, Inv, WakerInv;
    SamePcs(s, p, write);
    var pc := Pcof(s, p);
    if Starts(pc) {
      StartingKeepsWaker(s, p, write, r);
    } else if Enters(pc) {
      EnteringKeepsWaker(s, p, write, r);
    } else if Sleeps(pc) {
      SleepingKeepsWaker(s, p, write, r);
    } else if Wakes(pc) {
      WakingKeepsWaker(s, p, write, r);
    } else if Releases(pc) {
      ReleasingKeepsWaker(s, p, write, r);
    } else {
      LeavingKeepsWaker(s, p, write, r);
    }
  }

  lemma StartingKeepsK(s: State, p: Pid, write: bool)
    requires Inv(s) && Enabled(s, p) && Starts(Pcof(s, p))
    ensures KInv(Step(s, p, write))
  {
    assert ProcInv(s, p) && WakerInv(s, p);
    CountedStep(s, p, write);
    HoldersIn(s);
  }

  lemma EnteringKeepsK(s: State, p: Pid, write: bool)
    requires Inv(s) && Enabled(s, p) && Enters(Pcof(s, p))
    ensures KInv(Step(s, p, write))
  {
    assert ProcInv(s, p) && WakerInv(s, p);
    CountedStep(s, p, write);
    HoldersIn(s);
  }

  lemma SleepingKeepsK(s: State, p: Pid, write: bool)
    requires Inv(s) && Enabled(s, p) && Sleeps(Pcof(s, p))
    ensures KInv(Step(s, p, write))
  {
    assert ProcInv(s, p) && WakerInv(s, p);
    CountedStep(s, p, write);
    HoldersIn(s);
  }

  lemma WakingKeepsK(s: State, p: Pid, write: bool)
    requires Inv(s) && Enabled(s, p) && Wakes(Pcof(s, p))
    ensures KInv(Step(s, p, write))
  {
    assert ProcInv(s, p) && WakerInv(s, p);
    CountedStep(s, p, write);
    HoldersIn(s);
  }

  lemma ReleasingKeepsK(s: State, p: Pid, write: bool)
    requires Inv(s) && Enabled(s, p) && Releases(Pcof(s, p))
    ensures KInv(Step(s, p, write))
  {
    assert ProcInv(s, p) && WakerInv(s, p);
    CountedStep(s, p, write);
    HoldersIn(s);
  }

  lemma LeavingKeepsK(s: State, p: Pid, write: bool)
    requires Inv(s) && Enabled(s, p) && Leaves(Pcof(s, p))
    ensures KInv(Step(s, p, write))
  {
    assert ProcInv(s, p) && WakerInv(s, p);
    CountedStep(s, p, write);
    HoldersIn(s);
  }

  lemma KKept(s: State, p: Pid, write: bool)
    requires Inv(s) && Enabled(s, p)
    ensures KInv(Step(s, p, write))
  {
    hide Step, Inv, KInv;
    var pc := Pcof(s, p);
    if Starts(pc) {
      StartingKeepsK(s, p, write);
    } else if Enters(pc) {
      EnteringKeepsK(s, p, write);
    } else if Sleeps(pc) {
      SleepingKeepsK(s, p, write);
    } else if Wakes(pc) {
      WakingKeepsK(s, p, write);
    } else if Releases(pc) {
      ReleasingKeepsK(s, p, write);
    } else {
      LeavingKeepsK(s, p, write);
    }
  }

  lemma HoldersIn(s: State)
    requires Inv(s)
    ensures s.x.hold.Some? ==> s.x.hold.value in s.procs && ProcInv(s, s.x.hold.value)
    ensures s.lk.Some? ==> s.lk.value in s.procs && ProcInv(s, s.lk.value)
    ensures s.x.queue != [] ==> s.x.queue[0] in s.procs && ProcInv(s, s.x.queue[0])
  {}

  lemma StartingKeepsX(s: State, p: Pid, write: bool)
    requires Inv(s) && Enabled(s, p) && Starts(Pcof(s, p))
    ensures XInv(Step(s, p, write)) && Orders(Step(s, p, write))
  {
    assert ProcInv(s, p) && WakerInv(s, p);
  }

  lemma ReleasingKeepsX(s: State, p: Pid, write: bool)
    requires Inv(s) && Enabled(s, p) && Releases(Pcof(s, p))
    ensures XInv(Step(s, p, write)) && Orders(Step(s, p, write))
  {
    assert ProcInv(s, p) && WakerInv(s, p);
  }

  lemma OtherKeepsX(s: State, p: Pid, write: bool)
    requires Inv(s) && Enabled(s, p) && !Starts(Pcof(s, p)) && !Releases(Pcof(s, p))
    ensures XInv(Step(s, p, write)) && Orders(Step(s, p, write))
  {
    assert ProcInv(s, p) && WakerInv(s, p);
  }

  lemma XKept(s: State, p: Pid, write: bool)
    requires Inv(s) && Enabled(s, p)
    ensures XInv(Step(s, p, write)) && Orders(Step(s, p, write))
  {
    hide Step, Inv, XInv, Orders;
    if Starts(Pcof(s, p)) {
      StartingKeepsX(s, p, write);
    } else if Releases(Pcof(s, p)) {
      ReleasingKeepsX(s, p, write);
    } else {
      OtherKeepsX(s, p, write);
    }
  }

  /** A process that comes to wake another is the only one to do so. */
  lemma OnlyWaker(s: State, p: Pid, write: bool, r: Pid)
    requires Moves(s, p, r) && Target(Pcof(s, r)).Some? && r != p
    ensures Target(Pcof(Step(s, p, write), p)) == None
  {
    hide KInv, CountInv, Orders, Counted, CountedSet;
    assert ProcInv(s, p) && WakerInv(s, p) && WakerInv(s, r);
    assert ProcInv(s, Target(Pcof(s, r)).value);
    LastFacts(s);
  }

  lemma LastFacts(s: State)
    requires Inv(s)
    ensures s.k.queue != [] ==> s.x.hold == Some(s.k.queue[0])
  {}

  lemma OneWakerKept(s: State, p: Pid, write: bool)
    requires Inv(s) && Enabled(s, p)
    ensures OneWaker(Step(s, p, write))
  {
    hide Step, ProcInv, WakerInv, KInv, XInv, CountInv, Orders;
    var t := Step(s, p, write);
    SamePcs(s, p, write);
    forall a, b | a in t.procs && b in t.procs && Target(Pcof(t, a)).Some? && Target(Pcof(t, b)).Some?
      ensures a == b
    {
      if a == p && b != p {
        OnlyWaker(s, p, write, b);
      } else if b == p && a != p {
        OnlyWaker(s, p, write, a);
      }
    }
  }

  lemma SamePcs(s: State, p: Pid, write: bool)
    requires Enabled(s, p)
    ensures Step(s, p, write).procs.Keys == s.procs.Keys
    ensures forall r :: r in s.procs && r != p ==> Pcof(Step(s, p, write), r) == Pcof(s, r)
  {}

  lemma CountedStep(s: State, p: Pid, write: bool)
    requires Enabled(s, p)
    ensures var t := Step(s, p, write);
            && t.procs.Keys == s.procs.Keys
            && |CountedSet(t)| == |CountedSet(s)| + (if Counted(Pcof(t, p)) then 1 else 0) - (if Counted(Pcof(s, p)) then 1 else 0)
            && (Counted(Pcof(s, p)) ==> |CountedSet(s)| > 0)
  {
    hide Step, Counted;
    SamePcs(s, p, write);
    var c, d := CountedSet(s), CountedSet(Step(s, p, write));
    assert c - {p} == d - {p};
    assert |c| == |c - {p}| + if p in c then 1 else 0;
    assert |d| == |d - {p}| + if p in d then 1 else 0;
  }

  lemma StepKeepsInv(s: State, p: Pid, write: bool)
    requires Inv(s) && Enabled(s, p)
    ensures Inv(Step(s, p, write))
  {
    hide Step, ProcInv, WakerInv, KInv, XInv, Orders, OneWaker, CountInv;
    var t := Step(s, p, write);
    SamePcs(s, p, write);
    forall r | r in t.procs ensures ProcInv(t, r) && WakerInv(t, r) {
      ProcKept(s, p, write, r);
      WakerKept(s, p, write, r);
    }
    OneWakerKept(s, p, write);
    CountKept(s, p, write);
    XKept(s, p, write);
    KKept(s, p, write);
  }

  lemma CountKept(s: State, p: Pid, write: bool)
    requires CountInv(s) && Enabled(s, p)
    ensures CountInv(Step(s, p, write))
  {
    CountedStep(s, p, write);
  }

  // ---- Whole runs ----

  datatype Act = Act(p: Pid, write: bool)

  predicate IsRun(s: State, acts: seq<Act>)
    decreases |acts|
  {
    acts == [] || (Enabled(s, acts[0].p) && IsRun(Step(s, acts[0].p, acts[0].write), acts[1..]))
  }

  function After(s: State, acts: seq<Act>): State
    requires IsRun(s, acts)
    decreases |acts|
  {
    if acts == [] then s else After(Step(s, acts[0].p, acts[0].write), acts[1..])
  }

  lemma {:induction false} RunKeepsInv(s: State, acts: seq<Act>)
    requires Inv(s) && IsRun(s, acts)
    ensures Inv(After(s, acts))
    decreases |acts|
  {
    if acts != [] {
      StepKeepsInv(s, acts[0].p, acts[0].write);
      RunKeepsInv(Step(s, acts[0].p, acts[0].write), acts[1..]);
    }
  }

  lemma InitInv(s: State)
    requires Init(s)
    ensures Inv(s)
  {
    assert CountedSet(s) == {};
  }

  /** In every interleaving a writer excludes every other writer and every reader. */
  lemma WriterExcludes(s: State, acts: seq<Act>, p: Pid, r: Pid)
    requires Init(s) && IsRun(s, acts)
    requires var t := After(s, acts); p in t.procs && r in t.procs && p != r && Pcof(t, p).Writing?
    ensures var pc := Pcof(After(s, acts), r); !pc.Writing? && !pc.Reading?
  {
    InitInv(s);
    RunKeepsInv(s, acts);
    var t := After(s, acts);
    assert ProcInv(t, p) && ProcInv(t, r);
    assert Pcof(t, r).Reading? ==> r in CountedSet(t);
  }

  /** While no process is inside the short section of rlock or runlock, k is held by
      the readers exactly when there are any; otherwise its holder is the writer. */
  lemma ReadersHoldK(s: State, acts: seq<Act>)
    requires Init(s) && IsRun(s, acts)
    ensures var t := After(s, acts);
            && t.readers == |CountedSet(t)|
            && (t.lk == None && t.readers > 0 ==> t.k.hold.Some? && !WriterHasK(t))
            && (t.lk == None && t.readers == 0 ==> (t.k.hold.Some? <==> WriterHasK(t)))
  {
    InitInv(s);
    RunKeepsInv(s, acts);
  }

  /** Each lock is handed over in the order in which processes queued for it. */
  lemma ServedInOrder(s: State, acts: seq<Act>)
    requires Init(s) && IsRun(s, acts)
    ensures var t := After(s, acts); t.x.served <= t.x.joined && t.k.served <= t.k.joined
  {
    InitInv(s);
    RunKeepsInv(s, acts);
  }

  /** A process that returns from qlock holds the lock, even when it had to sleep. */
  lemma ReturnsHolding(s: State, acts: seq<Act>, p: Pid, write: bool)
    requires Init(s) && IsRun(s, acts) && Enabled(After(s, acts), p)
    ensures var t := After(s, acts);
            var u := Step(t, p, write);
            && (Pcof(t, p).WaitX? && Pcof(u, p).HasX? ==> t.x.hold == Some(p) && p !in t.x.queue)
            && (Pcof(t, p).WaitK? && Pcof(u, p).Writing? ==> t.k.hold == Some(p) && p !in t.k.queue)
  {
    InitInv(s);
    RunKeepsInv(s, acts);
    assert ProcInv(After(s, acts), p);
  }

  /** The hand-off never wakes a process that did not queue, and a process queues for
      one lock at a time, which is what lets its one link field serve all queues. */
  lemma QueuedOnce(s: State, acts: seq<Act>, p: Pid)
    requires Init(s) && IsRun(s, acts) && p in After(s, acts).procs
    ensures var t := After(s, acts); !(p in t.x.queue && p in t.k.queue) && Distinct(t.x.queue) && |t.k.queue| <= 1
  {
    InitInv(s);
    RunKeepsInv(s, acts);
    assert ProcInv(After(s, acts), p);
  }

  /** Whoever has been handed a lock and has not been woken is about to be. */
  ghost predicate Attended(s: State, q: Pid)
    requires q in s.procs
  {
    LowGrant(s, q) ==> exists r :: r in s.procs && Target(Pcof(s, r)) == Some(q)
  }

  predicate LowGrant(s: State, q: Pid)
    requires q in s.procs
  {
    Granted(s, q) && Credit(s, q) == Low(Pcof(s, q))
  }

  lemma AcquiringGrant(s: State, p: Pid, write: bool, q: Pid)
    requires Moves(s, p, q) && !LowGrant(s, q) && (Starts(Pcof(s, p)) || Enters(Pcof(s, p)))
    ensures LowGrant(Step(s, p, write), q) ==> Target(Pcof(Step(s, p, write), p)) == Some(q)
  {
    assert ProcInv(s, p) && ProcInv(s, q);
  }

  lemma SleepingGrant(s: State, p: Pid, write: bool, q: Pid)
    requires Moves(s, p, q) && !LowGrant(s, q) && Sleeps(Pcof(s, p))
    ensures LowGrant(Step(s, p, write), q) ==> Target(Pcof(Step(s, p, write), p)) == Some(q)
  {
    assert ProcInv(s, p) && ProcInv(s, q);
  }

  lemma WakingGrant(s: State, p: Pid, write: bool, q: Pid)
    requires Moves(s, p, q) && !LowGrant(s, q) && Wakes(Pcof(s, p))
    ensures LowGrant(Step(s, p, write), q) ==> Target(Pcof(Step(s, p, write), p)) == Some(q)
  {
    assert ProcInv(s, p) && ProcInv(s, q);
  }

  lemma ReleasingGrant(s: State, p: Pid, write: bool, q: Pid)
    requires Moves(s, p, q) && !LowGrant(s, q) && Releases(Pcof(s, p))
    ensures LowGrant(Step(s, p, write), q) ==> Target(Pcof(Step(s, p, write), p)) == Some(q)
  {
    assert ProcInv(s, p) && ProcInv(s, q);
  }

  lemma LeavingGrant(s: State, p: Pid, write: bool, q: Pid)
    requires Moves(s, p, q) && !LowGrant(s, q) && Leaves(Pcof(s, p))
    ensures LowGrant(Step(s, p, write), q) ==> Target(Pcof(Step(s, p, write), p)) == Some(q)
  {
    assert ProcInv(s, p) && ProcInv(s, q);
  }

  /** Only the process that hands a lock over brings another to this point. */
  lemma NewGrant(s: State, p: Pid, write: bool, q: Pid)
    requires Moves(s, p, q) && !LowGrant(s, q)
    ensures q in Step(s, p, write).procs
    ensures LowGrant(Step(s, p, write), q) ==> Target(Pcof(Step(s, p, write), p)) == Some(q)
  {
    hide Step, Inv, LowGrant;
    SamePcs(s, p, write);
    var pc := Pcof(s, p);
    if Starts(pc) || Enters(pc) {
      AcquiringGrant(s, p, write, q);
    } else if Sleeps(pc) {
      SleepingGrant(s, p, write, q);
    } else if Wakes(pc) {
      WakingGrant(s, p, write, q);
    } else if Releases(pc) {
      ReleasingGrant(s, p, write, q);
    } else {
      LeavingGrant(s, p, write, q);
    }
  }

  /** The wakeup that p was about to do raises the credit of its target. */
  lemma WokenIsNotLow(s: State, p: Pid, write: bool, q: Pid)
    requires Moves(s, p, q) && Target(Pcof(s, p)) == Some(q) && q in Step(s, p, write).procs
    ensures !LowGrant(Step(s, p, write), q)
  {
    hide KInv, CountInv, Orders, Counted, CountedSet, OneWaker, XInv, ProcInv;
    assert WakerInv(s, p);
  }

  lemma AttendedKept(s: State, p: Pid, write: bool, q: Pid)
    requires Moves(s, p, q) && Attended(s, q)
    ensures q in Step(s, p, write).procs && Attended(Step(s, p, write), q)
  {
    hide Inv, Step, Granted, Credit;
    var t := Step(s, p, write);
    SamePcs(s, p, write);
    if LowGrant(s, q) {
      var r :| r in s.procs && Target(Pcof(s, r)) == Some(q);
      if r == p {
        WokenIsNotLow(s, p, write, q);
      } else {
        assert Target(Pcof(t, r)) == Some(q);
      }
    } else {
      NewGrant(s, p, write, q);
    }
  }

  lemma {:induction false} RunKeepsAttended(s: State, acts: seq<Act>)
    requires Inv(s) && IsRun(s, acts) && forall q :: q in s.procs ==> Attended(s, q)
    ensures forall q :: q in After(s, acts).procs ==> Attended(After(s, acts), q)
    decreases |acts|
  {
    if acts != [] {
      var t := Step(s, acts[0].p, acts[0].write);
      SamePcs(s, acts[0].p, acts[0].write);
      forall q | q in t.procs ensures Attended(t, q) {
        AttendedKept(s, acts[0].p, acts[0].write, q);
      }
      StepKeepsInv(s, acts[0].p, acts[0].write);
      RunKeepsAttended(t, acts[1..]);
    }
  }

  /** No hand-over is lost: in every run, a process that sleeps for a lock it has been
      handed has been woken, or some process is about to wake it. */
  lemma NoHandoverLost(s: State, acts: seq<Act>, q: Pid)
    requires Init(s) && IsRun(s, acts) && q in After(s, acts).procs
    ensures Attended(After(s, acts), q)
  {
    InitInv(s);
    RunKeepsAttended(s, acts);
  }
}
