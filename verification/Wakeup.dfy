/**
 Sleep and wakeup (kern/rendez.c) between the reader, the writer and the closers of
 one queue of kern/qio.c. A section under the queue's lock is one step; the unlocked
 reads of a sleep condition, and every wakeup, are steps of their own, so that
 anything can happen between them. A process in sleep holds the lock of the rendezvous
 from the moment it has registered until it has committed, and wakeup waits for it.
 */
module Wakeup {
  import opened Bytes
  import opened Blocks

  /** A queued block: its data bytes and its allocation. */
  datatype Blk = Blk(d: nat, a: nat)

  /** Every block is allocated by _allocb, and holds no more than fits. */
  predicate Sound(b: Blk) { b.d <= b.a && b.a >= 64 }

  predicate AllSound(l: seq<Blk>) { forall b :: b in l ==> Sound(b) }

  /** The least and the most that _allocb can allocate for n bytes. */
  function Least(n: nat): nat { Round(n + TLRSPC) + 48 }

  function Most(n: nat): nat { Round(n + TLRSPC) + HDRSPC }

  lemma AllocBetween(start: nat, n: nat)
    ensures Least(n) <= Lim(start, n) - Base(start) <= Most(n)
    ensures Least(n) >= 64 && Least(n) >= n
  {
    AllocbFits(start, n);
  }

  function Len(l: seq<Blk>): nat {
    if l == [] then 0 else l[0].a + Len(l[1..])
  }

  /** Stages of a process. Wait: about to call sleep. Test1, Test2: before the first and
      the second read of the sleep condition. Wake: about to wake the other side. Full1,
      Full2, SetFlow: in qflow, before its two reads and before it sets Qflow. */
  datatype Pc = Idle | Wait | Test1 | Test2 | Asleep | Wake | Full1 | Full2 | SetFlow

  /** A rendezvous, whether a process is registered there and whether its lock is held,
      and the process that sleeps there: whether its state is Wakeme and its r is set. */
  datatype Side = Side(p: bool, held: bool, wakeme: bool, r: bool, pc: Pc)

  datatype Fifo = Fifo(blocks: seq<Blk>, limit: nat, noblock: bool, coalesce: bool,
                       closed: bool, starve: bool, flow: bool)

  /** The closers are counted: those about to wake the reader and then the writer, and
      those about to wake the writer. */
  datatype State = State(q: Fifo, rd: Side, wr: Side, closersR: nat, closersW: nat, panicked: bool, doubled: bool)

  /** The part of a block put back by a read: it keeps its buffer when it is the
      longer half, and is copied to a new one otherwise. */
  predicate PutBack(from: Blk, back: Blk) {
    && 0 < back.d <= from.d
    && if from.d - back.d < back.d then back.a == from.a else Least(back.d) <= back.a <= Most(back.d)
  }

  /** On a coalescing queue a read first drops the empty blocks in front: e of them. It
      then takes k blocks and puts back a part of the last one, or finds the queue empty
      and ends, or asks for a wakeup and goes to sleep. */
  datatype ReaderAct =
    | Read(e: nat, k: nat, back: Option<Blk>) | ReadEnd(e: nat) | Starve(e: nat)
    | Sleep | Test1 | Test2 | Resume | WakeWriter

  datatype WriterAct =
    | Write(more: seq<Blk>) | FlowFirst | WakeReader | Flow1 | Flow2 | SetFlow
    | Sleep | Test1 | Test2 | Resume

  datatype CloserAct = Close | Hangup | Reopen | Flush | WakeR | WakeW

  datatype Action = R(r: ReaderAct) | W(w: WriterAct) | C(c: CloserAct)

  /** The first e blocks are empty, and go away when the queue coalesces. */
  predicate Dropped(q: Fifo, e: nat) {
    && e <= |q.blocks|
    && (forall i :: 0 <= i < e ==> q.blocks[i].d == 0)
    && (e > 0 ==> q.coalesce)
  }

  predicate ReaderCan(s: State, a: ReaderAct) {
    match a
    case Read(e, k, back) =>
      && s.rd.pc == Idle && Dropped(s.q, e) && 0 < k && e + k <= |s.q.blocks|
      && (e > 0 || k > 1 ==> s.q.coalesce && s.q.blocks[e].d > 0)
      && (back.Some? ==> PutBack(s.q.blocks[e + k - 1], back.value))
    case ReadEnd(e) => s.rd.pc == Idle && Dropped(s.q, e) && e == |s.q.blocks| && s.q.closed
    case Starve(e) => s.rd.pc == Idle && Dropped(s.q, e) && e == |s.q.blocks| && !s.q.closed
    case Sleep => s.rd.pc == Pc.Wait && !s.rd.held
    case Test1 => s.rd.pc == Pc.Test1
    case Test2 => s.rd.pc == Pc.Test2
    case Resume => s.rd.pc == Asleep && !s.rd.wakeme
    case WakeWriter => s.rd.pc == Wake && !s.wr.held
  }

  predicate WriterCan(s: State, a: WriterAct) {
    match a
    case Write(more) => s.wr.pc == Idle && more != [] && AllSound(more)
    case FlowFirst => s.wr.pc == Idle && Len(s.q.blocks) / 2 >= s.q.limit && !s.q.noblock
    case WakeReader => s.wr.pc == Wake && !s.rd.held
    case Flow1 => s.wr.pc == Full1
    case Flow2 => s.wr.pc == Full2
    case SetFlow => s.wr.pc == Pc.SetFlow
    case Sleep => s.wr.pc == Pc.Wait && !s.wr.held
    case Test1 => s.wr.pc == Pc.Test1
    case Test2 => s.wr.pc == Pc.Test2
    case Resume => s.wr.pc == Asleep && !s.wr.wakeme
  }

  predicate CloserCan(s: State, a: CloserAct) {
    match a
    case WakeR => s.closersR > 0 && !s.rd.held
    case WakeW => s.closersW > 0 && !s.wr.held
    case _ => true
  }

  predicate Enabled(s: State, a: Action) {
    match a
    case R(x) => ReaderCan(s, x)
    case W(x) => WriterCan(s, x)
    case C(x) => CloserCan(s, x)
  }

  /** wakeup panics unless the registered process sleeps at this rendezvous. */
  predicate WakePanics(z: Side) { z.p && (!z.wakeme || !z.r) }

  function Woken(z: Side): Side {
    if z.p && z.wakeme && z.r then Side(false, z.held, false, false, z.pc) else z
  }

  function Registered(z: Side): Side { Side(true, true, z.wakeme, z.r, Pc.Test1) }

  function Cancelled(z: Side, pc: Pc): Side { Side(false, false, z.wakeme, z.r, pc) }

  function Committed(z: Side): Side { Side(z.p, false, true, true, Asleep) }

  function Left(l: seq<Blk>, k: nat, back: Option<Blk>): seq<Blk>
    requires k <= |l|
  {
    (if back.Some? then [back.value] else []) + l[k..]
  }

  function ReaderStep(s: State, a: ReaderAct): State
    requires ReaderCan(s, a)
  {
    match a
    case Read(e, k, back) =>
      var left := Left(s.q.blocks, e + k, back);
      if s.q.flow && Len(left) < s.q.limit / 2
      then s.(q := s.q.(blocks := left, flow := false), rd := s.rd.(pc := Wake))
      else s.(q := s.q.(blocks := left))
    case ReadEnd(e) => s.(q := s.q.(blocks := []))
    case Starve(e) => s.(q := s.q.(blocks := [], starve := true), rd := s.rd.(pc := Pc.Wait))
    case Sleep => s.(rd := Registered(s.rd), doubled := s.doubled || s.rd.p)
    case Test1 => s.(rd := if s.q.closed then Cancelled(s.rd, Idle) else s.rd.(pc := Pc.Test2))
    case Test2 => s.(rd := if s.q.blocks != [] then Cancelled(s.rd, Idle) else Committed(s.rd))
    case Resume => s.(rd := s.rd.(pc := Idle))
    case WakeWriter =>
      s.(rd := s.rd.(pc := Idle), wr := Woken(s.wr), panicked := s.panicked || WakePanics(s.wr))
  }

  function WriterStep(s: State, a: WriterAct): State
    requires WriterCan(s, a)
  {
    match a
    case Write(more) =>
      if s.q.closed || (Len(s.q.blocks) >= s.q.limit && s.q.noblock) then s
      else s.(q := s.q.(blocks := s.q.blocks + more, starve := false),
              wr := s.wr.(pc := if s.q.starve then Wake else Full1))
    case FlowFirst => s.(wr := s.wr.(pc := Full1))
    case WakeReader =>
      s.(wr := s.wr.(pc := Full1), rd := Woken(s.rd), panicked := s.panicked || WakePanics(s.rd))
    case Flow1 => s.(wr := s.wr.(pc := if s.q.noblock || Len(s.q.blocks) < s.q.limit then Idle else Full2))
    case Flow2 => s.(wr := s.wr.(pc := if s.q.closed then Idle else Pc.SetFlow))
    case SetFlow => s.(q := s.q.(flow := true), wr := s.wr.(pc := Pc.Wait))
    case Sleep => s.(wr := Registered(s.wr), doubled := s.doubled || s.wr.p)
    case Test1 => s.(wr := if Len(s.q.blocks) < s.q.limit then Cancelled(s.wr, Full1) else s.wr.(pc := Pc.Test2))
    case Test2 => s.(wr := if s.q.closed then Cancelled(s.wr, Full1) else Committed(s.wr))
    case Resume => s.(wr := s.wr.(pc := Full1))
  }

  /** qclose, qhangup, qreopen and qflush. */
  function CloserStep(s: State, a: CloserAct): State
    requires CloserCan(s, a)
  {
    match a
    case Close => s.(q := Fifo([], s.q.limit, false, s.q.coalesce, true, false, false), closersR := s.closersR + 1)
    case Hangup => s.(q := s.q.(closed := true), closersR := s.closersR + 1)
    case Reopen => s.(q := s.q.(closed := false, starve := true))
    case Flush => s.(q := s.q.(blocks := []), closersW := s.closersW + 1)
    case WakeR =>
      s.(rd := Woken(s.rd), panicked := s.panicked || WakePanics(s.rd),
         closersR := s.closersR - 1, closersW := s.closersW + 1)
    case WakeW =>
      s.(wr := Woken(s.wr), panicked := s.panicked || WakePanics(s.wr), closersW := s.closersW - 1)
  }

  function Step(s: State, a: Action): State
    requires Enabled(s, a)
  {
    match a
    case R(x) => ReaderStep(s, x)
    case W(x) => WriterStep(s, x)
    case C(x) => CloserStep(s, x)
  }

  const FRESH := Side(false, false, false, false, Idle)

  /** A queue just opened, with nobody at it. */
  function Start(limit: nat, noblock: bool, coalesce: bool): State {
    State(Fifo([], limit, noblock, coalesce, false, true, false), FRESH, FRESH, 0, 0, false, false)
  }

  predicate Init(s: State) { s == Start(s.q.limit, s.q.noblock, s.q.coalesce) }

  predicate IsRun(s: State, acts: seq<Action>)
    decreases |acts|
  {
    acts == [] || (Enabled(s, acts[0]) && IsRun(Step(s, acts[0]), acts[1..]))
  }

  function After(s: State, acts: seq<Action>): State
    requires IsRun(s, acts)
    decreases |acts|
  {
    if acts == [] then s else After(Step(s, acts[0]), acts[1..])
  }

  // ---- What is queued ----

  /** The bytes of the blocks. */
  function DataOf(l: seq<Blk>): nat { if l == [] then 0 else l[0].d + DataOf(l[1..]) }

  lemma {:induction false} DataJoin(l: seq<Blk>, m: seq<Blk>)
    ensures DataOf(l + m) == DataOf(l) + DataOf(m)
  {
    if l == [] {
      assert l + m == m;
    } else {
      assert (l + m)[1..] == l[1..] + m;
      DataJoin(l[1..], m);
    }
  }

  /** A read takes the first blocks, all but the part put back; one that waits or ends has
      thrown away empty blocks only; and nothing else of the reader's touches the queue. */
  lemma ReaderTraffic(s: State, a: ReaderAct)
    requires ReaderCan(s, a)
    ensures var l, m := s.q.blocks, ReaderStep(s, a).q.blocks;
            && (a.Read? ==> m == (if a.back.Some? then [a.back.value] else []) + l[a.e + a.k..]
                            && DataOf(m) == DataOf(l) - DataOf(l[..a.e + a.k]) + if a.back.Some? then a.back.value.d else 0)
            && (a.ReadEnd? || a.Starve? ==> m == [] && DataOf(l) == 0)
            && (!a.Read? && !a.ReadEnd? && !a.Starve? ==> m == l)
  {
    hide Len, PutBack, Least, Most, Sound, AllSound, DataOf;
    var l := s.q.blocks;
    NoData(l);
    if a.Read? {
      LeftData(l, a.e + a.k, a.back);
    }
  }

  lemma LeftData(l: seq<Blk>, k: nat, back: Option<Blk>)
    requires k <= |l|
    ensures DataOf(Left(l, k, back)) == DataOf(l) - DataOf(l[..k]) + if back.Some? then back.value.d else 0
  {
    hide DataOf;
    assert l == l[..k] + l[k..];
    DataJoin(l[..k], l[k..]);
    if back.Some? {
      DataJoin([back.value], l[k..]);
      DataOne(back.value);
    } else {
      assert [] + l[k..] == l[k..];
    }
  }

  /** A write puts all its blocks behind the others, unless the queue is closed, or full and
      not to wait for; nothing else of the writer's touches the queue. */
  lemma WriterTraffic(s: State, a: WriterAct)
    requires WriterCan(s, a)
    ensures var l, m := s.q.blocks, WriterStep(s, a).q.blocks;
            && (a.Write? && !s.q.closed && !(s.q.noblock && Len(l) >= s.q.limit) ==>
                  m == l + a.more && DataOf(m) == DataOf(l) + DataOf(a.more) && WriterStep(s, a).wr.pc != Idle)
            && (a.Write? && (s.q.closed || (s.q.noblock && Len(l) >= s.q.limit)) ==> WriterStep(s, a) == s)
            && (!a.Write? ==> m == l)
  {
    hide Len, Sound, AllSound, DataOf;
    if a.Write? {
      DataJoin(s.q.blocks, a.more);
    }
  }

  /** A close and a flush drop everything, and nothing else of the closers' drops anything;
      from a close or a hangup on the queue is closed, until it is reopened. */
  lemma CloserTraffic(s: State, a: CloserAct)
    requires CloserCan(s, a)
    ensures var l, m := s.q.blocks, CloserStep(s, a).q.blocks;
            && m == (if a == Close || a == Flush then [] else l)
            && CloserStep(s, a).q.closed == (a == Close || a == Hangup || (s.q.closed && a != Reopen))
  {
    hide Len;
  }

  /** A writer that has written comes back only when the queue takes more without waiting, or
      has closed; and it goes to sleep only while the queue is open. */
  lemma WriterLeaves(s: State, a: Action)
    requires Enabled(s, a) && s.wr.pc != Idle
    ensures Step(s, a).wr.pc == Idle ==> s.q.noblock || Len(s.q.blocks) < s.q.limit || s.q.closed
    ensures s.wr.pc != Asleep && Step(s, a).wr.pc == Asleep ==> !s.q.closed
  {
    hide Len, ReaderStep, CloserStep, WriterStep, WriterCan, ReaderCan, CloserCan;
    OthersKeepStage(s, a);
    if a.W? {
      WriterStages(s, a.w);
    }
  }

  lemma WriterStages(s: State, a: WriterAct)
    requires WriterCan(s, a) && s.wr.pc != Idle
    ensures WriterStep(s, a).wr.pc == Idle ==> s.q.noblock || Len(s.q.blocks) < s.q.limit || s.q.closed
    ensures s.wr.pc != Asleep && WriterStep(s, a).wr.pc == Asleep ==> !s.q.closed
  {
    hide Len, Sound, AllSound, Woken, WakePanics;
    match a
    case Flow1 => assert WriterStep(s, a).wr.pc == if s.q.noblock || Len(s.q.blocks) < s.q.limit then Idle else Full2;
    case Flow2 => assert WriterStep(s, a).wr.pc == if s.q.closed then Idle else Pc.SetFlow;
    case Test1 => assert WriterStep(s, a).wr.pc == if Len(s.q.blocks) < s.q.limit then Full1 else Pc.Test2;
    case Test2 => assert WriterStep(s, a).wr.pc == if s.q.closed then Full1 else Asleep;
    case _ =>
  }

  /** A reader that found nothing tries again only when there is something, or the queue has
      closed, or it was woken; and it goes to sleep only when there is nothing. */
  lemma ReaderLeaves(s: State, a: Action)
    requires Enabled(s, a) && s.rd.pc != Idle
    ensures Step(s, a).rd.pc == Idle ==>
              s.q.blocks != [] || s.q.closed || s.rd.pc == Wake || (s.rd.pc == Asleep && !s.rd.wakeme)
    ensures s.rd.pc != Asleep && Step(s, a).rd.pc == Asleep ==> s.q.blocks == []
  {
    hide Len, WriterStep, CloserStep, WriterCan, ReaderCan, CloserCan, ReaderStep;
    OthersKeepStage(s, a);
    if a.R? {
      ReaderStages(s, a.r);
    }
  }

  lemma ReaderStages(s: State, a: ReaderAct)
    requires ReaderCan(s, a) && s.rd.pc != Idle
    ensures ReaderStep(s, a).rd.pc == Idle ==>
              s.q.blocks != [] || s.q.closed || s.rd.pc == Wake || (s.rd.pc == Asleep && !s.rd.wakeme)
    ensures s.rd.pc != Asleep && ReaderStep(s, a).rd.pc == Asleep ==> s.q.blocks == []
  {
    hide Len, Left, PutBack, Least, Most, Woken, WakePanics;
  }

  lemma OthersKeepStage(s: State, a: Action)
    requires Enabled(s, a)
    ensures (a.W? || Step(s, a).wr.pc == s.wr.pc) && (a.R? || Step(s, a).rd.pc == s.rd.pc)
  {
    hide Len, Left, PutBack, Least, Most, Sound, AllSound, WakePanics;
  }

  lemma DataOne(b: Blk)
    ensures DataOf([b]) == b.d
  {
    assert [b][1..] == [];
  }

  lemma {:induction false} NoData(l: seq<Blk>)
    ensures DataOf([]) == 0 && ((forall i :: 0 <= i < |l| ==> l[i].d == 0) ==> DataOf(l) == 0)
  {
    if l != [] {
      NoData(l[1..]);
      assert (forall i :: 0 <= i < |l| ==> l[i].d == 0) ==> forall i :: 0 <= i < |l| - 1 ==> l[1..][i].d == 0;
    }
  }

  // ---- Lost wakeups ----

  /** Someone is about to wake the reader, or the writer. */
  predicate ReaderWakeComing(s: State) { s.wr.pc == Wake || s.closersR > 0 }

  predicate WriterWakeComing(s: State) { s.rd.pc == Wake || s.closersR > 0 || s.closersW > 0 }

  predicate ReaderLost(s: State) {
    s.rd.wakeme && (s.q.blocks != [] || s.q.closed) && !ReaderWakeComing(s)
  }

  predicate WriterLost(s: State) {
    s.wr.wakeme && (s.q.closed || Len(s.q.blocks) < s.q.limit / 2) && !WriterWakeComing(s)
  }

  // ---- How much the allocation of a queue can grow by reading ----

  function Max(x: nat, y: nat): nat { if x < y then y else x }

  /** A block can be replaced by one as large as this, but no larger. */
  function Cap(b: Blk): nat { Max(b.a, Most(b.d / 2)) }

  function Caps(l: seq<Blk>): nat {
    if l == [] then 0 else Cap(l[0]) + Caps(l[1..])
  }

  lemma {:induction false} CapsBound(l: seq<Blk>)
    requires AllSound(l)
    ensures Len(l) <= Caps(l) <= 2 * Len(l)
  {
    if l != [] {
      assert l[0] in l && forall b :: b in l[1..] ==> b in l;
      CapsBound(l[1..]);
    }
  }

  lemma {:induction false} CapsDrop(l: seq<Blk>, k: nat)
    requires 0 < k <= |l|
    ensures Cap(l[k - 1]) + Caps(l[k..]) <= Caps(l)
  {
    if k > 1 {
      CapsDrop(l[1..], k - 1);
      assert l[1..][k - 1..] == l[k..];
    }
  }

  lemma ReadCaps(l: seq<Blk>, k: nat, back: Option<Blk>)
    requires AllSound(l) && 0 < k <= |l| && (back.Some? ==> PutBack(l[k - 1], back.value))
    ensures AllSound(Left(l, k, back)) && Caps(Left(l, k, back)) <= Caps(l)
  {
    CapsDrop(l, k);
    var left := Left(l, k, back);
    assert l[k - 1] in l;
    assert forall b :: b in l[k..] ==> b in l;
    if back.Some? {
      assert left[1..] == l[k..];
      CapFalls(l[k - 1], back.value);
    } else {
      assert left == l[k..];
    }
  }

  lemma CapFalls(from: Blk, back: Blk)
    requires Sound(from) && PutBack(from, back)
    ensures Sound(back) && Cap(back) <= Cap(from)
  {
    hide Most, Least;
    MostGrows(back.d / 2, from.d / 2);
    if from.d - back.d >= back.d {
      LeastFits(back.d);
      MostGrows(back.d, from.d / 2);
    }
  }

  lemma MostGrows(m: nat, n: nat)
    requires m <= n
    ensures Most(m) <= Most(n)
  {}

  lemma LeastFits(n: nat)
    ensures Least(n) >= 64 && Least(n) >= n
  {}

  // ---- The invariant ----

  predicate SideInv(z: Side) {
    && z.held == (z.pc == Pc.Test1 || z.pc == Pc.Test2)
    && z.p == (z.held || z.wakeme)
    && (z.wakeme ==> z.pc == Asleep && z.r)
  }

  predicate Basic(s: State) {
    !s.panicked && !s.doubled && SideInv(s.rd) && SideInv(s.wr) && AllSound(s.q.blocks)
  }

  predicate WriterInv(s: State) {
    var pc := s.wr.pc;
    && (pc == Pc.Wait || pc == Pc.Test1 ==> s.q.flow || Caps(s.q.blocks) < s.q.limit || s.q.limit == 0)
    && (pc == Pc.Test2 || s.wr.wakeme ==> s.q.flow || WriterWakeComing(s) || s.q.limit == 0)
    && (pc == Pc.Test2 || s.wr.wakeme ==> Len(s.q.blocks) < s.q.limit / 2 ==> WriterWakeComing(s))
    && (s.wr.wakeme && s.q.closed ==> WriterWakeComing(s))
  }

  /** The writer is over the limit of an empty queue, or its writes are dropped. */
  predicate Blocked(s: State) { s.q.limit == 0 && (s.q.noblock || s.wr.pc != Idle) }

  predicate ReaderInv(s: State) {
    var pc := s.rd.pc;
    && (pc == Pc.Wait ==> s.q.starve || s.q.blocks != [] || s.q.closed || Blocked(s))
    && (pc == Pc.Test1 ==> s.q.starve || s.q.blocks != [] || s.q.closed || Blocked(s) || ReaderWakeComing(s))
    && (pc == Pc.Test2 ==> s.q.starve || s.q.blocks != [] || Blocked(s) || ReaderWakeComing(s))
    && (pc == Pc.Test2 && s.q.closed ==> s.closersR > 0)
    && (s.rd.wakeme ==> s.q.starve || Blocked(s) || ReaderWakeComing(s))
    && (s.rd.wakeme && s.q.blocks != [] ==> ReaderWakeComing(s))
    && (s.rd.wakeme && s.q.closed ==> s.closersR > 0)
  }

  lemma StepKeepsBasic(s: State, a: Action)
    requires Basic(s) && Enabled(s, a)
    ensures Basic(Step(s, a))
  {
    hide Len, Caps, AllSound, PutBack, Least, Most, Cap, Sound, Left, Dropped;
    StepKeepsBlocks(s, a);
  }

  lemma StepKeepsBlocks(s: State, a: Action)
    requires AllSound(s.q.blocks) && Enabled(s, a)
    ensures AllSound(Step(s, a).q.blocks)
    ensures (a.W? && a.w.Write?) || Caps(Step(s, a).q.blocks) <= Caps(s.q.blocks)
  {
    hide Len, Caps, AllSound, Least, Most, Cap, Sound, PutBack, Left, Dropped;
    LenEmpty();
    if a.R? && a.r.Read? {
      ReadCaps(s.q.blocks, a.r.e + a.r.k, a.r.back);
    } else if a.W? && a.w.Write? {
      BothSound(s.q.blocks, a.w.more);
    }
  }

  lemma BothSound(l: seq<Blk>, m: seq<Blk>)
    requires AllSound(l) && AllSound(m)
    ensures AllSound(l + m)
  {}

  /** A read that drops what there is, all of it empty, and then waits or ends: the queue
      shrinks and the writer is not considered. */
  predicate Drains(a: Action) {
    a.R? && ((a.r.Starve? && a.r.e > 0) || (a.r.ReadEnd? && a.r.e > 0))
  }

  lemma StepKeepsWriter(s: State, a: Action)
    requires Basic(s) && WriterInv(s) && Enabled(s, a) && (Drains(a) ==> s.q.limit < 2)
    ensures WriterInv(Step(s, a))
  {
    hide WriterInv, Basic, ReaderStep, WriterStep, CloserStep;
    match a
    case R(x) => ReaderKeepsWriter(s, x);
    case W(x) => WriterKeepsWriter(s, x);
    case C(x) => CloserKeepsWriter(s, x);
  }

  lemma ReaderKeepsWriter(s: State, a: ReaderAct)
    requires Basic(s) && WriterInv(s) && ReaderCan(s, a) && (Drains(R(a)) ==> s.q.limit < 2)
    ensures WriterInv(ReaderStep(s, a))
  {
    hide Len, Caps, AllSound, PutBack, Least, Most, Cap, Sound, Left, Dropped;
    StepKeepsBlocks(s, R(a));
    LenEmpty();
    CapsBound(ReaderStep(s, a).q.blocks);
  }

  lemma WriterKeepsWriter(s: State, a: WriterAct)
    requires Basic(s) && WriterInv(s) && WriterCan(s, a)
    ensures WriterInv(WriterStep(s, a))
  {
    hide Len, Caps, AllSound, PutBack, Least, Most, Cap, Sound, Left;
    CapsBound(s.q.blocks);
  }

  lemma CloserKeepsWriter(s: State, a: CloserAct)
    requires Basic(s) && WriterInv(s) && CloserCan(s, a)
    ensures WriterInv(CloserStep(s, a))
  {
    hide Len, Caps, AllSound, PutBack, Least, Most, Cap, Sound, Left;
    LenEmpty();
  }

  lemma LenEmpty()
    ensures Len([]) == Caps([]) == 0 && AllSound([])
  {}

  lemma StepKeepsReader(s: State, a: Action)
    requires Basic(s) && ReaderInv(s) && Enabled(s, a) && (a == C(Flush) ==> FlushIsSafe(s))
    ensures ReaderInv(Step(s, a))
  {
    hide ReaderInv, Basic, ReaderStep, WriterStep, CloserStep, FlushIsSafe;
    match a
    case R(x) => ReaderKeepsReader(s, x);
    case W(x) => WriterKeepsReader(s, x);
    case C(x) => CloserKeepsReader(s, x);
  }

  lemma ReaderKeepsReader(s: State, a: ReaderAct)
    requires Basic(s) && ReaderInv(s) && ReaderCan(s, a)
    ensures ReaderInv(ReaderStep(s, a))
  {
    hide Len, AllSound, PutBack, Left;
  }

  lemma WriterKeepsReader(s: State, a: WriterAct)
    requires Basic(s) && ReaderInv(s) && WriterCan(s, a)
    ensures ReaderInv(WriterStep(s, a))
  {
    hide Len, AllSound;
  }

  lemma CloserKeepsReader(s: State, a: CloserAct)
    requires Basic(s) && ReaderInv(s) && CloserCan(s, a) && (a == Flush ==> FlushIsSafe(s))
    ensures ReaderInv(CloserStep(s, a))
  {
    hide AllSound;
  }

  // ---- Whole runs ----

  lemma {:induction false} RunIsBasic(s: State, acts: seq<Action>)
    requires Basic(s) && IsRun(s, acts)
    ensures Basic(After(s, acts))
    decreases |acts|
  {
    if acts != [] {
      StepKeepsBasic(s, acts[0]);
      RunIsBasic(Step(s, acts[0]), acts[1..]);
    }
  }

  /** No run reaches the panic of wakeup, or registers a second process at a rendezvous. */
  lemma WakeupNeverPanics(s: State, acts: seq<Action>)
    requires Init(s) && IsRun(s, acts)
    ensures !After(s, acts).panicked && !After(s, acts).doubled
  {
    RunIsBasic(s, acts);
  }

  lemma Prepend(s: State, a: Action, rest: seq<Action>)
    requires Enabled(s, a) && IsRun(Step(s, a), rest)
    ensures IsRun(s, [a] + rest) && After(s, [a] + rest) == After(Step(s, a), rest)
  {
    assert ([a] + rest)[1..] == rest;
  }

  lemma {:induction false} Concatenate(s: State, xs: seq<Action>, ys: seq<Action>)
    requires IsRun(s, xs) && IsRun(After(s, xs), ys)
    ensures IsRun(s, xs + ys) && After(s, xs + ys) == After(After(s, xs), ys)
    decreases |xs|
  {
    hide Step, Enabled;
    if xs == [] {
      assert xs + ys == ys;
    } else {
      Concatenate(Step(s, xs[0]), xs[1..], ys);
      assert (xs + ys)[1..] == xs[1..] + ys;
    }
  }

  // ---- The writer ----

  /** How a queue is used: its limit and its flags when it is opened, whether empty blocks
      are ever written to it, and whether it is ever reopened. */
  datatype Use = Use(limit: nat, noblock: bool, coalesce: bool, empties: bool, reopens: bool)

  predicate NoneEmpty(l: seq<Blk>) { forall b :: b in l ==> b.d > 0 }

  predicate Within(u: Use, a: Action) {
    && (a.W? && a.w.Write? && !u.empties ==> NoneEmpty(a.w.more))
    && (a == C(Reopen) ==> u.reopens)
  }

  predicate AllWithin(u: Use, acts: seq<Action>) { forall a :: a in acts ==> Within(u, a) }

  predicate Opened(u: Use, s: State) { s == Start(u.limit, u.noblock, u.coalesce) }

  /** The uses in which a writer can be lost. Closing a queue makes it blocking, so that
      one opened as non-blocking is safe only until it is reopened. */
  predicate LosesWriters(u: Use) {
    u.coalesce && u.empties && u.limit >= 2 && (!u.noblock || u.reopens)
  }

  /** The writer of a queue that is non-blocking, or closed for good, never gets to sleep. */
  predicate NeverWaits(s: State) {
    && (s.q.noblock || s.q.closed)
    && (s.wr.pc == Idle || s.wr.pc == Wake || s.wr.pc == Full1 || (s.wr.pc == Full2 && s.q.closed))
  }

  predicate UseInv(u: Use, s: State) {
    && Basic(s) && s.q.limit == u.limit && s.q.coalesce == u.coalesce
    && (!u.empties ==> NoneEmpty(s.q.blocks))
    && (if u.noblock && !u.reopens then NeverWaits(s) else WriterInv(s))
  }

  lemma StepKeepsUse(u: Use, s: State, a: Action)
    requires UseInv(u, s) && Enabled(s, a) && Within(u, a) && !LosesWriters(u)
    ensures UseInv(u, Step(s, a))
  {
    hide WriterInv, NeverWaits, Basic, Step;
    StepKeepsBasic(s, a);
    StepKeepsShape(u, s, a);
    if u.noblock && !u.reopens {
      StepKeepsAwake(s, a);
    } else {
      if Drains(a) {
        DrainsEmpties(s, a);
      }
      StepKeepsWriter(s, a);
    }
  }

  lemma StepKeepsShape(u: Use, s: State, a: Action)
    requires Enabled(s, a) && Within(u, a)
    ensures Step(s, a).q.limit == s.q.limit && Step(s, a).q.coalesce == s.q.coalesce
    ensures !u.empties && NoneEmpty(s.q.blocks) ==> NoneEmpty(Step(s, a).q.blocks)
  {
    hide Len, AllSound, Sound, Dropped, NoneEmpty, Left, PutBack, ReaderStep, ReaderCan;
    NoBlockNoneEmpty();
    if a.R? {
      ReaderKeepsShape(s, a.r);
    } else if a.W? && a.w.Write? && !u.empties && NoneEmpty(s.q.blocks) {
      BothNoneEmpty(s.q.blocks, a.w.more);
    }
  }

  lemma ReaderKeepsShape(s: State, a: ReaderAct)
    requires ReaderCan(s, a)
    ensures ReaderStep(s, a).q.limit == s.q.limit && ReaderStep(s, a).q.coalesce == s.q.coalesce
    ensures NoneEmpty(s.q.blocks) ==> NoneEmpty(ReaderStep(s, a).q.blocks)
  {
    hide Len, AllSound, Sound, Dropped, NoneEmpty, Left, PutBack;
    NoBlockNoneEmpty();
    if a.Read? && NoneEmpty(s.q.blocks) {
      LeftNoneEmpty(s.q.blocks, a.e + a.k, a.back);
    }
  }

  lemma NoBlockNoneEmpty()
    ensures NoneEmpty([])
  {}

  lemma BothNoneEmpty(l: seq<Blk>, m: seq<Blk>)
    requires NoneEmpty(l) && NoneEmpty(m)
    ensures NoneEmpty(l + m)
  {}

  lemma LeftNoneEmpty(l: seq<Blk>, k: nat, back: Option<Blk>)
    requires NoneEmpty(l) && 0 < k <= |l| && (back.Some? ==> PutBack(l[k - 1], back.value))
    ensures NoneEmpty(Left(l, k, back))
  {}

  lemma StepKeepsAwake(s: State, a: Action)
    requires NeverWaits(s) && Basic(s) && Enabled(s, a) && a != C(Reopen)
    ensures NeverWaits(Step(s, a))
  {
    hide Len, Left, PutBack, AllSound, Dropped;
  }

  /** Only a coalescing read of empty blocks drains. */
  lemma DrainsEmpties(s: State, a: Action)
    requires Enabled(s, a) && Drains(a)
    ensures s.q.coalesce && !NoneEmpty(s.q.blocks)
  {
    assert s.q.blocks[0] in s.q.blocks;
  }

  lemma {:induction false} UseKept(u: Use, s: State, acts: seq<Action>)
    requires UseInv(u, s) && IsRun(s, acts) && AllWithin(u, acts) && !LosesWriters(u)
    ensures UseInv(u, After(s, acts))
    decreases |acts|
  {
    hide UseInv, LosesWriters, Step, Enabled;
    if acts != [] {
      StepKeepsUse(u, s, acts[0]);
      UseKept(u, Step(s, acts[0]), acts[1..]);
    }
  }

  predicate LosesWriter(u: Use, s: State, acts: seq<Action>) {
    IsRun(s, acts) && AllWithin(u, acts) && WriterLost(After(s, acts))
  }

  /** In no run does the writer sleep on a closed queue, or on one drained below half
      its limit, without someone about to wake it: exactly for the uses of a queue in
      which it does not coalesce, or no empty block is written to it, or it has no
      limit to speak of, or it is non-blocking and never reopened. */
  lemma WriterNeverLost(u: Use, s: State)
    requires Opened(u, s)
    ensures (forall acts :: !LosesWriter(u, s, acts)) <==> !LosesWriters(u)
  {
    if LosesWriters(u) {
      var acts := DroppedEmptiesLoseWriter(u, s);
      assert LosesWriter(u, s, acts);
    } else {
      forall acts ensures !LosesWriter(u, s, acts) {
        if IsRun(s, acts) && AllWithin(u, acts) {
          UseKept(u, s, acts);
        }
      }
    }
  }

  function Copies(n: nat, b: Blk): seq<Blk> { if n == 0 then [] else [b] + Copies(n - 1, b) }

  lemma {:induction false} CopiesOf(n: nat, b: Blk)
    requires b.a > 0
    ensures |Copies(n, b)| == n && Len(Copies(n, b)) >= n
    ensures forall x :: x in Copies(n, b) ==> x == b
  {
    if n > 0 {
      CopiesOf(n - 1, b);
      assert Copies(n, b)[1..] == Copies(n - 1, b);
    }
  }

  /** A writer fills the queue with empty blocks and goes to sleep; the reader drops them
      all and goes to sleep beside it. A non-blocking queue is closed and reopened first. */
  lemma DroppedEmptiesLoseWriter(u: Use, s: State) returns (acts: seq<Action>)
    requires Opened(u, s) && LosesWriters(u)
    ensures LosesWriter(u, s, acts)
  {
    var filled := FillAndDrop(u.limit);
    if u.noblock {
      var again := [C(Close), C(Reopen), C(WakeR), C(WakeW)];
      assert IsRun(s, again) && After(s, again) == Start(u.limit, false, true) by {
        OpenedAgain(u.limit);
      }
      Concatenate(s, again, filled);
      acts := again + filled;
    } else {
      acts := filled;
    }
  }

  lemma OpenedAgain(limit: nat)
    ensures var acts := [C(Close), C(Reopen), C(WakeR), C(WakeW)];
            IsRun(Start(limit, true, true), acts)
            && After(Start(limit, true, true), acts) == Start(limit, false, true)
  {
    var s := Start(limit, true, true);
    var s1 := Step(s, C(Close));
    var s2 := Step(s1, C(Reopen));
    var s3 := Step(s2, C(WakeR));
    Prepend(s3, C(WakeW), []);
    Prepend(s2, C(WakeR), [C(WakeW)]);
    Prepend(s1, C(Reopen), [C(WakeR), C(WakeW)]);
    Prepend(s, C(Close), [C(Reopen), C(WakeR), C(WakeW)]);
  }

  lemma EmptyBlock() returns (b: Blk)
    ensures b.d == 0 && Sound(b) && b.a > 0
  {
    b := Blk(0, Most(0));
  }

  lemma FillAndDrop(limit: nat) returns (acts: seq<Action>)
    requires limit >= 2
    ensures IsRun(Start(limit, false, true), acts) && WriterLost(After(Start(limit, false, true), acts))
    ensures C(Reopen) !in acts
  {
    hide Step, Enabled, Len, AllSound, Sound, WriterLost, Copies;
    var empty := EmptyBlock();
    CopiesOf(limit, empty);
    var s := Start(limit, false, true);
    var s1 := Filled(Copies(limit, empty), limit);
    var fill := FillUp(limit, empty);
    var asleep := FullSleeps(s1);
    var s2 := After(s1, asleep);
    DropAll(s2);
    Concatenate(s1, asleep, [R(Starve(limit))]);
    Concatenate(s, fill, asleep + [R(Starve(limit))]);
    acts := fill + (asleep + [R(Starve(limit))]);
  }

  function Filled(l: seq<Blk>, limit: nat): State {
    State(Fifo(l, limit, false, true, false, false, false), FRESH, FRESH.(pc := Full1), 0, 0, false, false)
  }

  lemma FillUp(limit: nat, b: Blk) returns (acts: seq<Action>)
    requires limit > 0 && Sound(b)
    ensures var s := Start(limit, false, true);
            IsRun(s, acts) && C(Reopen) !in acts && After(s, acts) == Filled(Copies(limit, b), limit)
  {
    hide Len;
    var all := Copies(limit, b);
    CopiesOf(limit, b);
    assert [] + all == all;
    var s := Start(limit, false, true);
    var s1 := Step(s, W(Write(all)));
    Prepend(s1, W(WakeReader), []);
    Prepend(s, W(Write(all)), [W(WakeReader)]);
    acts := [W(Write(all)), W(WakeReader)];
    assert acts == [W(Write(all))] + [W(WakeReader)];
  }

  /** The reader drops every block of the queue beside a sleeping writer. */
  lemma DropAll(s: State)
    requires s.rd == FRESH && s.wr.wakeme && s.closersR == 0 == s.closersW && s.q.limit >= 2 && s.q.coalesce
    requires !s.q.closed && forall x :: x in s.q.blocks ==> x.d == 0
    ensures var acts := [R(Starve(|s.q.blocks|))]; IsRun(s, acts) && WriterLost(After(s, acts))
  {
    LenEmpty();
    Prepend(s, R(Starve(|s.q.blocks|)), []);
  }

  /** From the flow control of a full open queue the writer gets to sleep. */
  lemma FullSleeps(s: State) returns (acts: seq<Action>)
    requires s.wr == FRESH.(pc := Full1) && !s.q.noblock && !s.q.closed && Len(s.q.blocks) >= s.q.limit
    ensures IsRun(s, acts) && C(Reopen) !in acts
    ensures After(s, acts) == s.(q := s.q.(flow := true), wr := Side(true, false, true, true, Asleep))
  {
    hide Step, Enabled, Len, AllSound;
    var flow, sleep := [W(Flow1), W(Flow2), W(WriterAct.SetFlow)], [W(WriterAct.Sleep), W(WriterAct.Test1), W(WriterAct.Test2)];
    FlowSet(s);
    Committing(After(s, flow));
    Concatenate(s, flow, sleep);
    acts := flow + sleep;
  }

  lemma FlowSet(s: State)
    requires s.wr == FRESH.(pc := Full1) && !s.q.noblock && !s.q.closed && Len(s.q.blocks) >= s.q.limit
    ensures var acts := [W(Flow1), W(Flow2), W(WriterAct.SetFlow)];
            IsRun(s, acts) && After(s, acts) == s.(q := s.q.(flow := true), wr := FRESH.(pc := Pc.Wait))
  {
    hide Len, AllSound, ReaderStep, CloserStep, ReaderCan, CloserCan;
    var s1 := Step(s, W(Flow1));
    var s2 := Step(s1, W(Flow2));
    Prepend(s2, W(WriterAct.SetFlow), []);
    Prepend(s1, W(Flow2), [W(WriterAct.SetFlow)]);
    Prepend(s, W(Flow1), [W(Flow2), W(WriterAct.SetFlow)]);
  }

  lemma Committing(s: State)
    requires s.wr == FRESH.(pc := Pc.Wait) && !s.q.closed && Len(s.q.blocks) >= s.q.limit
    ensures var acts := [W(WriterAct.Sleep), W(WriterAct.Test1), W(WriterAct.Test2)];
            IsRun(s, acts) && After(s, acts) == s.(wr := Side(true, false, true, true, Asleep))
  {
    hide Len, AllSound, ReaderStep, CloserStep, ReaderCan, CloserCan;
    var s1 := Step(s, W(WriterAct.Sleep));
    var s2 := Step(s1, W(WriterAct.Test1));
    Prepend(s2, W(WriterAct.Test2), []);
    Prepend(s1, W(WriterAct.Test1), [W(WriterAct.Test2)]);
    Prepend(s, W(WriterAct.Sleep), [W(WriterAct.Test1), W(WriterAct.Test2)]);
  }

  // ---- The reader ----

  /** A flush is safe unless it takes blocks away while the reader is on its way to sleep
      and its request for a wakeup has been taken already. A closed queue, a wakeup still
      to come that finds the reader registered, and a writer that cannot write again
      save it all the same. */
  predicate FlushIsSafe(s: State) {
    var pc := s.rd.pc;
    || s.q.starve || s.q.blocks == [] || s.q.closed
    || (pc != Pc.Wait && pc != Pc.Test1 && pc != Pc.Test2)
    || (pc != Pc.Wait && ReaderWakeComing(s))
    || Blocked(s)
  }

  predicate LosesReader(s: State, acts: seq<Action>) {
    IsRun(s, acts) && C(Flush) !in acts && ReaderLost(After(s, acts))
  }

  predicate FlushesAreSafe(s: State, acts: seq<Action>)
    requires IsRun(s, acts)
    decreases |acts|
  {
    acts == [] || ((acts[0] == C(Flush) ==> FlushIsSafe(s)) && FlushesAreSafe(Step(s, acts[0]), acts[1..]))
  }

  lemma {:induction false} ReaderKept(s: State, acts: seq<Action>)
    requires Basic(s) && ReaderInv(s) && IsRun(s, acts) && FlushesAreSafe(s, acts)
    ensures Basic(After(s, acts)) && ReaderInv(After(s, acts))
    decreases |acts|
  {
    if acts != [] {
      StepKeepsBasic(s, acts[0]);
      StepKeepsReader(s, acts[0]);
      ReaderKept(Step(s, acts[0]), acts[1..]);
    }
  }

  /** In no run whose flushes are safe does the reader sleep on a closed or non-empty
      queue without someone about to wake it. */
  lemma ReaderNeverLost(s: State, acts: seq<Action>)
    requires Init(s) && IsRun(s, acts) && FlushesAreSafe(s, acts)
    ensures !ReaderLost(After(s, acts))
  {
    ReaderKept(s, acts);
  }

  lemma {:induction false} WithoutFlushSafe(s: State, acts: seq<Action>)
    requires IsRun(s, acts) && C(Flush) !in acts
    ensures FlushesAreSafe(s, acts)
    decreases |acts|
  {
    if acts != [] {
      WithoutFlushSafe(Step(s, acts[0]), acts[1..]);
    }
  }

  /** Wherever a run with safe flushes has got to, one flush more leads to a lost reader
      without any further flush exactly when that flush is not safe. */
  lemma FlushSafeExactly(s: State, acts: seq<Action>)
    requires Init(s) && IsRun(s, acts) && FlushesAreSafe(s, acts)
    ensures (forall more :: !LosesReader(Step(After(s, acts), C(Flush)), more)) <==> FlushIsSafe(After(s, acts))
  {
    ReaderKept(s, acts);
    var t := After(s, acts);
    var u := Step(t, C(Flush));
    StepKeepsBasic(t, C(Flush));
    if FlushIsSafe(t) {
      StepKeepsReader(t, C(Flush));
      forall more ensures !LosesReader(u, more) {
        if IsRun(u, more) && C(Flush) !in more {
          WithoutFlushSafe(u, more);
          ReaderKept(u, more);
        }
      }
    } else {
      assert Doomed(u);
      var more := DoomedIsLost(u);
      assert LosesReader(u, more);
    }
  }

  /** The reader is on its way to sleep, or asleep, at an empty open queue that has been
      asked for no wakeup, and none is to come once it is registered; the writer can
      still get to its next write. */
  predicate Doomed(s: State) {
    && Basic(s) && !s.q.starve && !s.q.closed && s.q.blocks == [] && !Blocked(s)
    && (s.rd.pc == Pc.Wait || s.rd.pc == Pc.Test1 || s.rd.pc == Pc.Test2 || s.rd.wakeme)
    && (s.rd.pc == Pc.Wait || !ReaderWakeComing(s))
    && (s.closersW > 0 || s.wr.pc == Idle || s.wr.pc == Full1 || s.wr.pc == Wake || (s.wr.pc == Asleep && !s.wr.wakeme))
  }

  /** What happens next on the way to the loss: the pending wakeups of the reader, before
      it is registered; its sleep; then the writer on its way to the next write. */
  function Next(s: State): Action
    requires Doomed(s) && !(s.rd.wakeme && s.wr.pc == Idle)
  {
    if s.closersR > 0 then C(WakeR)
    else if s.wr.pc == Wake then W(WakeReader)
    else match s.rd.pc
      case Wait => R(ReaderAct.Sleep)
      case Test1 => R(ReaderAct.Test1)
      case Test2 => R(ReaderAct.Test2)
      case _ =>
        match s.wr.pc
        case Full1 => W(Flow1)
        case Full2 => W(Flow2)
        case SetFlow => W(WriterAct.SetFlow)
        case Wait => W(WriterAct.Sleep)
        case Test1 => W(WriterAct.Test1)
        case Test2 => W(WriterAct.Test2)
        case _ => if s.wr.wakeme then C(WakeW) else W(WriterAct.Resume)
  }

  function ReaderRank(s: State): nat {
    match s.rd.pc
    case Wait => 3
    case Test1 => 2
    case Test2 => 1
    case _ => 0
  }

  function WriterRank(s: State): nat {
    match s.wr.pc
    case Idle => 0
    case Full1 => 1
    case Wake => 2
    case Asleep => if s.wr.wakeme then 3 else 2
    case Test1 => 2
    case Test2 => 4
    case Wait => 5
    case SetFlow => 6
    case Full2 => 7
  }

  lemma NextIsDoomed(s: State)
    requires Doomed(s) && !(s.rd.wakeme && s.wr.pc == Idle)
    ensures var a := Next(s); Enabled(s, a) && a != C(Flush) && Doomed(Step(s, a))
    ensures var t := Step(s, Next(s));
            t.closersR + ReaderRank(t) + WriterRank(t) < s.closersR + ReaderRank(s) + WriterRank(s)
  {
    LenEmpty();
  }

  lemma {:induction false} DoomedIsLost(s: State) returns (acts: seq<Action>)
    requires Doomed(s)
    ensures LosesReader(s, acts)
    decreases s.closersR + ReaderRank(s) + WriterRank(s)
  {
    if s.rd.wakeme && s.wr.pc == Idle {
      var b := EmptyBlock();
      LenEmpty();
      assert [] + [b] == [b];
      Prepend(s, W(Write([b])), []);
      acts := [W(Write([b]))] + [];
    } else {
      NextIsDoomed(s);
      var rest := DoomedIsLost(Step(s, Next(s)));
      Prepend(s, Next(s), rest);
      acts := [Next(s)] + rest;
    }
  }

  /** The run of FlushLosesReader: the writer's wakeup comes before the reader's sleep,
      and the queue is flushed between the two. */
  function LosingRun(b: Blk): seq<Action> {
    [R(Starve(0)), W(Write([b])), W(WakeReader), W(Flow1), C(Flush)] +
    [R(ReaderAct.Sleep), R(ReaderAct.Test1), R(ReaderAct.Test2), W(Write([b])), W(Flow1)]
  }

  /** qflush empties the queue without asking the producer for a wakeup. When the one
      that was owed fell between the reader's decision to sleep and its sleep, the
      reader sleeps on, and the next write does not wake it. */
  lemma FlushLosesReader(limit: nat, noblock: bool, coalesce: bool, b: Blk)
    requires limit > 2 * b.a && Sound(b)
    ensures Init(Start(limit, noblock, coalesce)) && IsRun(Start(limit, noblock, coalesce), LosingRun(b))
    ensures ReaderLost(After(Start(limit, noblock, coalesce), LosingRun(b)))
  {
    var s := Start(limit, noblock, coalesce);
    assert Len([b]) == b.a && [] + [b] == [b];
    var e := Fifo([], limit, noblock, coalesce, false, false, false);
    var s5 := State(e, FRESH.(pc := Pc.Wait), FRESH, 0, 1, false, false);
    FirstHalf(limit, noblock, coalesce, b, s5);
    SecondHalf(limit, noblock, coalesce, b, s5);
    var h1 := [R(Starve(0)), W(Write([b])), W(WakeReader), W(Flow1), C(Flush)];
    Concatenate(s, h1, [R(ReaderAct.Sleep), R(ReaderAct.Test1), R(ReaderAct.Test2), W(Write([b])), W(Flow1)]);
  }

  lemma FirstHalf(limit: nat, noblock: bool, coalesce: bool, b: Blk, s5: State)
    requires limit > 2 * b.a && Sound(b)
    requires s5 == State(Fifo([], limit, noblock, coalesce, false, false, false), FRESH.(pc := Pc.Wait), FRESH,
                         0, 1, false, false)
    ensures var acts := [R(Starve(0)), W(Write([b])), W(WakeReader), W(Flow1), C(Flush)];
            IsRun(Start(limit, noblock, coalesce), acts) && After(Start(limit, noblock, coalesce), acts) == s5
  {
    assert Len([b]) == b.a && [] + [b] == [b];
    var s := Start(limit, noblock, coalesce);
    var s1 := Step(s, R(Starve(0)));
    var s2 := Step(s1, W(Write([b])));
    var s3 := Step(s2, W(WakeReader));
    var s4 := Step(s3, W(Flow1));
    assert Step(s4, C(Flush)) == s5;
    hide Step, Enabled;
    Prepend(s4, C(Flush), []);
    Prepend(s3, W(Flow1), [C(Flush)]);
    Prepend(s2, W(WakeReader), [W(Flow1), C(Flush)]);
    Prepend(s1, W(Write([b])), [W(WakeReader), W(Flow1), C(Flush)]);
    Prepend(s, R(Starve(0)), [W(Write([b])), W(WakeReader), W(Flow1), C(Flush)]);
  }

  lemma SecondHalf(limit: nat, noblock: bool, coalesce: bool, b: Blk, s5: State)
    requires limit > 2 * b.a && Sound(b)
    requires s5 == State(Fifo([], limit, noblock, coalesce, false, false, false), FRESH.(pc := Pc.Wait), FRESH,
                         0, 1, false, false)
    ensures var acts := [R(ReaderAct.Sleep), R(ReaderAct.Test1), R(ReaderAct.Test2), W(Write([b])), W(Flow1)];
            IsRun(s5, acts) && ReaderLost(After(s5, acts))
  {
    assert Len([b]) == b.a && [] + [b] == [b] && b in [b];
    var s6 := Step(s5, R(ReaderAct.Sleep));
    var s7 := Step(s6, R(ReaderAct.Test1));
    var s8 := Step(s7, R(ReaderAct.Test2));
    var s9 := Step(s8, W(Write([b])));
    Prepend(s9, W(Flow1), []);
    Prepend(s8, W(Write([b])), [W(Flow1)]);
    Prepend(s7, R(ReaderAct.Test2), [W(Write([b])), W(Flow1)]);
    Prepend(s6, R(ReaderAct.Test1), [R(ReaderAct.Test2), W(Write([b])), W(Flow1)]);
    Prepend(s5, R(ReaderAct.Sleep), [R(ReaderAct.Test1), R(ReaderAct.Test2), W(Write([b])), W(Flow1)]);
  }
}
