/**
 The 9P multiplexer of kern/devmnt.c as a small-step machine: any number of
 processes share one mount channel, one of them at a time reads it and hands
 replies to their owners by tag, and an interrupted request grows a chain of
 flushes (flush(5)).

 A step is what a process does between two points where another process can be
 noticed: m->lk is held across the scan of mntgate and from completing a request
 to waking its owner, and the lock of a Rendez across the test and the decision
 in sleep (pc Committed).  Interrupts and the replies of the server are arbitrary.
 A request is named by its tag; module MntTags shows that live requests have
 different ones.
 */
module Mux {
  import opened Bytes

  type Pid = nat
  type Tag = nat

  const NOTAG := 0xFFFF

  /** What a reply holds besides its tag. */
  type Body = seq<byte>

  datatype Reply = NoReply | Answer(tag: Tag, body: Body) | Flushed

  /** depth counts the requests below this one in the flush chain. */
  datatype Rpc = Rpc(owner: Pid, depth: nat, flushed: Option<Tag>, oldtag: Tag, done: bool, reply: Reply)

  datatype Next = ThenReturn | ThenHandle(intr: bool)

  datatype Stage = Test | Mark | Unqueue | Advance

  datatype Pc =
    | Idle
    | Ready                                // about to put chain[0] on m->queue
    | Sending                              // in bwrite
    | Looking                              // about to test m->rip under m->lk
    | Sleepy                               // saw a reader; about to call sleep
    | Committed                            // in sleep, condition false, Rendez locked
    | Asleep
    | Roused                               // leaving sleep
    | Reading                              // m->rip == up
    | Muxing(tag: Tag, body: Body)         // this reply was read
    | Waking(target: Pid)                  // in mountmux, about to call wakeup
    | Gating(rest: seq<Tag>, next: Next)   // in mntgate, rest still to be looked at
    | Raised(intr: bool)                   // error() was called
    | Handling(intr: bool)                 // the error is being handled, past mntgate
    | Cleaning(stage: Stage, raised: bool) // in mntflushfree at chain[0]
    | Finished(raised: bool)

  /** chain[0] is the current request (r), the last element the original. */
  datatype Proc = Proc(pc: Pc, chain: seq<Tag>)

  datatype Channel = Channel(procs: map<Pid, Proc>, rpcs: map<Tag, Rpc>, queue: seq<Tag>,
                     rip: Option<Pid>, lk: Option<Pid>, notes: set<Pid>)

  datatype Action =
    | Start(p: Pid, t: Tag)   // mntralloc, then mountio
    | Enqueue(p: Pid)
    | SendOk(p: Pid)
    | SendIntr(p: Pid)
    | SendFail(p: Pid)        // any other error while the request is sent
    | Look(p: Pid)
    | Check(p: Pid)
    | Commit(p: Pid)
    | Leave(p: Pid)           // return from sleep
    | Note(p: Pid)            // an interrupt is posted
    | Read(p: Pid, t: Tag, body: Body)  // mntrpcread returned this reply
    | ReadError(p: Pid, intr: bool)
    | ReadDone(p: Pid)        // the reader's own request is done: mntgate
    | Dispatch(p: Pid)        // mountmux
    | Wake(p: Pid)
    | Scan(p: Pid)            // one turn of mntgate's loop
    | Catch(p: Pid)           // waserror: gate if reader
    | Flush(p: Pid, t: Tag)   // mntflushalloc
    | Abandon(p: Pid)         // not an interrupt: mntflushfree, then raise
    | Clean(p: Pid)
    | Finish(p: Pid)          // mountio has returned or raised; the caller frees the original

  // --- state updates ----------------------------------------------------------

  function Pcs(s: Channel, p: Pid): Pc { if p in s.procs then s.procs[p].pc else Idle }

  function Chain(s: Channel, p: Pid): seq<Tag> { if p in s.procs then s.procs[p].chain else [] }

  function Goto(s: Channel, p: Pid, pc: Pc): Channel
    requires p in s.procs
  {
    s.(procs := s.procs[p := s.procs[p].(pc := pc)])
  }

  function Without(q: seq<Tag>, t: Tag): seq<Tag> {
    if q == [] then [] else if q[0] == t then q[1..] else [q[0]] + Without(q[1..], t)
  }

  /** wakeup on the Rendez of p. */
  function Wakeup(s: Channel, p: Pid): Channel {
    if Pcs(s, p) == Asleep then Goto(s, p, Roused) else s
  }

  function Complete(s: Channel, t: Tag, body: Body): Channel
    requires t in s.rpcs
  {
    s.(rpcs := s.rpcs[t := s.rpcs[t].(done := true, reply := Answer(t, body))], queue := Without(s.queue, t))
  }

  function AfterGate(s: Channel, p: Pid, next: Next): Channel
    requires p in s.procs
  {
    Goto(s, p, if next.ThenReturn? then Cleaning(Test, false) else Handling(next.intr)).(lk := None)
  }

  predicate FreshTag(s: Channel, t: Tag) { 0 < t < NOTAG && t !in s.rpcs }

  predicate Undone(s: Channel, p: Pid) {
    Chain(s, p) != [] && Chain(s, p)[0] in s.rpcs && !s.rpcs[Chain(s, p)[0]].done
  }

  predicate Done(s: Channel, p: Pid) {
    Chain(s, p) != [] && Chain(s, p)[0] in s.rpcs && s.rpcs[Chain(s, p)[0]].done
  }

  // --- the machine --------------------------------------------------------------

  predicate Enabled(s: Channel, a: Action) {
    a.p in s.procs &&
    var pc := s.procs[a.p].pc;
    match a
    case Start(p, t) => pc == Idle && FreshTag(s, t)
    case Enqueue(p) => pc == Ready && s.lk == None
    case SendOk(p) => pc == Sending
    case SendIntr(p) => pc == Sending
    case SendFail(p) => pc == Sending
    case Look(p) => pc == Looking && s.lk == None
    case Check(p) => pc == Sleepy
    case Commit(p) => pc == Committed
    case Leave(p) => pc == Roused
    case Note(p) => true
    case Read(p, _, _) => pc == Reading && Undone(s, p)
    case ReadError(p, intr) => pc == Reading && Undone(s, p)
    case ReadDone(p) => pc == Reading && Done(s, p) && s.lk == None
    case Dispatch(p) => pc.Muxing? && s.lk == None
    case Wake(p) => pc.Waking? && Pcs(s, pc.target) != Committed
    case Scan(p) => pc.Gating? &&
      (pc.rest != [] && pc.rest[0] in s.rpcs ==> Pcs(s, s.rpcs[pc.rest[0]].owner) != Committed)
    case Catch(p) => pc.Raised? && (s.rip == Some(p) ==> s.lk == None)
    case Flush(p, t) => pc == Handling(true) && FreshTag(s, t)
    case Abandon(p) => pc == Handling(false)
    case Clean(p) => pc.Cleaning? && (pc.stage == Unqueue ==> s.lk == None)
    case Finish(p) => pc.Finished?
  }

  function Step(s: Channel, a: Action): Channel
    requires Enabled(s, a)
  {
    var p := a.p;
    var Proc(pc, chain) := s.procs[p];
    match a
    case Start(_, t) =>
      s.(procs := s.procs[p := Proc(Ready, [t])],
         rpcs := s.rpcs[t := Rpc(p, 0, None, 0, false, NoReply)])
    case Enqueue(_) =>
      Goto(s, p, Sending).(queue := (if chain == [] then [] else [chain[0]]) + s.queue)
    case SendOk(_) => Goto(s, p, Looking)
    case SendIntr(_) => Goto(s, p, Raised(true))
    case SendFail(_) => Goto(s, p, Raised(false))
    case Look(_) =>
      if s.rip == None then Goto(s, p, Reading).(rip := Some(p)) else Goto(s, p, Sleepy)
    case Check(_) =>
      // rpcattn, or a note is pending
      if Done(s, p) || s.rip == None || p in s.notes then Goto(s, p, Roused) else Goto(s, p, Committed)
    case Commit(_) => Goto(s, p, Asleep)
    case Leave(_) =>
      if p in s.notes then Goto(s, p, Raised(true)).(notes := s.notes - {p})
      else if Done(s, p) then Goto(s, p, Cleaning(Test, false))
      else Goto(s, p, Looking)
    case Note(_) => Wakeup(s, p).(notes := s.notes + {p})
    case Read(_, t, body) => Goto(s, p, Muxing(t, body))
    case ReadError(_, intr) => Goto(s, p, Raised(intr))
    case ReadDone(_) => Goto(s, p, Gating(s.queue, ThenReturn)).(rip := None, lk := Some(p))
    case Dispatch(_) =>
      var t := pc.tag;
      if t !in s.queue || t !in s.rpcs then Goto(s, p, Reading)
      else if chain != [] && chain[0] == t then Goto(Complete(s, t, pc.body), p, Reading)
      else Goto(Complete(s, t, pc.body), p, Waking(s.rpcs[t].owner)).(lk := Some(p))
    case Wake(_) => Goto(Wakeup(s, pc.target), p, Reading).(lk := None)
    case Scan(_) =>
      if pc.rest == [] then AfterGate(s, p, pc.next)
      else if pc.rest[0] in s.rpcs && !s.rpcs[pc.rest[0]].done && Pcs(s, s.rpcs[pc.rest[0]].owner) == Asleep then
        AfterGate(Wakeup(s, s.rpcs[pc.rest[0]].owner), p, pc.next)
      else Goto(s, p, Gating(pc.rest[1..], pc.next))
    case Catch(_) =>
      if s.rip == Some(p) then Goto(s, p, Gating(s.queue, ThenHandle(pc.intr))).(rip := None, lk := Some(p))
      else Goto(s, p, Handling(pc.intr))
    case Flush(_, t) =>
      var r := if chain == [] then 0 else chain[0];
      var oldtag := if r in s.rpcs && s.rpcs[r].depth > 0 then s.rpcs[r].oldtag else r;
      s.(procs := s.procs[p := Proc(Ready, [t] + chain)],
         rpcs := s.rpcs[t := Rpc(p, |chain|, Some(r), oldtag, false, NoReply)])
    case Abandon(_) => Goto(s, p, Cleaning(Test, true))
    case Clean(_) => CleanStep(s, p)
    case Finish(_) => s.(procs := s.procs[p := Proc(Idle, [])], rpcs := s.rpcs - set t | t in chain)
  }

  /** mntflushfree at the request chain[0]. */
  function CleanStep(s: Channel, p: Pid): Channel
    requires p in s.procs && s.procs[p].pc.Cleaning?
  {
    var Proc(Cleaning(stage, raised), chain) := s.procs[p];
    if chain == [] || chain[0] !in s.rpcs then s
    else
      var r := chain[0];
      match stage
      case Test => Goto(s, p, Cleaning(if s.rpcs[r].done then Advance else Mark, raised))
      case Mark =>
        Goto(s, p, Cleaning(Unqueue, raised)).(rpcs := s.rpcs[r := s.rpcs[r].(reply := Flushed)])
      case Unqueue =>
        Goto(s, p, Cleaning(Advance, raised)).(rpcs := s.rpcs[r := s.rpcs[r].(done := true)], queue := Without(s.queue, r))
      case Advance =>
        if s.rpcs[r].flushed == None then Goto(s, p, Finished(raised))
        else s.(procs := s.procs[p := Proc(Cleaning(Test, raised), chain[1..])], rpcs := s.rpcs - {r})
  }

  // --- the invariant --------------------------------------------------------------

  /** Request i of the chain c of p: it belongs to p, is linked to the next one, and
      every flush carries the tag of the original. */
  predicate LinkOk(rpcs: map<Tag, Rpc>, p: Pid, c: seq<Tag>, i: nat)
    requires i < |c|
  {
    && c[i] in rpcs
    && rpcs[c[i]].owner == p
    && rpcs[c[i]].depth == |c| - 1 - i
    && rpcs[c[i]].flushed == (if i + 1 < |c| then Some(c[i + 1]) else None)
    && (i + 1 < |c| ==> rpcs[c[i]].oldtag == c[|c| - 1])
  }

  ghost predicate ChainOk(s: Channel, p: Pid) {
    && (Pcs(s, p) == Idle <==> Chain(s, p) == [])
    && forall i {:trigger LinkOk(s.rpcs, p, Chain(s, p), i)} :: 0 <= i < |Chain(s, p)| ==> LinkOk(s.rpcs, p, Chain(s, p), i)
  }

  /** The reply with this tag. */
  predicate Own(r: Reply, t: Tag) { r.Answer? && r.tag == t }

  ghost predicate RpcOk(s: Channel, t: Tag)
    requires t in s.rpcs
  {
    var r := s.rpcs[t];
    var c := Chain(s, r.owner);
    && 0 < t < NOTAG
    && r.depth < |c| && c[|c| - 1 - r.depth] == t
    && (r.done ==> Own(r.reply, t) || r.reply == Flushed)
    && (r.done ==> t !in s.queue)
    && (!r.done ==> t in s.queue || (r.depth == |c| - 1 && Pcs(s, r.owner) == Ready))
    && (r.depth == |c| - 1 && Pcs(s, r.owner) == Ready ==> !r.done && t !in s.queue)
  }

  predicate Distinct(q: seq<Tag>) {
    q == [] || (q[0] !in q[1..] && Distinct(q[1..]))
  }

  ghost predicate QueueOk(s: Channel) {
    Distinct(s.queue) && forall t :: t in s.queue ==> t in s.rpcs
  }

  predicate IsReader(pc: Pc) { pc == Reading || pc.Muxing? || pc.Waking? }

  ghost predicate PcOk(s: Channel, p: Pid) {
    var pc := Pcs(s, p);
    && (IsReader(pc) ==> s.rip == Some(p))
    && (s.rip == Some(p) ==> IsReader(pc) || pc.Raised?)
    && (s.lk == Some(p) <==> pc.Waking? || pc.Gating?)
    && (pc.Gating? ==> s.rip == None)
    && (pc.Cleaning? && pc.stage == Advance ==> Done(s, p))
    && (pc.Cleaning? && pc.stage == Unqueue ==> Flagged(s, p))
    && (pc.Finished? ==> Done(s, p) && |Chain(s, p)| == 1)
    && ((pc == Committed || pc == Asleep) && Done(s, p) ==> s.lk.Some? && Pcs(s, s.lk.value) == Waking(p))
  }

  predicate Flagged(s: Channel, p: Pid) {
    && Chain(s, p) != [] && Chain(s, p)[0] in s.rpcs
    && (Own(s.rpcs[Chain(s, p)[0]].reply, Chain(s, p)[0]) || s.rpcs[Chain(s, p)[0]].reply == Flushed)
  }

  ghost predicate Inv(s: Channel) {
    && (forall p :: ChainOk(s, p))
    && (forall t :: t in s.rpcs ==> RpcOk(s, t))
    && QueueOk(s)
    && (forall p :: PcOk(s, p))
    && (s.rip.Some? ==> s.rip.value in s.procs)
    && (s.lk.Some? ==> s.lk.value in s.procs)
  }

  // --- steps that only move processes -----------------------------------------

  /** The requests, the queue and the chains are as before. */
  ghost predicate SameTables(s: Channel, s': Channel) {
    && s'.rpcs == s.rpcs && s'.queue == s.queue && s'.procs.Keys == s.procs.Keys
    && (forall p :: Chain(s', p) == Chain(s, p))
    && (forall p :: Pcs(s', p) == Ready <==> Pcs(s, p) == Ready)
    && (forall p :: Pcs(s', p) == Idle <==> Pcs(s, p) == Idle)
  }

  predicate IsMove(s: Channel, a: Action)
    requires a.p in s.procs
  {
    || a.SendOk? || a.SendIntr? || a.SendFail? || a.Look? || a.Check? || a.Commit? || a.Leave? || a.Note?
    || a.Read? || a.ReadError? || a.ReadDone? || a.Wake? || a.Scan? || a.Catch? || a.Abandon?
    || (a.Clean? && s.procs[a.p].pc.Cleaning? &&
        (s.procs[a.p].pc.stage == Test || (s.procs[a.p].pc.stage == Advance && |Chain(s, a.p)| <= 1)))
  }

  lemma GotoKeepsTables(s: Channel, p: Pid, pc: Pc, s': Channel)
    requires p in s.procs && s'.procs == Goto(s, p, pc).procs && s'.rpcs == s.rpcs && s'.queue == s.queue
    requires pc != Ready && pc != Idle && Pcs(s, p) != Ready && Pcs(s, p) != Idle
    ensures SameTables(s, s')
  {}

  lemma WakeupKeepsTables(s: Channel, p: Pid)
    ensures SameTables(s, Wakeup(s, p))
  {}

  lemma SameTablesTransitive(s: Channel, s1: Channel, s2: Channel)
    requires SameTables(s, s1) && SameTables(s1, s2)
    ensures SameTables(s, s2)
  {}

  lemma MoveKeepsTables(s: Channel, a: Action)
    requires Inv(s) && Enabled(s, a) && IsMove(s, a)
    ensures SameTables(s, Step(s, a))
  {
    hide ChainOk;
    hide SameTables;
    var s' := Step(s, a);
    if a.Note? {
      WakeupKeepsTables(s, a.p);
      SameTablesNotes(s, Wakeup(s, a.p), s');
    } else if a.Wake? {
      var s1 := Wakeup(s, s.procs[a.p].pc.target);
      WakeupKeepsTables(s, s.procs[a.p].pc.target);
      GotoKeepsTables(s1, a.p, Reading, s');
      SameTablesTransitive(s, s1, s');
    } else if a.Scan? {
      ScanKeepsTables(s, a);
    } else if a.SendOk? || a.SendIntr? || a.SendFail? || a.Look? || a.Check? || a.Commit? || a.Leave? {
      SleeperKeepsTables(s, a);
    } else if a.Clean? {
      CleanKeepsTables(s, a);
    } else {
      ReaderKeepsTables(s, a);
    }
  }

  lemma SleeperKeepsTables(s: Channel, a: Action)
    requires Enabled(s, a)
    requires a.SendOk? || a.SendIntr? || a.SendFail? || a.Look? || a.Check? || a.Commit? || a.Leave?
    ensures SameTables(s, Step(s, a))
  {
    hide SameTables;
    GotoKeepsTables(s, a.p, Pcs(Step(s, a), a.p), Step(s, a));
  }

  lemma ReaderKeepsTables(s: Channel, a: Action)
    requires Enabled(s, a)
    requires a.Read? || a.ReadError? || a.ReadDone? || a.Catch? || a.Abandon?
    ensures SameTables(s, Step(s, a))
  {
    hide SameTables;
    GotoKeepsTables(s, a.p, Pcs(Step(s, a), a.p), Step(s, a));
  }

  lemma CleanKeepsTables(s: Channel, a: Action)
    requires Enabled(s, a) && a.Clean? && ChainOk(s, a.p) && IsMove(s, a)
    ensures SameTables(s, Step(s, a))
  {
    var c := Chain(s, a.p);
    assert c != [] ==> LinkOk(s.rpcs, a.p, c, 0);
    hide SameTables;
    GotoKeepsTables(s, a.p, Pcs(Step(s, a), a.p), Step(s, a));
  }

  lemma SameTablesNotes(s: Channel, s1: Channel, s2: Channel)
    requires SameTables(s, s1) && s2 == s1.(notes := s2.notes)
    ensures SameTables(s, s2)
  {}

  lemma ScanKeepsTables(s: Channel, a: Action)
    requires Enabled(s, a) && a.Scan?
    ensures SameTables(s, Step(s, a))
  {
    hide SameTables;
    var s', rest := Step(s, a), s.procs[a.p].pc.rest;
    if rest != [] && rest[0] in s.rpcs && !s.rpcs[rest[0]].done && Pcs(s, s.rpcs[rest[0]].owner) == Asleep {
      var s1 := Wakeup(s, s.rpcs[rest[0]].owner);
      WakeupKeepsTables(s, s.rpcs[rest[0]].owner);
      GotoKeepsTables(s1, a.p, Pcs(s', a.p), s');
      SameTablesTransitive(s, s1, s');
    } else {
      GotoKeepsTables(s, a.p, Pcs(s', a.p), s');
    }
  }

  lemma SameTablesKeep(s: Channel, s': Channel)
    requires TablesOk(s) && SameTables(s, s')
    ensures TablesOk(s')
  {
    forall p ensures ChainOk(s', p) { assert ChainOk(s, p); }
    forall t | t in s'.rpcs ensures RpcOk(s', t) { assert RpcOk(s, t); }
  }

  // --- steps that change the tables ---------------------------------------------

  ghost predicate TablesOk(s: Channel) {
    && (forall p :: ChainOk(s, p))
    && (forall t :: t in s.rpcs ==> RpcOk(s, t))
    && QueueOk(s)
  }

  lemma {:induction false} WithoutRemoves(q: seq<Tag>, t: Tag)
    requires Distinct(q)
    ensures Distinct(Without(q, t))
    ensures forall u :: u in Without(q, t) <==> u in q && u != t
  {
    if q != [] && q[0] != t {
      WithoutRemoves(q[1..], t);
      assert forall u :: u in q <==> u == q[0] || u in q[1..];
      assert Without(q, t)[1..] == Without(q[1..], t);
    } else if q != [] {
      assert forall u :: u in q <==> u == q[0] || u in q[1..];
    }
  }

  /** Links of a process survive a change of the requests that leaves its own alone. */
  lemma LinksSurvive(s: Channel, s': Channel, p: Pid)
    requires ChainOk(s, p) && Chain(s', p) == Chain(s, p)
    requires Pcs(s', p) == Idle <==> Pcs(s, p) == Idle
    requires forall t :: t in s.rpcs && s.rpcs[t].owner == p ==>
               t in s'.rpcs && s'.rpcs[t] == s.rpcs[t].(done := s'.rpcs[t].done, reply := s'.rpcs[t].reply)
    ensures ChainOk(s', p)
  {
    var c := Chain(s, p);
    forall i | 0 <= i < |c| ensures LinkOk(s'.rpcs, p, c, i) {
      assert LinkOk(s.rpcs, p, c, i);
    }
  }

  lemma StartKeepsTables(s: Channel, p: Pid, t: Tag)
    requires TablesOk(s) && Enabled(s, Start(p, t))
    ensures TablesOk(Step(s, Start(p, t)))
  {
    var s' := Step(s, Start(p, t));
    assert ChainOk(s, p);
    forall q ensures ChainOk(s', q) {
      if q == p {
        assert LinkOk(s'.rpcs, p, [t], 0);
      } else {
        assert ChainOk(s, q);
        LinksSurvive(s, s', q);
      }
    }
    forall u | u in s'.rpcs ensures RpcOk(s', u) {
      if u != t { assert RpcOk(s, u); }
    }
  }

  lemma FlushLinks(s: Channel, p: Pid, t: Tag)
    requires TablesOk(s) && Enabled(s, Flush(p, t))
    ensures ChainOk(Step(s, Flush(p, t)), p)
  {
    hide Own, Distinct, QueueOk, RpcOk, CleanStep, Without, AfterGate, Wakeup, Complete;
    var s', c := Step(s, Flush(p, t)), Chain(s, p);
    assert ChainOk(s, p);
    assert LinkOk(s.rpcs, p, c, 0);
    forall i | 0 <= i < |[t] + c| ensures LinkOk(s'.rpcs, p, [t] + c, i) {
      assert i > 0 ==> LinkOk(s.rpcs, p, c, i - 1);
    }
  }

  lemma FlushRpc(s: Channel, p: Pid, t: Tag, u: Tag)
    requires Enabled(s, Flush(p, t)) && u in s.rpcs && RpcOk(s, u)
    ensures RpcOk(Step(s, Flush(p, t)), u)
  {}

  lemma FlushKeepsTables(s: Channel, p: Pid, t: Tag)
    requires TablesOk(s) && Enabled(s, Flush(p, t))
    ensures TablesOk(Step(s, Flush(p, t)))
  {
    var s' := Step(s, Flush(p, t));
    FlushLinks(s, p, t);
    hide LinkOk;
    forall q ensures ChainOk(s', q) {
      if q != p {
        assert ChainOk(s, q);
        LinksSurvive(s, s', q);
      }
    }
    forall u | u in s'.rpcs ensures RpcOk(s', u) {
      if u != t { FlushRpc(s, p, t, u); }
    }
  }

  lemma EnqueueRpc(s: Channel, p: Pid, u: Tag)
    requires Enabled(s, Enqueue(p)) && u in s.rpcs && RpcOk(s, u)
    requires Chain(s, p) != [] && LinkOk(s.rpcs, p, Chain(s, p), 0) && RpcOk(s, Chain(s, p)[0])
    ensures RpcOk(Step(s, Enqueue(p)), u)
  {}

  lemma EnqueueKeepsTables(s: Channel, p: Pid)
    requires TablesOk(s) && Enabled(s, Enqueue(p))
    ensures TablesOk(Step(s, Enqueue(p)))
  {
    var s', c := Step(s, Enqueue(p)), Chain(s, p);
    assert ChainOk(s, p);
    assert LinkOk(s.rpcs, p, c, 0);
    assert RpcOk(s, c[0]);
    assert s'.queue[1..] == s.queue;
    forall q ensures ChainOk(s', q) {
      assert ChainOk(s, q);
      LinksSurvive(s, s', q);
    }
    forall u | u in s'.rpcs ensures RpcOk(s', u) {
      EnqueueRpc(s, p, u);
    }
  }

  lemma FinishRpc(s: Channel, p: Pid, u: Tag)
    requires Enabled(s, Finish(p)) && |Chain(s, p)| == 1 && u in s.rpcs && u != Chain(s, p)[0] && RpcOk(s, u)
    ensures RpcOk(Step(s, Finish(p)), u)
  {}

  lemma FinishKeepsTables(s: Channel, p: Pid)
    requires TablesOk(s) && Enabled(s, Finish(p)) && |Chain(s, p)| == 1 && Done(s, p)
    ensures TablesOk(Step(s, Finish(p)))
  {
    hide ChainOk, RpcOk;
    var s' := Step(s, Finish(p));
    assert ChainOk(s, p);
    FinishChains(s, p);
    forall u | u in s'.rpcs ensures RpcOk(s', u) {
      assert RpcOk(s, u);
      FinishRpc(s, p, u);
    }
    FinishQueue(s, p);
  }

  lemma FinishChains(s: Channel, p: Pid)
    requires TablesOk(s) && Enabled(s, Finish(p)) && |Chain(s, p)| == 1
    ensures forall q :: ChainOk(Step(s, Finish(p)), q)
  {
    var s' := Step(s, Finish(p));
    assert ChainOk(s, p);
    assert LinkOk(s.rpcs, p, Chain(s, p), 0);
    forall q ensures ChainOk(s', q) {
      assert ChainOk(s, q);
      if q != p { LinksSurvive(s, s', q); }
    }
  }

  lemma FinishQueue(s: Channel, p: Pid)
    requires TablesOk(s) && Enabled(s, Finish(p)) && |Chain(s, p)| == 1 && Done(s, p)
    ensures QueueOk(Step(s, Finish(p)))
  {
    hide Own, Distinct;
    var c := Chain(s, p);
    assert ChainOk(s, p);
    assert LinkOk(s.rpcs, p, c, 0);
    assert RpcOk(s, c[0]);
  }

  /** Request t gets a reply, or is done and leaves the queue. */
  ghost predicate Updates(s: Channel, s': Channel, t: Tag) {
    && t in s.rpcs && t in s'.rpcs
    && var r' := s'.rpcs[t];
    && s'.rpcs == s.rpcs[t := s.rpcs[t].(done := r'.done, reply := r'.reply)]
    && (r'.done ==> Own(r'.reply, t) || r'.reply == Flushed)
    && ((r'.done && s'.queue == Without(s.queue, t)) || (r'.done == s.rpcs[t].done && s'.queue == s.queue))
    && !(s.rpcs[t].depth == |Chain(s, s.rpcs[t].owner)| - 1 && Pcs(s, s.rpcs[t].owner) == Ready)
    && (forall p :: Chain(s', p) == Chain(s, p))
    && (forall p :: Pcs(s', p) == Ready <==> Pcs(s, p) == Ready)
    && (forall p :: Pcs(s', p) == Idle <==> Pcs(s, p) == Idle)
  }

  lemma UpdateKeepsTables(s: Channel, s': Channel, t: Tag)
    requires TablesOk(s) && Updates(s, s', t)
    ensures TablesOk(s')
  {
    hide LinkOk, Own, Without, Distinct;
    WithoutRemoves(s.queue, t);
    forall q ensures ChainOk(s', q) {
      assert ChainOk(s, q);
      LinksSurvive(s, s', q);
    }
    forall u | u in s'.rpcs ensures RpcOk(s', u) {
      assert RpcOk(s, u);
    }
  }

  lemma TopIsBusy(s: Channel, p: Pid)
    requires TablesOk(s) && Pcs(s, p) != Idle
    ensures var c := Chain(s, p);
            c != [] && LinkOk(s.rpcs, p, c, 0) && c[0] in s.rpcs && RpcOk(s, c[0])
  {
    assert ChainOk(s, p);
    assert LinkOk(s.rpcs, p, Chain(s, p), 0);
  }

  lemma DispatchUpdates(s: Channel, p: Pid)
    requires Enabled(s, Dispatch(p))
    requires var t := Pcs(s, p).tag; t in s.queue && t in s.rpcs && RpcOk(s, t)
    ensures Updates(s, Step(s, Dispatch(p)), Pcs(s, p).tag)
  {}

  lemma DispatchKeepsTables(s: Channel, p: Pid)
    requires TablesOk(s) && Enabled(s, Dispatch(p))
    ensures TablesOk(Step(s, Dispatch(p)))
  {
    var s', t := Step(s, Dispatch(p)), Pcs(s, p).tag;
    if t in s.queue {
      assert RpcOk(s, t);
      DispatchUpdates(s, p);
      hide *;
      UpdateKeepsTables(s, s', t);
    } else {
      GotoKeepsTables(s, p, Reading, s');
      SameTablesKeep(s, s');
    }
  }

  lemma CleanKeepsAllTables(s: Channel, p: Pid)
    requires TablesOk(s) && Enabled(s, Clean(p)) && !IsMove(s, Clean(p))
    requires Pcs(s, p).stage == Unqueue ==> Flagged(s, p)
    requires Pcs(s, p).stage == Advance ==> Done(s, p)
    ensures TablesOk(Step(s, Clean(p)))
  {
    hide TablesOk, Updates, Done, Flagged;
    if Pcs(s, p).stage == Advance {
      LongChain(s, p);
      PopKeepsTables(s, p);
    } else {
      CleanUpdates(s, p);
      UpdateKeepsTables(s, Step(s, Clean(p)), Chain(s, p)[0]);
    }
  }

  lemma LongChain(s: Channel, p: Pid)
    requires TablesOk(s) && Enabled(s, Clean(p)) && !IsMove(s, Clean(p)) && Pcs(s, p).stage == Advance
    ensures |Chain(s, p)| > 1
  {
    TopIsBusy(s, p);
  }

  lemma CleanUpdates(s: Channel, p: Pid)
    requires TablesOk(s) && Enabled(s, Clean(p)) && !IsMove(s, Clean(p)) && Pcs(s, p).stage != Advance
    requires Pcs(s, p).stage == Unqueue ==> Flagged(s, p)
    ensures |Chain(s, p)| > 0 && Updates(s, Step(s, Clean(p)), Chain(s, p)[0])
  {
    hide Updates, TablesOk, RpcOk, LinkOk, Flagged;
    TopIsBusy(s, p);
    OfMine(s, p, Chain(s, p)[0]);
    StageUpdates(s, p);
  }

  lemma OfMine(s: Channel, p: Pid, t: Tag)
    requires Chain(s, p) != [] && t == Chain(s, p)[0] && LinkOk(s.rpcs, p, Chain(s, p), 0)
    ensures t in s.rpcs && s.rpcs[t].owner == p
  {}

  lemma StageUpdates(s: Channel, p: Pid)
    requires Enabled(s, Clean(p)) && (Pcs(s, p).stage == Mark || (Pcs(s, p).stage == Unqueue && Flagged(s, p)))
    requires Chain(s, p) != [] && Chain(s, p)[0] in s.rpcs && s.rpcs[Chain(s, p)[0]].owner == p && RpcOk(s, Chain(s, p)[0])
    ensures Updates(s, Step(s, Clean(p)), Chain(s, p)[0])
  {}

  lemma PopKeepsTables(s: Channel, p: Pid)
    requires TablesOk(s) && Enabled(s, Clean(p)) && Pcs(s, p).stage == Advance && |Chain(s, p)| > 1 && Done(s, p)
    ensures TablesOk(Step(s, Clean(p)))
  {
    TopIsBusy(s, p);
    var s', c := Step(s, Clean(p)), Chain(s, p);
    assert LinkOk(s.rpcs, p, c, 0);
    assert s' == s.(procs := s.procs[p := Proc(Cleaning(Test, Pcs(s, p).raised), c[1..])], rpcs := s.rpcs - {c[0]});
    PopLinks(s, s', p);
    forall u | u in s'.rpcs ensures RpcOk(s', u) {
      PopRpc(s, s', p, u);
    }
  }

  lemma PopLinks(s: Channel, s': Channel, p: Pid)
    requires TablesOk(s) && p in s.procs && Pcs(s, p) != Idle && Pcs(s', p) != Idle && |Chain(s, p)| > 1
    requires s'.rpcs == s.rpcs - {Chain(s, p)[0]}
    requires s'.procs == s.procs[p := Proc(Pcs(s', p), Chain(s, p)[1..])]
    ensures forall q :: ChainOk(s', q)
  {
    var c := Chain(s, p);
    assert LinkOk(s.rpcs, p, c, 0) by { assert ChainOk(s, p); }
    forall q ensures ChainOk(s', q) {
      assert ChainOk(s, q);
      if q == p {
        forall i | 0 <= i < |c[1..]| ensures LinkOk(s'.rpcs, p, c[1..], i) {
          assert LinkOk(s.rpcs, p, c, i + 1);
        }
      } else {
        LinksSurvive(s, s', q);
      }
    }
  }

  lemma PopRpc(s: Channel, s': Channel, p: Pid, u: Tag)
    requires p in s.procs && u in s.rpcs && RpcOk(s, u) && Chain(s, p) != [] && u != Chain(s, p)[0]
    requires s'.rpcs == s.rpcs - {Chain(s, p)[0]} && s'.queue == s.queue
    requires Pcs(s, p) != Ready && Pcs(s', p) != Ready
    requires s'.procs == s.procs[p := Proc(Pcs(s', p), Chain(s, p)[1..])]
    ensures RpcOk(s', u)
  {
    var r := s.rpcs[u];
    if r.owner == p {
      assert r.depth < |Chain(s, p)| - 1;
    }
  }

  lemma StepKeepsTables(s: Channel, a: Action)
    requires Inv(s) && Enabled(s, a)
    ensures TablesOk(Step(s, a))
  {
    assert PcOk(s, a.p);
    assert TablesOk(s);
    hide ChainOk;
    hide RpcOk;
    hide QueueOk;
    match a
    case Start(p, t) => StartKeepsTables(s, p, t);
    case Enqueue(p) => EnqueueKeepsTables(s, p);
    case Dispatch(p) => DispatchKeepsTables(s, p);
    case Flush(p, t) => FlushKeepsTables(s, p, t);
    case Finish(p) => FinishKeepsTables(s, p);
    case _ =>
      if IsMove(s, a) {
        MoveKeepsTables(s, a);
        SameTablesKeep(s, Step(s, a));
      } else {
        CleanKeepsAllTables(s, a.p);
      }
  }

  // --- control: the reader, the lock and who wakes whom -----------------------------

  ghost predicate ControlOk(s: Channel) {
    && (forall p :: PcOk(s, p))
    && (s.rip.Some? ==> s.rip.value in s.procs)
    && (s.lk.Some? ==> s.lk.value in s.procs)
  }

  /** The top request of a process belongs to it and to nobody else. */
  lemma TopIsOwn(s: Channel, p: Pid)
    requires TablesOk(s)
    ensures Chain(s, p) != [] ==> Chain(s, p)[0] in s.rpcs && s.rpcs[Chain(s, p)[0]].owner == p
  {
    assert ChainOk(s, p);
    assert Chain(s, p) != [] ==> LinkOk(s.rpcs, p, Chain(s, p), 0);
  }

  /** Process p moved and changed requests of its own only. */
  ghost predicate OwnChange(s: Channel, s': Channel, p: Pid) {
    && p in s.procs && p in s'.procs && s'.procs == s.procs[p := s'.procs[p]]
    && s'.rip == s.rip && s'.lk == s.lk
    && forall t :: t in s.rpcs && s.rpcs[t].owner != p ==> t in s'.rpcs && s'.rpcs[t] == s.rpcs[t]
  }

  lemma OwnChangeKeepsControl(s: Channel, s': Channel, p: Pid)
    requires ControlOk(s) && TablesOk(s) && OwnChange(s, s', p) && PcOk(s', p) && s.lk != Some(p)
    ensures ControlOk(s')
  {
    assert PcOk(s, p);
    forall q | q != p
      ensures PcOk(s', q)
    {
      TopIsOwn(s, q);
      assert PcOk(s, q);
    }
  }

  lemma CleanIsOwnChange(s: Channel, p: Pid)
    requires TablesOk(s) && Enabled(s, Clean(p))
    ensures OwnChange(s, Step(s, Clean(p)), p)
  {
    TopIsOwn(s, p);
  }

  lemma CleanKeepsControl(s: Channel, p: Pid)
    requires ControlOk(s) && TablesOk(s) && Enabled(s, Clean(p))
    ensures ControlOk(Step(s, Clean(p)))
  {
    CleanIsOwnChange(s, p);
    CleanKeepsPc(s, p);
    assert s.lk != Some(p) by { assert PcOk(s, p); }
    hide PcOk;
    hide OwnChange;
    hide TablesOk;
    OwnChangeKeepsControl(s, Step(s, Clean(p)), p);
  }

  lemma CleanKeepsPc(s: Channel, p: Pid)
    requires PcOk(s, p) && TablesOk(s) && Enabled(s, Clean(p))
    ensures PcOk(Step(s, Clean(p)), p)
  {
    TopIsBusy(s, p);
    hide TablesOk;
    hide PcOk;
    if Pcs(s, p).stage == Advance {
      AdvanceKeepsPc(s, p);
    } else {
      MarkKeepsPc(s, p);
    }
  }

  lemma MarkKeepsPc(s: Channel, p: Pid)
    requires PcOk(s, p) && Enabled(s, Clean(p)) && Pcs(s, p).stage != Advance
    requires Chain(s, p) != [] && Chain(s, p)[0] in s.rpcs
    ensures PcOk(Step(s, Clean(p)), p)
  {}

  lemma AdvanceKeepsPc(s: Channel, p: Pid)
    requires PcOk(s, p) && Enabled(s, Clean(p)) && Pcs(s, p).stage == Advance
    requires Chain(s, p) != [] && LinkOk(s.rpcs, p, Chain(s, p), 0)
    ensures PcOk(Step(s, Clean(p)), p)
  {}

  predicate IsOwnStep(s: Channel, a: Action)
    requires Enabled(s, a)
  {
    || a.Start? || a.Enqueue? || a.SendOk? || a.SendIntr? || a.SendFail? || a.Check? || a.Commit? || a.Leave?
    || a.Note? || a.Read? || a.ReadError? || a.Flush? || a.Abandon? || a.Finish?
    || (a.Catch? && s.rip != Some(a.p)) || (a.Look? && s.rip != None)
  }

  lemma FinishIsOwnChange(s: Channel, p: Pid)
    requires TablesOk(s) && Enabled(s, Finish(p))
    ensures OwnChange(s, Step(s, Finish(p)), p)
  {
    assert ChainOk(s, p);
    forall i | 0 <= i < |Chain(s, p)| ensures Chain(s, p)[i] in s.rpcs && s.rpcs[Chain(s, p)[i]].owner == p {
      assert LinkOk(s.rpcs, p, Chain(s, p), i);
    }
  }

  lemma StepIsOwnChange(s: Channel, a: Action)
    requires TablesOk(s) && Enabled(s, a) && IsOwnStep(s, a)
    ensures OwnChange(s, Step(s, a), a.p)
  {
    if a.Finish? {
      FinishIsOwnChange(s, a.p);
    }
    hide TablesOk;
  }

  lemma TableStepKeepsPc(s: Channel, a: Action)
    requires TablesOk(s) && PcOk(s, a.p) && Enabled(s, a) && (a.Start? || a.Enqueue? || a.Flush? || a.Finish?)
    ensures PcOk(Step(s, a), a.p)
  {
    hide TablesOk, PcOk, Enabled, Step;
    if a.Start? || a.Enqueue? {
      BeginKeepsPc(s, a);
    } else {
      ChainKeepsPc(s, a);
    }
  }

  lemma BeginKeepsPc(s: Channel, a: Action)
    requires PcOk(s, a.p) && Enabled(s, a) && (a.Start? || a.Enqueue?)
    ensures PcOk(Step(s, a), a.p)
  {}

  lemma ChainKeepsPc(s: Channel, a: Action)
    requires PcOk(s, a.p) && Enabled(s, a) && (a.Flush? || a.Finish?)
    ensures PcOk(Step(s, a), a.p)
  {}

  lemma OwnMoveKeepsPc(s: Channel, a: Action)
    requires PcOk(s, a.p) && Enabled(s, a) && IsOwnStep(s, a)
    requires !(a.Start? || a.Enqueue? || a.Flush? || a.Finish?)
    ensures PcOk(Step(s, a), a.p)
  {}

  lemma OwnStepKeepsPc(s: Channel, a: Action)
    requires TablesOk(s) && ControlOk(s) && Enabled(s, a) && IsOwnStep(s, a)
    ensures PcOk(Step(s, a), a.p)
  {
    assert PcOk(s, a.p);
    hide TablesOk;
    hide PcOk;
    if a.Start? || a.Enqueue? || a.Flush? || a.Finish? {
      TableStepKeepsPc(s, a);
    } else {
      OwnMoveKeepsPc(s, a);
    }
  }

  lemma OwnStepKeepsControl(s: Channel, a: Action)
    requires TablesOk(s) && ControlOk(s) && Enabled(s, a) && IsOwnStep(s, a)
    ensures ControlOk(Step(s, a))
  {
    StepIsOwnChange(s, a);
    OwnStepKeepsPc(s, a);
    if s.lk == Some(a.p) && a.Note? {
      NoteKeepsControl(s, a.p);
    } else {
      assert s.lk != Some(a.p) by { assert PcOk(s, a.p); }
      hide PcOk;
      hide OwnChange;
      hide TablesOk;
      OwnChangeKeepsControl(s, Step(s, a), a.p);
    }
  }

  lemma NoteKeepsControl(s: Channel, p: Pid)
    requires ControlOk(s) && s.lk == Some(p) && p in s.procs
    ensures ControlOk(Step(s, Note(p)))
  {
    assert PcOk(s, p);
    forall q ensures PcOk(Step(s, Note(p)), q) {
      assert PcOk(s, q);
    }
  }

  // Steps that change who reads, who holds m->lk, or who sleeps.

  lemma TakeKeepsControl(s: Channel, p: Pid)
    requires ControlOk(s) && Enabled(s, Look(p)) && s.rip == None
    ensures ControlOk(Step(s, Look(p)))
  {
    assert PcOk(s, p);
    forall q ensures PcOk(Step(s, Look(p)), q) {
      assert PcOk(s, q);
    }
  }

  lemma GateKeepsControl(s: Channel, a: Action)
    requires ControlOk(s) && Enabled(s, a) && (a.ReadDone? || (a.Catch? && s.rip == Some(a.p)))
    ensures ControlOk(Step(s, a))
  {
    assert PcOk(s, a.p);
    forall q ensures PcOk(Step(s, a), q) {
      assert PcOk(s, q);
    }
  }

  lemma WakeKeepsControl(s: Channel, p: Pid)
    requires ControlOk(s) && Enabled(s, Wake(p))
    ensures ControlOk(Step(s, Wake(p)))
  {
    assert PcOk(s, p);
    forall q ensures PcOk(Step(s, Wake(p)), q) {
      assert PcOk(s, q);
    }
  }

  lemma ScanKeepsControl(s: Channel, a: Action)
    requires ControlOk(s) && Enabled(s, a) && a.Scan?
    ensures ControlOk(Step(s, a))
  {
    var s' := Step(s, a);
    assert PcOk(s, a.p);
    forall q ensures PcOk(s', q) {
      assert PcOk(s, q);
    }
  }

  lemma DispatchToSelf(s: Channel, p: Pid)
    requires TablesOk(s) && PcOk(s, p) && Enabled(s, Dispatch(p))
    requires Pcs(s, p).tag in s.queue ==> [Pcs(s, p).tag] <= Chain(s, p)
    ensures OwnChange(s, Step(s, Dispatch(p)), p) && PcOk(Step(s, Dispatch(p)), p) && s.lk != Some(p)
  {
    TopIsOwn(s, p);
    hide TablesOk;
  }

  lemma DispatchToOther(s: Channel, p: Pid)
    requires ControlOk(s) && TablesOk(s) && Enabled(s, Dispatch(p))
    requires Pcs(s, p).tag in s.queue && !([Pcs(s, p).tag] <= Chain(s, p))
    ensures ControlOk(Step(s, Dispatch(p)))
  {
    var s' := Step(s, Dispatch(p));
    assert PcOk(s, p);
    hide TablesOk;
    forall q ensures PcOk(s', q) {
      assert PcOk(s, q);
      TopIsOwn(s, q);
    }
  }

  lemma DispatchKeepsControl(s: Channel, p: Pid)
    requires ControlOk(s) && TablesOk(s) && Enabled(s, Dispatch(p))
    ensures ControlOk(Step(s, Dispatch(p)))
  {
    assert PcOk(s, p);
    hide TablesOk;
    if Pcs(s, p).tag in s.queue && !([Pcs(s, p).tag] <= Chain(s, p)) {
      DispatchToOther(s, p);
    } else {
      DispatchToSelf(s, p);
      hide Step;
      OwnChangeKeepsControl(s, Step(s, Dispatch(p)), p);
    }
  }

  lemma StepKeepsControl(s: Channel, a: Action)
    requires Inv(s) && Enabled(s, a)
    ensures ControlOk(Step(s, a))
  {
    assert TablesOk(s) && ControlOk(s);
    hide TablesOk;
    hide ControlOk;
    hide Inv;
    if IsOwnStep(s, a) {
      OwnStepKeepsControl(s, a);
    } else if a.Look? {
      TakeKeepsControl(s, a.p);
    } else if a.ReadDone? || a.Catch? {
      GateKeepsControl(s, a);
    } else if a.Wake? {
      WakeKeepsControl(s, a.p);
    } else if a.Scan? {
      ScanKeepsControl(s, a);
    } else if a.Dispatch? {
      DispatchKeepsControl(s, a.p);
    } else {
      CleanKeepsControl(s, a.p);
    }
  }

  // --- the reader role is never stranded ---------------------------------------------

  predicate Sleeping(s: Channel, p: Pid) {
    (Pcs(s, p) == Committed || Pcs(s, p) == Asleep) && Undone(s, p)
  }

  /** An awake requester that is not done will look at m->rip before it sleeps again. */
  predicate Taker(s: Channel, p: Pid) {
    var pc := Pcs(s, p);
    && Undone(s, p)
    && (pc == Ready || pc == Sending || pc == Looking || pc == Sleepy || pc == Roused
        || (pc == Raised(true) && s.rip != Some(p)) || pc == Handling(true))
  }

  ghost predicate HasTaker(s: Channel) { exists p :: Taker(s, p) }

  ghost predicate Covered(s: Channel, rest: seq<Tag>) {
    forall p :: Sleeping(s, p) ==> Chain(s, p)[0] in rest
  }

  /** What a mntgate in progress has still to look at. */
  function Scope(s: Channel): seq<Tag> {
    if s.lk.Some? && Pcs(s, s.lk.value).Gating? then Pcs(s, s.lk.value).rest else []
  }

  ghost predicate Attended(s: Channel) {
    s.rip == None ==> HasTaker(s) || Covered(s, Scope(s))
  }

  ghost predicate Stranded(s: Channel) {
    && s.rip == None && s.lk == None
    && (exists p :: Sleeping(s, p))
    && !HasTaker(s)
  }

  lemma GateCovers(s: Channel, a: Action)
    requires Inv(s) && Enabled(s, a) && (a.ReadDone? || (a.Catch? && s.rip == Some(a.p)))
    ensures Covered(Step(s, a), Scope(Step(s, a)))
  {
    var s' := Step(s, a);
    forall p | Sleeping(s', p) ensures Chain(s', p)[0] in Scope(s') {
      TopIsOwn(s, p);
      assert RpcOk(s, Chain(s, p)[0]);
    }
  }

  lemma ScanWakes(s: Channel, g: Pid)
    requires Inv(s) && Enabled(s, Scan(g))
    requires var rest := Pcs(s, g).rest;
             rest != [] && rest[0] in s.rpcs && !s.rpcs[rest[0]].done && Pcs(s, s.rpcs[rest[0]].owner) == Asleep
    ensures HasTaker(Step(s, Scan(g)))
  {
    var p := s.rpcs[Pcs(s, g).rest[0]].owner;
    assert PcOk(s, g) && PcOk(s, p);
    TopIsBusy(s, p);
    assert Taker(Step(s, Scan(g)), p);
  }

  lemma ScanPasses(s: Channel, g: Pid, p: Pid)
    requires TablesOk(s) && Enabled(s, Scan(g)) && Sleeping(Step(s, Scan(g)), p)
    requires var rest := Pcs(s, g).rest;
             !(rest != [] && rest[0] in s.rpcs && !s.rpcs[rest[0]].done && Pcs(s, s.rpcs[rest[0]].owner) == Asleep)
    requires Sleeping(s, p) ==> Chain(s, p)[0] in Pcs(s, g).rest
    requires s.lk == Some(g)
    ensures Chain(Step(s, Scan(g)), p)[0] in Scope(Step(s, Scan(g)))
  {
    TopIsOwn(s, p);
    hide TablesOk;
    assert Sleeping(s, p);
  }

  lemma ScanAttends(s: Channel, g: Pid)
    requires Inv(s) && Attended(s) && Enabled(s, Scan(g))
    ensures Attended(Step(s, Scan(g)))
  {
    var s', rest := Step(s, Scan(g)), Pcs(s, g).rest;
    assert PcOk(s, g);
    if rest != [] && rest[0] in s.rpcs && !s.rpcs[rest[0]].done && Pcs(s, s.rpcs[rest[0]].owner) == Asleep {
      ScanWakes(s, g);
    } else if p :| Taker(s, p) {
      assert Taker(s', p);
    } else {
      assert TablesOk(s);
      hide Inv;
      forall p | Sleeping(s', p) ensures Chain(s', p)[0] in Scope(s') {
        ScanPasses(s, g, p);
      }
    }
  }

  /** While nobody reads, a step is the affair of one process. */
  lemma QuietStepIsOwn(s: Channel, a: Action)
    requires Inv(s) && Enabled(s, a) && s.rip == None && Step(s, a).rip == None && !a.Scan?
    ensures OwnChange(s, Step(s, a), a.p)
    ensures IsOwnStep(s, a) || a.Clean?
  {
    assert PcOk(s, a.p);
    if a.Clean? {
      CleanIsOwnChange(s, a.p);
    } else if IsOwnStep(s, a) {
      StepIsOwnChange(s, a);
    } else {
      hide Inv;
      hide CleanStep;
    }
  }

  lemma OthersStay(s: Channel, s': Channel, p: Pid, q: Pid)
    requires TablesOk(s) && OwnChange(s, s', p) && q != p
    ensures Pcs(s', q) == Pcs(s, q) && Chain(s', q) == Chain(s, q) && (Undone(s', q) <==> Undone(s, q))
  {
    TopIsOwn(s, q);
    hide TablesOk;
  }

  lemma TakerMoves(s: Channel, a: Action)
    requires TablesOk(s) && PcOk(s, a.p) && Enabled(s, a) && IsOwnStep(s, a) && !a.SendFail?
    requires s.rip == None && Taker(s, a.p)
    ensures Taker(Step(s, a), a.p)
  {
    TopIsOwn(s, a.p);
    hide TablesOk;
  }

  /** An awake requester stays one, or takes the role. */
  lemma TakerStays(s: Channel, a: Action, p: Pid)
    requires Inv(s) && Enabled(s, a) && s.rip == None && Step(s, a).rip == None && !a.SendFail? && !a.Scan?
    requires Taker(s, p)
    ensures Taker(Step(s, a), p)
  {
    QuietStepIsOwn(s, a);
    if p == a.p {
      assert PcOk(s, p);
      TakerMoves(s, a);
    } else {
      var s' := Step(s, a);
      OthersStay(s, s', a.p, p);
      hide Inv;
      hide Step;
    }
  }

  lemma DozerMoves(s: Channel, a: Action)
    requires TablesOk(s) && PcOk(s, a.p) && Enabled(s, a) && s.rip == None && (IsOwnStep(s, a) || a.Clean?)
    requires Sleeping(Step(s, a), a.p)
    ensures Sleeping(s, a.p) && Chain(Step(s, a), a.p) == Chain(s, a.p)
  {
    TopIsOwn(s, a.p);
    hide TablesOk;
  }

  /** While nobody reads, nobody goes to sleep. */
  lemma NobodyDozes(s: Channel, a: Action, p: Pid)
    requires Inv(s) && Enabled(s, a) && s.rip == None && Step(s, a).rip == None && !a.Scan?
    requires Sleeping(Step(s, a), p)
    ensures Sleeping(s, p) && Chain(Step(s, a), p) == Chain(s, p)
  {
    QuietStepIsOwn(s, a);
    if p == a.p {
      assert PcOk(s, p);
      DozerMoves(s, a);
    } else {
      var s' := Step(s, a);
      OthersStay(s, s', a.p, p);
      hide Inv;
      hide Step;
    }
  }

  lemma ScopeStays(s: Channel, a: Action)
    requires Inv(s) && Enabled(s, a) && s.rip == None && Step(s, a).rip == None && !a.Scan?
    ensures Scope(Step(s, a)) == Scope(s)
  {
    QuietStepIsOwn(s, a);
    if s.lk == Some(a.p) {
      assert PcOk(s, a.p);
      GatingOnlyNoted(s, a);
    } else if s.lk.Some? {
      OthersStay(s, Step(s, a), a.p, s.lk.value);
      hide Step;
      hide Inv;
    } else {
      hide Step;
      hide Inv;
    }
  }

  lemma GatingOnlyNoted(s: Channel, a: Action)
    requires Enabled(s, a) && Pcs(s, a.p).Gating? && !a.Scan?
    ensures Pcs(Step(s, a), a.p) == Pcs(s, a.p) && Step(s, a).lk == s.lk
  {
    hide CleanStep;
  }

  lemma StepAttends(s: Channel, a: Action)
    requires Inv(s) && Attended(s) && Enabled(s, a) && !a.SendFail?
    ensures Attended(Step(s, a))
  {
    var s' := Step(s, a);
    if s'.rip == None {
      if a.Scan? {
        ScanAttends(s, a.p);
      } else if s.rip == None {
        if p :| Taker(s, p) {
          TakerStays(s, a, p);
        } else {
          ScopeStays(s, a);
          forall p | Sleeping(s', p) ensures Chain(s', p)[0] in Scope(s') {
            NobodyDozes(s, a, p);
          }
        }
      } else {
        RoleGivenUp(s, a);
        GateCovers(s, a);
      }
    }
  }

  lemma RoleGivenUp(s: Channel, a: Action)
    requires Inv(s) && Enabled(s, a) && s.rip != None && Step(s, a).rip == None
    ensures a.ReadDone? || (a.Catch? && s.rip == Some(a.p))
  {
    hide Inv;
  }
}
