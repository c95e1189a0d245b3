/** What every run of the 9P multiplexer keeps. */
module MuxTheorems {
  import opened Bytes
  import opened Mux

  function Initial(ps: set<Pid>): Channel {
    Channel(map p | p in ps :: Proc(Idle, []), map[], [], None, None, {})
  }

  predicate IsRun(s: Channel, run: seq<Action>)
    decreases run
  {
    run == [] || (Enabled(s, run[0]) && IsRun(Step(s, run[0]), run[1..]))
  }

  function After(s: Channel, run: seq<Action>): Channel
    requires IsRun(s, run)
    decreases run
  {
    if run == [] then s else After(Step(s, run[0]), run[1..])
  }

  lemma StepKeepsInv(s: Channel, a: Action)
    requires Inv(s) && Enabled(s, a)
    ensures Inv(Step(s, a))
  {
    StepKeepsTables(s, a);
    StepKeepsControl(s, a);
  }

  lemma {:induction false} RunKeepsInv(s: Channel, run: seq<Action>)
    requires Inv(s) && IsRun(s, run)
    ensures Inv(After(s, run))
    decreases run
  {
    if run != [] {
      StepKeepsInv(s, run[0]);
      hide Inv;
      hide Step;
      RunKeepsInv(Step(s, run[0]), run[1..]);
    }
  }

  /** Should the send of p fail, there is still a reader, or another requester awake, or
      nobody asleep but those that mntgate is about to look at. */
  ghost predicate Spares(s: Channel, p: Pid) {
    s.rip.Some? || (exists q :: q != p && Taker(s, q)) || Covered(s, Scope(s))
  }

  lemma SendFailAttends(s: Channel, p: Pid)
    requires Inv(s) && Enabled(s, SendFail(p))
    ensures Attended(Step(s, SendFail(p))) <==> Spares(s, p)
  {
    hide Inv, Enabled, Step, Sleeping, Taker, Scope, Chain;
    SendFailIs(s, p);
    var s' := Step(s, SendFail(p));
    assert HasTaker(s') <==> exists q :: q != p && Taker(s, q);
  }

  /** A failed send puts its process out of the running, and nobody else. */
  lemma SendFailIs(s: Channel, p: Pid)
    requires Inv(s) && Enabled(s, SendFail(p))
    ensures var s' := Step(s, SendFail(p));
            && s'.rip == s.rip && s'.lk == s.lk && Scope(s') == Scope(s) && !Taker(s', p)
            && (forall q :: Sleeping(s', q) <==> Sleeping(s, q)) && (forall q :: Chain(s', q) == Chain(s, q))
            && (forall q :: q != p ==> (Taker(s', q) <==> Taker(s, q)))
  {
    hide TablesOk, Inv;
  }

  /** Every failing send of the run leaves somebody who can read. */
  ghost predicate FailuresSpare(s: Channel, run: seq<Action>)
    requires IsRun(s, run)
    decreases run
  {
    run == [] || ((run[0].SendFail? ==> Spares(s, run[0].p)) && FailuresSpare(Step(s, run[0]), run[1..]))
  }

  lemma {:induction false} WithoutFailuresSpared(s: Channel, run: seq<Action>)
    requires IsRun(s, run) && forall i :: 0 <= i < |run| ==> !run[i].SendFail?
    ensures FailuresSpare(s, run)
    decreases run
  {
    hide Step, Enabled, Spares;
    if run != [] {
      assert !run[0].SendFail?;
      WithoutFailuresSpared(Step(s, run[0]), run[1..]);
    }
  }

  lemma {:induction false} RunAttends(s: Channel, run: seq<Action>)
    requires Inv(s) && Attended(s) && IsRun(s, run) && FailuresSpare(s, run)
    ensures Attended(After(s, run))
    decreases run
  {
    hide Inv, Attended, Step, Enabled, Spares;
    if run != [] {
      StepKeepsInv(s, run[0]);
      if run[0].SendFail? {
        SendFailAttends(s, run[0].p);
      } else {
        StepAttends(s, run[0]);
      }
      RunAttends(Step(s, run[0]), run[1..]);
    }
  }

  lemma InitialInv(ps: set<Pid>)
    ensures Inv(Initial(ps)) && Attended(Initial(ps))
  {}

  /** In every reachable state at most one process reads the channel. */
  lemma AtMostOneReader(ps: set<Pid>, run: seq<Action>, p: Pid, q: Pid)
    requires IsRun(Initial(ps), run)
    requires IsReader(Pcs(After(Initial(ps), run), p)) && IsReader(Pcs(After(Initial(ps), run), q))
    ensures p == q
  {
    InitialInv(ps);
    RunKeepsInv(Initial(ps), run);
    assert PcOk(After(Initial(ps), run), p) && PcOk(After(Initial(ps), run), q);
  }

  /** What a step reads from the channel. */
  function Received(a: Action): set<(Tag, Body)> { if a.Read? then {(a.t, a.body)} else {} }

  function AllReceived(run: seq<Action>): set<(Tag, Body)>
    decreases run
  {
    if run == [] then {} else Received(run[0]) + AllReceived(run[1..])
  }

  /** Every reply held, or being handed over, is one that was read. */
  ghost predicate Sourced(s: Channel, got: set<(Tag, Body)>) {
    && (forall t :: t in s.rpcs && s.rpcs[t].reply.Answer? ==> (s.rpcs[t].reply.tag, s.rpcs[t].reply.body) in got)
    && (forall p :: p in s.procs && s.procs[p].pc.Muxing? ==> (s.procs[p].pc.tag, s.procs[p].pc.body) in got)
  }

  lemma StepSourced(s: Channel, a: Action, got: set<(Tag, Body)>)
    requires Sourced(s, got) && Enabled(s, a)
    ensures Sourced(Step(s, a), got + Received(a))
  {
    hide Step, Enabled, Received;
    RepliesSourced(s, a, got);
    ReadersSourced(s, a, got);
  }

  lemma RepliesSourced(s: Channel, a: Action, got: set<(Tag, Body)>)
    requires Sourced(s, got) && Enabled(s, a)
    ensures var s' := Step(s, a);
            forall t :: t in s'.rpcs && s'.rpcs[t].reply.Answer? ==> (s'.rpcs[t].reply.tag, s'.rpcs[t].reply.body) in got
  {
    hide Without, Received;
  }

  lemma ReadersSourced(s: Channel, a: Action, got: set<(Tag, Body)>)
    requires Sourced(s, got) && Enabled(s, a)
    ensures var s' := Step(s, a);
            forall p :: p in s'.procs && s'.procs[p].pc.Muxing? ==>
              (s'.procs[p].pc.tag, s'.procs[p].pc.body) in got + Received(a)
  {
    hide Without;
  }

  lemma {:induction false} RunSourced(s: Channel, run: seq<Action>, got: set<(Tag, Body)>)
    requires Sourced(s, got) && IsRun(s, run)
    ensures Sourced(After(s, run), got + AllReceived(run))
    decreases run
  {
    hide Step, Enabled, Sourced, Received;
    if run == [] {
      assert got + AllReceived(run) == got;
    } else {
      StepSourced(s, run[0], got);
      RunSourced(Step(s, run[0]), run[1..], got + Received(run[0]));
      assert got + Received(run[0]) + AllReceived(run[1..]) == got + AllReceived(run);
    }
  }

  /** In every reachable state a request that is done holds the reply with its own
      tag, as it was read from the channel, unless its owner gave it up; it is off the
      queue, and the queue holds exactly the requests that were sent and are not done. */
  lemma CompletedHoldsOwnReply(ps: set<Pid>, run: seq<Action>, t: Tag)
    requires IsRun(Initial(ps), run) && t in After(Initial(ps), run).rpcs
    ensures var s := After(Initial(ps), run);
            && (s.rpcs[t].done ==> || s.rpcs[t].reply == Flushed
                                   || (Own(s.rpcs[t].reply, t) && (t, s.rpcs[t].reply.body) in AllReceived(run)))
            && (t in s.queue <==> !s.rpcs[t].done && !(Pcs(s, s.rpcs[t].owner) == Ready && [t] <= Chain(s, s.rpcs[t].owner)))
  {
    InitialInv(ps);
    RunKeepsInv(Initial(ps), run);
    var none: set<(Tag, Body)> := {};
    RunSourced(Initial(ps), run, none);
    assert none + AllReceived(run) == AllReceived(run);
    var s := After(Initial(ps), run);
    assert RpcOk(s, t);
    var c := Chain(s, s.rpcs[t].owner);
    assert ChainOk(s, s.rpcs[t].owner);
    assert LinkOk(s.rpcs, s.rpcs[t].owner, c, 0);
  }

  /** A reply that was read goes to the request with its tag, if one is queued: it is done
      with that reply and off the queue, no other request changes, and its process is the
      reader itself or the one about to be woken. Otherwise nothing changes. */
  lemma DispatchAnswers(s: Channel, p: Pid)
    requires Enabled(s, Dispatch(p)) && QueueOk(s)
    ensures var s' := Step(s, Dispatch(p));
            var t, body := Pcs(s, p).tag, Pcs(s, p).body;
            && s'.rip == s.rip && s'.notes == s.notes && (forall q :: q != p ==> Pcs(s', q) == Pcs(s, q))
            && (forall q :: Chain(s', q) == Chain(s, q))
            && (t !in s.queue ==> s'.rpcs == s.rpcs && s'.queue == s.queue && Pcs(s', p) == Reading && s'.lk == s.lk)
            && (t in s.queue ==>
                  && s'.rpcs.Keys == s.rpcs.Keys && t in s.rpcs && (forall u :: u in s.rpcs && u != t ==> s'.rpcs[u] == s.rpcs[u])
                  && s'.rpcs[t] == s.rpcs[t].(done := true, reply := Answer(t, body))
                  && (forall u :: u in s'.queue <==> u in s.queue && u != t)
                  && if Chain(s, p) != [] && Chain(s, p)[0] == t then Pcs(s', p) == Reading && s'.lk == s.lk
                     else Pcs(s', p) == Waking(s.rpcs[t].owner) && s'.lk == Some(p))
  {
    hide Without;
    if Pcs(s, p).tag in s.queue {
      WithoutOne(s.queue, Pcs(s, p).tag);
    }
  }

  lemma {:induction false} WithoutOne(q: seq<Tag>, t: Tag)
    requires Distinct(q)
    ensures forall u :: u in Without(q, t) <==> u in q && u != t
  {
    if q != [] {
      WithoutOne(q[1..], t);
    }
  }

  /** Only a request that its own process is giving up, or has given up, is flushed. */
  predicate GivenUp(s: Channel, t: Tag)
    requires t in s.rpcs
  {
    var p := s.rpcs[t].owner;
    && Chain(s, p) != [] && Chain(s, p)[0] == t
    && var pc := Pcs(s, p); pc.Finished? || (pc.Cleaning? && (pc.stage == Unqueue || pc.stage == Advance))
  }

  ghost predicate FlushesOwn(s: Channel) {
    forall t :: t in s.rpcs && s.rpcs[t].reply == Flushed ==> GivenUp(s, t)
  }

  lemma StepFlushesOwn(s: Channel, a: Action)
    requires Inv(s) && FlushesOwn(s) && Enabled(s, a)
    ensures FlushesOwn(Step(s, a))
  {
    hide FlushesOwn, GivenUp, Step, Enabled;
    forall t | t in Step(s, a).rpcs && Step(s, a).rpcs[t].reply == Flushed ensures GivenUp(Step(s, a), t) {
      StepFlushes(s, a, t);
    }
    AllGivenUp(Step(s, a));
  }

  lemma AllGivenUp(s: Channel)
    requires forall t :: t in s.rpcs && s.rpcs[t].reply == Flushed ==> GivenUp(s, t)
    ensures FlushesOwn(s)
  {}

  lemma StepFlushes(s: Channel, a: Action, t: Tag)
    requires Inv(s) && FlushesOwn(s) && Enabled(s, a) && t in Step(s, a).rpcs && Step(s, a).rpcs[t].reply == Flushed
    ensures GivenUp(Step(s, a), t)
  {
    hide Inv, Step, Enabled;
    if a.Clean? {
      CleanFlushes(s, a.p, t);
    } else {
      RepliesStay(s, a, t);
      BusyStays(s, a, s.rpcs[t].owner);
    }
  }

  /** Only cleaning flushes a request. */
  lemma RepliesStay(s: Channel, a: Action, t: Tag)
    requires Inv(s) && FlushesOwn(s) && Enabled(s, a) && !a.Clean? && t in Step(s, a).rpcs && Step(s, a).rpcs[t].reply == Flushed
    ensures t in s.rpcs && s.rpcs[t].reply == Flushed && s.rpcs[t].owner == Step(s, a).rpcs[t].owner && GivenUp(s, t)
    ensures a.Finish? ==> a.p != s.rpcs[t].owner
  {
    hide Without, Inv, GivenUp;
    if a.Finish? {
      FinishRemoves(s, a.p, t);
    }
  }

  lemma FinishRemoves(s: Channel, p: Pid, t: Tag)
    requires Inv(s) && Enabled(s, Finish(p)) && t in Step(s, Finish(p)).rpcs
    ensures t in s.rpcs && s.rpcs[t].owner != p
  {
    hide Without, LinkOk;
    assert RpcOk(s, t);
  }

  /** A process that cleans up or has finished does nothing else, and nobody moves it. */
  lemma BusyStays(s: Channel, a: Action, q: Pid)
    requires Enabled(s, a) && !a.Clean? && (a.Finish? ==> a.p != q) && (Pcs(s, q).Cleaning? || Pcs(s, q).Finished?)
    ensures Pcs(Step(s, a), q) == Pcs(s, q) && Chain(Step(s, a), q) == Chain(s, q)
  {
    hide Without;
  }

  lemma CleanFlushes(s: Channel, p: Pid, t: Tag)
    requires Inv(s) && FlushesOwn(s) && Enabled(s, Clean(p))
    requires t in Step(s, Clean(p)).rpcs && Step(s, Clean(p)).rpcs[t].reply == Flushed
    ensures GivenUp(Step(s, Clean(p)), t)
  {
    hide Without, RpcOk, QueueOk, ChainOk;
    TopIsOwn(s, p);
    if s.rpcs[t].reply == Flushed {
      assert GivenUp(s, t);
    }
  }

  /** In every reachable state a flushed request is one that its process gave up. */
  lemma {:induction false} RunFlushesOwn(s: Channel, run: seq<Action>)
    requires Inv(s) && FlushesOwn(s) && IsRun(s, run)
    ensures FlushesOwn(After(s, run))
    decreases run
  {
    hide Step, Enabled, FlushesOwn, Inv;
    if run != [] {
      StepFlushesOwn(s, run[0]);
      StepKeepsInv(s, run[0]);
      RunFlushesOwn(Step(s, run[0]), run[1..]);
    }
  }

  // --- an answer stays -------------------------------------------------------

  /** Request t has its answer, and its process has not decided to give it up before. */
  predicate Answered(s: Channel, t: Tag, r: Reply) {
    && t in s.rpcs && s.rpcs[t].done && s.rpcs[t].reply == r
    && var p := s.rpcs[t].owner;
       var pc := Pcs(s, p);
       !(pc.Cleaning? && (pc.stage == Mark || pc.stage == Unqueue) && Chain(s, p) != [] && Chain(s, p)[0] == t)
  }

  lemma StepKeepsAnswer(s: Channel, a: Action, t: Tag, r: Reply)
    requires Inv(s) && Enabled(s, a) && Answered(s, t, r) && t in Step(s, a).rpcs
    ensures Answered(Step(s, a), t, r)
  {
    hide Step, Enabled, Inv;
    OffQueue(s, t);
    if a.Clean? {
      CleanKeepsAnswer(s, a.p, t, r);
    } else {
      RequestStays(s, a, t);
      var q := s.rpcs[t].owner;
      if Pcs(Step(s, a), q).Cleaning? && Pcs(Step(s, a), q).stage != Test {
        CleaningBegins(s, a, q);
      }
    }
  }

  lemma OffQueue(s: Channel, t: Tag)
    requires Inv(s) && t in s.rpcs && s.rpcs[t].done
    ensures t !in s.queue
  {
    assert RpcOk(s, t);
  }

  lemma RequestStays(s: Channel, a: Action, t: Tag)
    requires Enabled(s, a) && !a.Clean? && t in s.rpcs && t !in s.queue && t in Step(s, a).rpcs
    ensures Step(s, a).rpcs[t] == s.rpcs[t]
  {
    hide Without;
  }

  /** Cleaning begins with the test whether the request is done. */
  lemma CleaningBegins(s: Channel, a: Action, q: Pid)
    requires Enabled(s, a) && !a.Clean? && Pcs(Step(s, a), q).Cleaning? && Pcs(Step(s, a), q).stage != Test
    ensures Pcs(s, q) == Pcs(Step(s, a), q) && Chain(s, q) == Chain(Step(s, a), q)
  {
    hide Without;
  }

  lemma CleanKeepsAnswer(s: Channel, p: Pid, t: Tag, r: Reply)
    requires Inv(s) && Enabled(s, Clean(p)) && Answered(s, t, r) && t in Step(s, Clean(p)).rpcs
    ensures Answered(Step(s, Clean(p)), t, r)
  {
    hide Without, RpcOk, QueueOk, ChainOk, PcOk;
    TopIsOwn(s, p);
  }

  /** Request t is never freed in the run. */
  predicate Stays(s: Channel, run: seq<Action>, t: Tag)
    requires IsRun(s, run)
    decreases run
  {
    t in s.rpcs && (run == [] || Stays(Step(s, run[0]), run[1..], t))
  }

  /** However the process is interrupted afterwards, a request that has its answer keeps it
      until it is freed, unless the process had found it unanswered and is giving it up. */
  lemma {:induction false} AnswerStays(s: Channel, run: seq<Action>, t: Tag, r: Reply)
    requires Inv(s) && IsRun(s, run) && Stays(s, run, t) && Answered(s, t, r)
    ensures Answered(After(s, run), t, r)
    decreases run
  {
    hide Inv, Step, Enabled, Answered;
    if run != [] {
      StepKeepsInv(s, run[0]);
      StepKeepsAnswer(s, run[0], t, r);
      AnswerStays(Step(s, run[0]), run[1..], t, r);
    }
  }

  /** Process p has sent no flush; if it is to return normally its request is done, and
      was not flushed. */
  predicate Uncut(s: Channel, p: Pid) {
    var pc := Pcs(s, p);
    && |Chain(s, p)| <= 1
    && (Returning(pc) ==> Done(s, p) && s.rpcs[Chain(s, p)[0]].reply != Flushed)
    && (pc.Cleaning? && !pc.raised ==> pc.stage == Test || pc.stage == Advance)
  }

  predicate Returning(pc: Pc) {
    pc == Finished(false) || (pc.Cleaning? && !pc.raised) || (pc.Gating? && pc.next.ThenReturn?)
  }

  lemma OwnStepUncut(s: Channel, a: Action)
    requires Inv(s) && FlushesOwn(s) && Uncut(s, a.p) && Enabled(s, a) && !a.Flush?
    ensures Uncut(Step(s, a), a.p)
  {
    hide Inv, FlushesOwn;
    TopDone(s, a.p);
    if a.Clean? {
      CleanUncut(s, a.p);
    } else {
      MoveUncut(s, a);
    }
  }

  lemma MoveUncut(s: Channel, a: Action)
    requires Uncut(s, a.p) && Enabled(s, a) && !a.Flush? && !a.Clean?
    requires Pcs(s, a.p) == Roused || Pcs(s, a.p) == Reading ==> Done(s, a.p) ==> s.rpcs[Chain(s, a.p)[0]].reply != Flushed
    ensures Uncut(Step(s, a), a.p)
  {
    hide Without, CleanStep;
  }

  lemma CleanUncut(s: Channel, p: Pid)
    requires Inv(s) && Uncut(s, p) && Enabled(s, Clean(p))
    ensures Uncut(Step(s, Clean(p)), p)
  {
    hide Without, Inv;
    LastIsPlain(s, p);
  }

  lemma LastIsPlain(s: Channel, p: Pid)
    requires Inv(s)
    ensures |Chain(s, p)| == 1 ==> Chain(s, p)[0] in s.rpcs && s.rpcs[Chain(s, p)[0]].flushed == None
  {
    assert ChainOk(s, p);
    assert |Chain(s, p)| == 1 ==> LinkOk(s.rpcs, p, Chain(s, p), 0);
  }

  /** A request that is done, of a process on its way back from its sleep or its reading,
      has not been flushed. */
  lemma TopDone(s: Channel, p: Pid)
    requires Inv(s) && FlushesOwn(s)
    ensures Pcs(s, p) == Roused || Pcs(s, p) == Reading ==> Done(s, p) ==> s.rpcs[Chain(s, p)[0]].reply != Flushed
  {
    TopIsOwn(s, p);
    if Done(s, p) && s.rpcs[Chain(s, p)[0]].reply == Flushed {
      assert GivenUp(s, Chain(s, p)[0]);
    }
  }

  lemma OtherStepUncut(s: Channel, a: Action, p: Pid)
    requires Inv(s) && Uncut(s, p) && Enabled(s, a) && a.p != p
    ensures Uncut(Step(s, a), p)
  {
    hide Uncut, Step, Enabled, QueueOk, RpcOk, PcOk;
    OthersRequests(s, a, p);
    UncutStays(s, Step(s, a), p);
  }

  lemma UncutStays(s: Channel, s': Channel, p: Pid)
    requires Uncut(s, p) && Chain(s', p) == Chain(s, p)
    requires Chain(s, p) != [] ==> var t := Chain(s, p)[0];
        t in s.rpcs && t in s'.rpcs && (s.rpcs[t].done ==> s'.rpcs[t] == s.rpcs[t])
    requires Returning(Pcs(s', p)) ==> Pcs(s', p) == Pcs(s, p)
    ensures Uncut(s', p)
  {}

  /** What another process does leaves a request that is done as it is. */
  lemma OthersRequests(s: Channel, a: Action, p: Pid)
    requires Inv(s) && Enabled(s, a) && a.p != p
    ensures var s' := Step(s, a);
            && Chain(s', p) == Chain(s, p)
            && (Returning(Pcs(s', p)) ==> Pcs(s', p) == Pcs(s, p))
            && (Chain(s, p) != [] ==>
                  var t := Chain(s, p)[0]; t in s.rpcs && t in s'.rpcs && (s.rpcs[t].done ==> s'.rpcs[t] == s.rpcs[t]))
  {
    hide ChainOk, RpcOk, QueueOk, PcOk, Step, Enabled, Chain, Pcs;
    OthersStay(s, a, p);
    if Chain(s, p) != [] {
      TopIsOwn(s, p);
      OthersDone(s, a, Chain(s, p)[0]);
    }
  }

  lemma OthersStay(s: Channel, a: Action, p: Pid)
    requires Enabled(s, a) && a.p != p
    ensures Chain(Step(s, a), p) == Chain(s, p)
    ensures Returning(Pcs(Step(s, a), p)) ==> Pcs(Step(s, a), p) == Pcs(s, p)
  {
    hide Without;
  }

  lemma OthersDone(s: Channel, a: Action, t: Tag)
    requires Inv(s) && Enabled(s, a) && t in s.rpcs && s.rpcs[t].owner != a.p
    ensures t in Step(s, a).rpcs && (s.rpcs[t].done ==> Step(s, a).rpcs[t] == s.rpcs[t])
  {
    hide Without, Inv, RpcOk;
    NotIts(s, a.p, t);
    DoneUnqueued(s, t);
  }

  lemma DoneUnqueued(s: Channel, t: Tag)
    requires Inv(s) && t in s.rpcs
    ensures s.rpcs[t].done ==> t !in s.queue
  {
    assert RpcOk(s, t);
  }

  lemma NotIts(s: Channel, q: Pid, t: Tag)
    requires Inv(s) && t in s.rpcs && s.rpcs[t].owner != q
    ensures t !in Chain(s, q)
  {
    assert ChainOk(s, q);
    forall i | 0 <= i < |Chain(s, q)| ensures Chain(s, q)[i] != t {
      assert LinkOk(s.rpcs, q, Chain(s, q), i);
    }
  }

  lemma {:induction false} RunUncut(s: Channel, run: seq<Action>, p: Pid)
    requires Inv(s) && FlushesOwn(s) && Uncut(s, p) && IsRun(s, run)
    requires forall i :: 0 <= i < |run| ==> !(run[i].Flush? && run[i].p == p)
    ensures Uncut(After(s, run), p)
    decreases run
  {
    hide Step, Enabled, FlushesOwn, Inv, Uncut;
    if run != [] {
      var a := run[0];
      assert !(a.Flush? && a.p == p);
      if a.p == p {
        OwnStepUncut(s, a);
      } else {
        OtherStepUncut(s, a, p);
      }
      StepFlushesOwn(s, a);
      StepKeepsInv(s, a);
      RunUncut(Step(s, a), run[1..], p);
    }
  }

  /** A process that has sent no flush since it was idle, and returns normally, holds the
      reply with the tag of its request as it was read from the channel. */
  lemma ReturnsWhatWasRead(ps: set<Pid>, before: seq<Action>, run: seq<Action>, p: Pid)
    requires IsRun(Initial(ps), before + run) && IsRun(Initial(ps), before) && Pcs(After(Initial(ps), before), p) == Idle
    requires forall i :: 0 <= i < |run| ==> !(run[i].Flush? && run[i].p == p)
    requires Pcs(After(Initial(ps), before + run), p) == Finished(false)
    ensures var s := After(Initial(ps), before + run);
            && |Chain(s, p)| == 1
            && var t := Chain(s, p)[0];
            && t in s.rpcs && Own(s.rpcs[t].reply, t) && (t, s.rpcs[t].reply.body) in AllReceived(before + run)
  {
    hide Inv, FlushesOwn, Uncut, Step, Enabled, Initial;
    var s0 := After(Initial(ps), before);
    InitialInv(ps);
    NoneFlushed(ps);
    RunKeepsInv(Initial(ps), before);
    RunFlushesOwn(Initial(ps), before);
    IdleUncut(s0, p);
    RunSplits(Initial(ps), before, run);
    RunUncut(s0, run, p);
    FlushChainReleased(ps, before + run, p);
    UncutReply(After(Initial(ps), before + run), p);
    CompletedHoldsOwnReply(ps, before + run, Chain(After(Initial(ps), before + run), p)[0]);
  }

  lemma NoneFlushed(ps: set<Pid>)
    ensures FlushesOwn(Initial(ps))
  {}

  lemma IdleUncut(s: Channel, p: Pid)
    requires Inv(s) && Pcs(s, p) == Idle
    ensures Uncut(s, p)
  {
    assert ChainOk(s, p);
  }

  lemma UncutReply(s: Channel, p: Pid)
    requires Uncut(s, p) && Pcs(s, p) == Finished(false)
    ensures Done(s, p) && s.rpcs[Chain(s, p)[0]].reply != Flushed
  {}

  lemma {:induction false} RunSplits(s: Channel, a: seq<Action>, b: seq<Action>)
    requires IsRun(s, a + b) && IsRun(s, a)
    ensures IsRun(After(s, a), b) && After(s, a + b) == After(After(s, a), b)
    decreases a
  {
    hide Step, Enabled;
    if a == [] {
      assert a + b == b;
    } else {
      assert (a + b)[1..] == a[1..] + b;
      RunSplits(Step(s, a[0]), a[1..], b);
    }
  }

  /** However often a request was interrupted, when mountio returns or raises the
      only request its process still holds is the original: every flush has been
      released, nothing of it is queued, and the original is done with its own
      reply or Rflush. */
  lemma FlushChainReleased(ps: set<Pid>, run: seq<Action>, p: Pid)
    requires IsRun(Initial(ps), run) && Pcs(After(Initial(ps), run), p).Finished?
    ensures var s := After(Initial(ps), run);
            && |Chain(s, p)| == 1
            && var t := Chain(s, p)[0];
            && t in s.rpcs && s.rpcs[t].depth == 0 && s.rpcs[t].done
            && (Own(s.rpcs[t].reply, t) || s.rpcs[t].reply == Flushed)
            && forall u :: u in s.rpcs && s.rpcs[u].owner == p ==> u == t && u !in s.queue
  {
    hide Step, Enabled, Initial, Without;
    InitialInv(ps);
    RunKeepsInv(Initial(ps), run);
    var s := After(Initial(ps), run);
    assert PcOk(s, p);
    TopIsBusy(s, p);
    forall u | u in s.rpcs && s.rpcs[u].owner == p ensures u == Chain(s, p)[0] && u !in s.queue {
      assert RpcOk(s, u);
    }
  }

  /** Every flush in every reachable state carries the tag of the original request
      at the other end of its chain. */
  lemma FlushNamesOriginal(ps: set<Pid>, run: seq<Action>, t: Tag)
    requires IsRun(Initial(ps), run) && t in After(Initial(ps), run).rpcs
    requires After(Initial(ps), run).rpcs[t].depth > 0
    ensures var s := After(Initial(ps), run);
            var o := s.rpcs[t].oldtag;
            o in s.rpcs && s.rpcs[o].owner == s.rpcs[t].owner && s.rpcs[o].depth == 0
  {
    InitialInv(ps);
    RunKeepsInv(Initial(ps), run);
    var s := After(Initial(ps), run);
    var p, c := s.rpcs[t].owner, Chain(s, s.rpcs[t].owner);
    assert RpcOk(s, t);
    assert ChainOk(s, p);
    assert LinkOk(s.rpcs, p, c, |c| - 1 - s.rpcs[t].depth);
    assert LinkOk(s.rpcs, p, c, |c| - 1);
  }

  /** The reader role is never stranded as long as failing sends leave somebody who can
      read: if nobody reads and an unfinished requester is asleep, another one is awake. */
  lemma NeverStranded(ps: set<Pid>, run: seq<Action>)
    requires IsRun(Initial(ps), run) && FailuresSpare(Initial(ps), run)
    ensures !Stranded(After(Initial(ps), run))
  {
    InitialInv(ps);
    RunKeepsInv(Initial(ps), run);
    RunAttends(Initial(ps), run);
    var s := After(Initial(ps), run);
    assert s.lk == None ==> Scope(s) == [];
  }

  /** A failed send strands the others exactly when nobody reads or is in mntgate,
      someone unfinished sleeps, and the failing process was the only one awake. */
  lemma SendFailStrands(s: Channel, p: Pid)
    requires Inv(s) && Enabled(s, SendFail(p))
    ensures Stranded(Step(s, SendFail(p))) <==>
            s.rip == None && s.lk == None && (exists q :: Sleeping(s, q)) && forall q :: Taker(s, q) ==> q == p
  {
    hide Inv, Enabled, Step, Sleeping, Taker;
    SendFailIs(s, p);
    var s' := Step(s, SendFail(p));
    assert HasTaker(s') <==> exists q :: q != p && Taker(s, q);
    assert (exists q :: Sleeping(s', q)) <==> exists q :: Sleeping(s, q);
  }

  // A run in which a failed send does strand a sleeper: 1 reads, 2 and 3 sleep;
  // 1 is answered and wakes 3, which is interrupted and cannot send its flush.

  const Reads1 := [Start(1, 1), Enqueue(1), SendOk(1), Look(1)]
  const Sends2 := [Start(2, 2), Enqueue(2), SendOk(2)]
  const Sleeps2 := [Look(2), Check(2), Commit(2)]
  const Sends3 := [Start(3, 3), Enqueue(3), SendOk(3)]
  const Sleeps3 := [Look(3), Check(3), Commit(3)]
  const Answers1 := [Read(1, 1, []), Dispatch(1)]
  const Gates1 := [ReadDone(1), Scan(1)]
  const Interrupts3 := [Note(3), Leave(3), Catch(3)]
  const Fails3 := [Flush(3, 4), Enqueue(3), SendFail(3)]

  lemma {:induction false} RunsConcatenate(s: Channel, a: seq<Action>, b: seq<Action>)
    requires IsRun(s, a) && IsRun(After(s, a), b)
    ensures IsRun(s, a + b) && After(s, a + b) == After(After(s, a), b)
    decreases a
  {
    if a != [] {
      RunsConcatenate(Step(s, a[0]), a[1..], b);
      assert (a + b)[1..] == a[1..] + b;
    } else {
      assert a + b == b;
    }
  }

  lemma {:induction false} RunHead(s: Channel, a: Action, rest: seq<Action>)
    requires Enabled(s, a) && IsRun(Step(s, a), rest)
    ensures IsRun(s, [a] + rest) && After(s, [a] + rest) == After(Step(s, a), rest)
  {
    assert ([a] + rest)[1..] == rest;
  }

  function Fresh1(t: Tag, p: Pid): Rpc { Rpc(p, 0, None, 0, false, NoReply) }

  function Reading1(): Channel {
    Channel(map[1 := Proc(Reading, [1]), 2 := Proc(Idle, []), 3 := Proc(Idle, [])],
            map[1 := Fresh1(1, 1)], [1], Some(1), None, {})
  }

  function Sleeping2(): Channel {
    Channel(map[1 := Proc(Reading, [1]), 2 := Proc(Asleep, [2]), 3 := Proc(Idle, [])],
            map[1 := Fresh1(1, 1), 2 := Fresh1(2, 2)], [2, 1], Some(1), None, {})
  }

  function Sleeping3(): Channel {
    Channel(map[1 := Proc(Reading, [1]), 2 := Proc(Asleep, [2]), 3 := Proc(Asleep, [3])],
            map[1 := Fresh1(1, 1), 2 := Fresh1(2, 2), 3 := Fresh1(3, 3)], [3, 2, 1], Some(1), None, {})
  }

  function Gated(): Channel {
    Channel(map[1 := Proc(Cleaning(Test, false), [1]), 2 := Proc(Asleep, [2]), 3 := Proc(Roused, [3])],
            map[1 := Fresh1(1, 1).(done := true, reply := Answer(1, [])), 2 := Fresh1(2, 2), 3 := Fresh1(3, 3)],
            [3, 2], None, None, {})
  }

  lemma FirstReads()
    ensures IsRun(Initial({1, 2, 3}), Reads1) && After(Initial({1, 2, 3}), Reads1) == Reading1()
  {
    var s0 := Initial({1, 2, 3});
    var s1 := Step(s0, Start(1, 1));
    var s2 := Step(s1, Enqueue(1));
    var s3 := Step(s2, SendOk(1));
    var s4 := Step(s3, Look(1));
    assert s4 == Reading1();
    RunHead(s3, Look(1), []);
    RunHead(s2, SendOk(1), [Look(1)]);
    RunHead(s1, Enqueue(1), [SendOk(1), Look(1)]);
    RunHead(s0, Start(1, 1), [Enqueue(1), SendOk(1), Look(1)]);
  }

  function Sending2(): Channel {
    Channel(map[1 := Proc(Reading, [1]), 2 := Proc(Looking, [2]), 3 := Proc(Idle, [])],
            map[1 := Fresh1(1, 1), 2 := Fresh1(2, 2)], [2, 1], Some(1), None, {})
  }

  function Sending3(): Channel {
    Channel(map[1 := Proc(Reading, [1]), 2 := Proc(Asleep, [2]), 3 := Proc(Looking, [3])],
            map[1 := Fresh1(1, 1), 2 := Fresh1(2, 2), 3 := Fresh1(3, 3)], [3, 2, 1], Some(1), None, {})
  }

  function Answered1(): Channel {
    Channel(map[1 := Proc(Reading, [1]), 2 := Proc(Asleep, [2]), 3 := Proc(Asleep, [3])],
            map[1 := Fresh1(1, 1).(done := true, reply := Answer(1, [])), 2 := Fresh1(2, 2), 3 := Fresh1(3, 3)],
            [3, 2], Some(1), None, {})
  }

  lemma SecondSends()
    ensures IsRun(Reading1(), Sends2) && After(Reading1(), Sends2) == Sending2()
  {
    var s0 := Reading1();
    var s1 := Step(s0, Start(2, 2));
    var s2 := Step(s1, Enqueue(2));
    var s3 := Step(s2, SendOk(2));
    assert s3 == Sending2();
    RunHead(s2, SendOk(2), []);
    RunHead(s1, Enqueue(2), [SendOk(2)]);
    RunHead(s0, Start(2, 2), [Enqueue(2), SendOk(2)]);
  }

  lemma SecondSleeps()
    ensures IsRun(Sending2(), Sleeps2) && After(Sending2(), Sleeps2) == Sleeping2()
  {
    var s0 := Sending2();
    var s1 := Step(s0, Look(2));
    var s2 := Step(s1, Check(2));
    var s3 := Step(s2, Commit(2));
    assert s3 == Sleeping2();
    RunHead(s2, Commit(2), []);
    RunHead(s1, Check(2), [Commit(2)]);
    RunHead(s0, Look(2), [Check(2), Commit(2)]);
  }

  lemma ThirdSends()
    ensures IsRun(Sleeping2(), Sends3) && After(Sleeping2(), Sends3) == Sending3()
  {
    var s0 := Sleeping2();
    var s1 := Step(s0, Start(3, 3));
    var s2 := Step(s1, Enqueue(3));
    var s3 := Step(s2, SendOk(3));
    assert s3 == Sending3();
    RunHead(s2, SendOk(3), []);
    RunHead(s1, Enqueue(3), [SendOk(3)]);
    RunHead(s0, Start(3, 3), [Enqueue(3), SendOk(3)]);
  }

  lemma ThirdSleeps()
    ensures IsRun(Sending3(), Sleeps3) && After(Sending3(), Sleeps3) == Sleeping3()
  {
    var s0 := Sending3();
    var s1 := Step(s0, Look(3));
    var s2 := Step(s1, Check(3));
    var s3 := Step(s2, Commit(3));
    assert s3 == Sleeping3();
    RunHead(s2, Commit(3), []);
    RunHead(s1, Check(3), [Commit(3)]);
    RunHead(s0, Look(3), [Check(3), Commit(3)]);
  }

  lemma FirstIsAnswered()
    ensures IsRun(Sleeping3(), Answers1) && After(Sleeping3(), Answers1) == Answered1()
  {
    var s0 := Sleeping3();
    assert Without([3, 2, 1], 1) == [3, 2];
    var s1 := Step(s0, Read(1, 1, []));
    var s2 := Step(s1, Dispatch(1));
    assert s2 == Answered1();
    RunHead(s1, Dispatch(1), []);
    RunHead(s0, Read(1, 1, []), [Dispatch(1)]);
  }

  lemma FirstGates()
    ensures IsRun(Answered1(), Gates1) && After(Answered1(), Gates1) == Gated()
  {
    var s0 := Answered1();
    var s1 := Step(s0, ReadDone(1));
    var s2 := Step(s1, Scan(1));
    assert s2 == Gated();
    RunHead(s1, Scan(1), []);
    RunHead(s0, ReadDone(1), [Scan(1)]);
  }

  function Failed(): Channel {
    Channel(map[1 := Proc(Cleaning(Test, false), [1]), 2 := Proc(Asleep, [2]), 3 := Proc(Raised(false), [4, 3])],
            map[1 := Fresh1(1, 1).(done := true, reply := Answer(1, [])), 2 := Fresh1(2, 2), 3 := Fresh1(3, 3),
                4 := Rpc(3, 1, Some(3), 3, false, NoReply)],
            [4, 3, 2], None, None, {})
  }

  function Interrupted3(): Channel {
    Channel(map[1 := Proc(Cleaning(Test, false), [1]), 2 := Proc(Asleep, [2]), 3 := Proc(Handling(true), [3])],
            map[1 := Fresh1(1, 1).(done := true, reply := Answer(1, [])), 2 := Fresh1(2, 2), 3 := Fresh1(3, 3)],
            [3, 2], None, None, {})
  }

  lemma ThirdIsInterrupted()
    ensures IsRun(Gated(), Interrupts3) && After(Gated(), Interrupts3) == Interrupted3()
  {
    var s0 := Gated();
    var s1 := Step(s0, Note(3));
    var s2 := Step(s1, Leave(3));
    assert s2.notes == {};
    var s3 := Step(s2, Catch(3));
    assert s3 == Interrupted3();
    RunHead(s2, Catch(3), []);
    RunHead(s1, Leave(3), [Catch(3)]);
    RunHead(s0, Note(3), [Leave(3), Catch(3)]);
  }

  lemma ThirdFails()
    ensures IsRun(Interrupted3(), Fails3) && After(Interrupted3(), Fails3) == Failed()
  {
    var s0 := Interrupted3();
    var s1 := Step(s0, Flush(3, 4));
    assert s1.procs[3].chain == [4, 3];
    var s2 := Step(s1, Enqueue(3));
    var s3 := Step(s2, SendFail(3));
    assert s3 == Failed();
    RunHead(s2, SendFail(3), []);
    RunHead(s1, Enqueue(3), [SendFail(3)]);
    RunHead(s0, Flush(3, 4), [Enqueue(3), SendFail(3)]);
  }

  lemma FailedIsStranded()
    ensures Stranded(Failed())
  {
    assert Sleeping(Failed(), 2);
  }

  lemma SendFailureCanStrand()
    ensures var run := Reads1 + Sends2 + Sleeps2 + Sends3 + Sleeps3 + Answers1 + Gates1 + Interrupts3 + Fails3;
            IsRun(Initial({1, 2, 3}), run) && Stranded(After(Initial({1, 2, 3}), run))
  {
    FirstReads();
    SecondSends();
    SecondSleeps();
    ThirdSends();
    ThirdSleeps();
    FirstIsAnswered();
    FirstGates();
    ThirdIsInterrupted();
    ThirdFails();
    FailedIsStranded();
    hide *;
    var s := Initial({1, 2, 3});
    RunsConcatenate(s, Reads1, Sends2);
    RunsConcatenate(s, Reads1 + Sends2, Sleeps2);
    RunsConcatenate(s, Reads1 + Sends2 + Sleeps2, Sends3);
    RunsConcatenate(s, Reads1 + Sends2 + Sleeps2 + Sends3, Sleeps3);
    RunsConcatenate(s, Reads1 + Sends2 + Sleeps2 + Sends3 + Sleeps3, Answers1);
    RunsConcatenate(s, Reads1 + Sends2 + Sleeps2 + Sends3 + Sleeps3 + Answers1, Gates1);
    RunsConcatenate(s, Reads1 + Sends2 + Sleeps2 + Sends3 + Sleeps3 + Answers1 + Gates1, Interrupts3);
    RunsConcatenate(s, Reads1 + Sends2 + Sleeps2 + Sends3 + Sleeps3 + Answers1 + Gates1 + Interrupts3, Fails3);
  }
}
