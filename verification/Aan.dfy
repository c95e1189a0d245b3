/**
 AAN, the reliable link of aan.c: numbered, acknowledged and retransmitted
 messages over a connection that may be cut and redialled at any time.

 The first half gives one endpoint as functions on values, with the 32-bit
 counters of the program (drawterm's ulong is a 32-bit unsigned integer and its
 long a 32-bit signed one).  The second half joins two endpoints by a link and
 states what every run keeps.
 */
module Aan {
  import opened Bytes

  const WORD := 0x1_0000_0000
  const HALF := 0x8000_0000
  const BUFSIZE := 8192

  type Word = x: int | 0 <= x < WORD
  type Chunk = seq<byte>

  datatype Frame = Frame(nb: Word, msg: Word, acked: Word, data: Chunk)

  /** One endpoint.  The last four fields are history: no function below lets a
      program field depend on them. */
  datatype End = End(
    inmsg: Word, outmsg: Word, lastacked: Word, unacked: seq<Frame>,
    pipeOpen: bool, reading: bool, eof: bool, delivered: seq<Chunk>,
    accepted: seq<Chunk>, received: nat, released: nat)

  const FreshEnd := End(0, 0, 0, [], true, true, false, [], [], 0, 0)

  /** The C conversion (long)(a - b) of two 32-bit unsigned values. */
  function SignedDiff(a: Word, b: Word): int {
    var d := if b <= a then a - b else a - b + WORD;
    if d < HALF then d else d - WORD
  }

  /** The 32-bit counter after n increments. */
  function Wrap(n: nat): Word { n % WORD }

  function Next(w: Word): Word { if w == WORD - 1 then 0 else w + 1 }

  // --- aanwriter -----------------------------------------------------------

  function NewFrame(e: End, chunk: Chunk): Frame
    requires |chunk| <= BUFSIZE
  {
    Frame(|chunk|, e.outmsg, e.inmsg, chunk)
  }

  /** One turn of aanwriter: the chunk read from the pipe is queued as unacked
      and written; a chunk of length zero that was written ends the writer. */
  function Accept(e: End, chunk: Chunk, wrote: bool): End
    requires |chunk| <= BUFSIZE
  {
    e.(outmsg := Next(e.outmsg),
       unacked := e.unacked + [NewFrame(e, chunk)],
       pipeOpen := e.pipeOpen && !(wrote && chunk == []),
       accepted := e.accepted + [chunk])
  }

  // --- aansyncer -----------------------------------------------------------

  function SyncFrame(e: End): Frame { Frame(0, WORD - 1, e.inmsg, []) }

  // --- aanreader -----------------------------------------------------------

  /** The loop that frees acknowledged buffers: it counts lastacked up until it
      reaches a or the list is empty. */
  function Release(unacked: seq<Frame>, last: Word, a: Word): (r: (seq<Frame>, Word))
    ensures |r.0| <= |unacked|
  {
    if unacked == [] then (unacked, last)
    else if Next(last) == a then (unacked[1..], a)
    else Release(unacked[1..], Next(last), a)
  }

  function Acknowledge(e: End, a: Word): End {
    if SignedDiff(a, e.lastacked) > 0 then
      var (u, l) := Release(e.unacked, e.lastacked, a);
      e.(unacked := u, lastacked := l, released := e.released + |e.unacked| - |u|)
    else e
  }

  function Hangup(e: End): End { e.(reading := false, eof := e.eof || e.pipeOpen) }

  /** What aanreader does with one frame. */
  function Receive(e: End, f: Frame): End {
    if f.nb == 0 then
      if f.msg == WORD - 1 then e else Hangup(e)
    else if f.nb >= HALF || f.nb > BUFSIZE then Hangup(e)
    else if f.msg != e.inmsg then e
    else
      var e1 := Acknowledge(e.(inmsg := Next(e.inmsg), received := e.received + 1), f.acked);
      if !e1.pipeOpen then Hangup(e1)
      else e1.(delivered := e1.delivered + [f.data])
  }

  // --- reconnect -----------------------------------------------------------

  /** The unacked frames as reconnect sends them: in order, with the current
      acknowledgement stamped into each. */
  function Refresh(unacked: seq<Frame>, inmsg: Word): (r: seq<Frame>)
    ensures |r| == |unacked|
  {
    seq(|unacked|, i requires 0 <= i < |unacked| => unacked[i].(acked := inmsg))
  }

  function Reconnect(e: End): End { e.(unacked := Refresh(e.unacked, e.inmsg)) }

  // --- two endpoints and the link ------------------------------------------

  /** A frame in flight, with its unbounded number (-1 for a sync frame) and
      the unbounded value of its acknowledgement as history. */
  datatype Packet = Packet(frame: Frame, seqno: int, ack: nat)

  /** One direction: what the current connection still carries, and what the
      receiver can still read from the connection it has not yet given up. */
  datatype Dir = Dir(cur: seq<Packet>, stale: seq<Packet>)

  datatype Net = Net(a: End, b: End, ab: Dir, ba: Dir, upA: bool, upB: bool)

  const InitialNet := Net(FreshEnd, FreshEnd, Dir([], []), Dir([], []), false, false)

  datatype Action =
    | Write(chunk: Chunk, wrote: bool)  // aanwriter
    | PipeError                         // aanwriter: reading the pipe failed
    | Sync                              // aansyncer
    | Read                              // aanreader takes one frame
    | Redial                            // reconnect
    | Cut(keepAB: nat, keepBA: nat)     // the connection dies; a prefix may still be read
    | Peer(act: Action)                 // the other endpoint acts

  function Mirror(n: Net): Net { Net(n.b, n.a, n.ba, n.ab, n.upB, n.upA) }

  predicate Enabled(n: Net, act: Action)
    decreases act
  {
    match act
    case Write(chunk, wrote) =>
      n.a.pipeOpen && |chunk| <= BUFSIZE && |n.a.unacked| + 1 < HALF && (n.upA ==> wrote)
    case PipeError => n.a.pipeOpen
    case Sync => true
    case Read => n.a.reading && (if n.upA then n.ba.cur != [] else n.ba.stale != [])
    case Redial => n.a.reading && !n.upA
    case Cut(k, l) =>
      k <= |Readable(n.ab, n.upB)| && l <= |Readable(n.ba, n.upA)|
    case Peer(b) => !b.Peer? && Enabled(Mirror(n), b)
  }

  function Readable(d: Dir, receiverUp: bool): seq<Packet> {
    if receiverUp then d.cur else d.stale
  }

  function Send(d: Dir, up: bool, p: Packet): Dir {
    if up then d.(cur := d.cur + [p]) else d
  }

  /** The unacked frames from number f on, as reconnect writes them. */
  function Packets(u: seq<Frame>, ack: Word, f: nat, received: nat): seq<Packet> {
    if u == [] then [] else [Packet(u[0].(acked := ack), f, received)] + Packets(u[1..], ack, f + 1, received)
  }

  function Resent(e: End): seq<Packet> { Packets(e.unacked, e.inmsg, e.released, e.received) }

  function Step(n: Net, act: Action): Net
    requires Enabled(n, act)
    decreases act
  {
    match act
    case Write(chunk, wrote) =>
      n.(a := Accept(n.a, chunk, wrote),
         ab := Send(n.ab, n.upA, Packet(NewFrame(n.a, chunk), |n.a.accepted|, n.a.received)))
    case PipeError => n.(a := n.a.(pipeOpen := false))
    case Sync => n.(ab := Send(n.ab, n.upA, Packet(SyncFrame(n.a), -1, n.a.received)))
    case Read =>
      if n.upA then n.(a := Receive(n.a, n.ba.cur[0].frame), ba := n.ba.(cur := n.ba.cur[1..]))
      else n.(a := Receive(n.a, n.ba.stale[0].frame), ba := n.ba.(stale := n.ba.stale[1..]))
    case Redial =>
      n.(a := Reconnect(n.a), ab := n.ab.(cur := Resent(n.a)), ba := n.ba.(stale := []), upA := true)
    case Cut(k, l) =>
      Net(n.a, n.b, Dir([], Readable(n.ab, n.upB)[..k]), Dir([], Readable(n.ba, n.upA)[..l]), false, false)
    case Peer(b) => Mirror(Step(Mirror(n), b))
  }

  predicate IsRun(n: Net, run: seq<Action>)
    decreases run
  {
    run == [] || (Enabled(n, run[0]) && IsRun(Step(n, run[0]), run[1..]))
  }

  function After(n: Net, run: seq<Action>): Net
    requires IsRun(n, run)
    decreases run
  {
    if run == [] then n else After(Step(n, run[0]), run[1..])
  }

  // --- the invariant -------------------------------------------------------

  /** f carries chunk number k of acc. */
  predicate Matches(f: Frame, k: nat, acc: seq<Chunk>) {
    k < |acc| && f.nb == |acc[k]| && f.msg == Wrap(k) && f.data == acc[k]
  }

  /** The numbered packets of q are f, f+1, ..., h-1 in this order, and the
      acknowledgements in q never decrease and lie within lo..hi. */
  ghost predicate Flow(q: seq<Packet>, f: nat, h: nat, acc: seq<Chunk>, lo: nat, hi: nat) {
    if q == [] then f == h <= |acc| && lo <= hi
    else
      var p := q[0];
      && lo <= p.ack <= hi
      && p.frame.acked == Wrap(p.ack)
      && if p.seqno < 0 then
           p.frame.nb == 0 && p.frame.msg == WORD - 1 && Flow(q[1..], f, h, acc, p.ack, hi)
         else
           p.seqno == f && Matches(p.frame, f, acc) && Flow(q[1..], f + 1, h, acc, p.ack, hi)
  }

  /** A close message whose number is 2^32-1 looks like a sync frame, and the
      receiver that waits for it ignores it for ever. */
  predicate Stuck(acc: seq<Chunk>, n: nat) {
    n < |acc| && acc[n] == [] && Wrap(n) == WORD - 1
  }

  ghost predicate Counters(s: End, r: End) {
    && (forall i :: 0 <= i < |s.accepted| ==> |s.accepted[i]| <= BUFSIZE)
    && s.outmsg == Wrap(|s.accepted|)
    && s.lastacked == Wrap(s.released)
    && r.inmsg == Wrap(r.received)
    && s.released <= r.received <= |s.accepted|
    && |s.unacked| == |s.accepted| - s.released < HALF
    && (forall i :: 0 <= i < |s.unacked| ==> Matches(s.unacked[i], s.released + i, s.accepted))
  }

  ghost predicate Delivery(s: End, r: End) {
    && (forall i :: 0 <= i < r.received && i < |s.accepted| ==> s.accepted[i] != [])
    && |r.delivered| <= r.received <= |s.accepted|
    && r.delivered == s.accepted[..|r.delivered|]
    && (r.reading || r.eof ==> |r.delivered| == r.received)
    && (r.eof ==> !r.reading && r.received < |s.accepted| && s.accepted[r.received] == [])
  }

  /** The flow of one direction: s sends, r receives, d is in between; f and g
      number the next packets of d.cur and d.stale. */
  ghost predicate Numbered(s: End, r: End, d: Dir, us: bool, ur: bool, f: nat, g: nat, h: nat, mid: nat) {
    && (us ==> Flow(d.cur, f, |s.accepted|, s.accepted, mid, s.received))
    && (!us ==> d.cur == [])
    && (ur ==> d.stale == [])
    && Flow(d.stale, g, h, s.accepted, r.released, mid)
    && mid <= s.received
    && (r.reading && us ==> InReach(s, r, f) && (!ur ==> h < f + HALF))
    && (r.reading && !ur && d.stale != [] ==> InReach(s, r, g))
  }

  ghost predicate InReach(s: End, r: End, f: nat) {
    && (f <= r.received || Stuck(s.accepted, r.received))
    && r.received < f + HALF
  }

  ghost predicate DirInv(s: End, r: End, d: Dir, us: bool, ur: bool) {
    && Counters(s, r)
    && Delivery(s, r)
    && exists f: nat, g: nat, h: nat, mid: nat :: Numbered(s, r, d, us, ur, f, g, h, mid)
  }

  ghost predicate Inv(n: Net) {
    && DirInv(n.a, n.b, n.ab, n.upA, n.upB)
    && DirInv(n.b, n.a, n.ba, n.upB, n.upA)
  }

  // --- arithmetic of the wrapped counters ----------------------------------

  lemma DiffOfWrapped(l: nat, a: nat)
    requires l <= a < l + HALF
    ensures SignedDiff(Wrap(a), Wrap(l)) == a - l
  {
    var d := a % WORD - l % WORD;
    var q := a / WORD - l / WORD;
    assert a - l == WORD * q + d;
  }

  lemma WrappedEqual(k: nat, n: nat)
    requires k < n + HALF && n < k + HALF
    ensures Wrap(k) == Wrap(n) <==> k == n
  {
    var q := k / WORD - n / WORD;
    assert k - n == WORD * q + (k % WORD - n % WORD);
  }

  lemma NextWrapped(n: nat)
    ensures Next(Wrap(n)) == Wrap(n + 1)
  {}

  lemma {:induction false} ReleaseUpTo(u: seq<Frame>, l: nat, a: nat)
    requires l < a <= l + |u| < l + HALF
    ensures Release(u, Wrap(l), Wrap(a)) == (u[a - l..], Wrap(a))
  {
    NextWrapped(l);
    WrappedEqual(l + 1, a);
    if l + 1 != a {
      ReleaseUpTo(u[1..], l + 1, a);
      assert u[1..][a - (l + 1)..] == u[a - l..];
    }
  }

  // --- lemmas about flows --------------------------------------------------

  lemma {:induction false} FlowBounds(q: seq<Packet>, f: nat, h: nat, acc: seq<Chunk>, lo: nat, hi: nat)
    requires Flow(q, f, h, acc, lo, hi)
    ensures f <= h <= |acc| && lo <= hi
  {
    if q != [] {
      var p := q[0];
      FlowBounds(q[1..], if p.seqno < 0 then f else f + 1, h, acc, p.ack, hi);
    }
  }

  lemma {:induction false} FlowWiden(q: seq<Packet>, f: nat, h: nat, acc: seq<Chunk>, lo: nat, hi: nat,
                                     acc': seq<Chunk>, lo': nat, hi': nat)
    requires Flow(q, f, h, acc, lo, hi)
    requires acc <= acc' && lo' <= lo && hi <= hi'
    ensures Flow(q, f, h, acc', lo', hi')
  {
    if q != [] {
      var p := q[0];
      FlowWiden(q[1..], if p.seqno < 0 then f else f + 1, h, acc, p.ack, hi, acc', p.ack, hi');
    }
  }

  lemma {:induction false} FlowAppend(q: seq<Packet>, f: nat, h: nat, acc: seq<Chunk>, lo: nat, hi: nat, p: Packet)
    requires Flow(q, f, h, acc, lo, hi)
    requires p.ack == hi && p.frame.acked == Wrap(hi)
    requires if p.seqno < 0 then p.frame.nb == 0 && p.frame.msg == WORD - 1 else p.seqno == h && Matches(p.frame, h, acc)
    ensures Flow(q + [p], f, if p.seqno < 0 then h else h + 1, acc, lo, hi)
  {
    if q != [] {
      var p0 := q[0];
      assert (q + [p])[0] == p0 && (q + [p])[1..] == q[1..] + [p];
      FlowAppend(q[1..], if p0.seqno < 0 then f else f + 1, h, acc, p0.ack, hi, p);
    } else {
      assert (q + [p])[1..] == [];
    }
  }

  lemma {:induction false} FlowPrefix(q: seq<Packet>, f: nat, h: nat, acc: seq<Chunk>, lo: nat, hi: nat, k: nat)
      returns (h': nat)
    requires Flow(q, f, h, acc, lo, hi) && k <= |q|
    ensures Flow(q[..k], f, h', acc, lo, hi)
  {
    FlowBounds(q, f, h, acc, lo, hi);
    if k == 0 {
      h' := f;
    } else {
      var p := q[0];
      assert q[..k][1..] == q[1..][..k - 1];
      h' := FlowPrefix(q[1..], if p.seqno < 0 then f else f + 1, h, acc, p.ack, hi, k - 1);
    }
  }

  lemma {:induction false} FlowResent(u: seq<Frame>, ack: Word, f: nat, acc: seq<Chunk>, r: nat)
    requires f + |u| == |acc| && ack == Wrap(r)
    requires forall i :: 0 <= i < |u| ==> Matches(u[i], f + i, acc)
    ensures Flow(Packets(u, ack, f, r), f, |acc|, acc, r, r)
  {
    if u != [] {
      var v := u[1..];
      forall i | 0 <= i < |v| ensures Matches(v[i], f + 1 + i, acc) {
        assert Matches(u[i + 1], f + (i + 1), acc);
      }
      FlowResent(v, ack, f + 1, acc, r);
      assert Matches(u[0], f + 0, acc);
    }
  }

  // --- one endpoint acts: the direction it sends on --------------------------

  lemma WriteKeepsSending(s: End, r: End, d: Dir, us: bool, ur: bool, chunk: Chunk, wrote: bool)
    requires DirInv(s, r, d, us, ur)
    requires s.pipeOpen && |chunk| <= BUFSIZE && |s.unacked| + 1 < HALF
    ensures DirInv(Accept(s, chunk, wrote), r,
                   Send(d, us, Packet(NewFrame(s, chunk), |s.accepted|, s.received)), us, ur)
    requires Counters(r, s)
  {
    var f, g, h, mid :| Numbered(s, r, d, us, ur, f, g, h, mid);
    var s' := Accept(s, chunk, wrote);
    var p := Packet(NewFrame(s, chunk), |s.accepted|, s.received);
    var d' := Send(d, us, p);
    assert s.accepted <= s'.accepted;
    NextWrapped(|s.accepted|);
    FlowWiden(d.stale, g, h, s.accepted, r.released, mid, s'.accepted, r.released, mid);
    if us {
      FlowWiden(d.cur, f, |s.accepted|, s.accepted, mid, s.received, s'.accepted, mid, s.received);
      FlowAppend(d.cur, f, |s.accepted|, s'.accepted, mid, s.received, p);
    }
    assert Numbered(s', r, d', us, ur, f, g, h, mid);
  }

  lemma SyncKeepsSending(s: End, r: End, d: Dir, us: bool, ur: bool)
    requires DirInv(s, r, d, us, ur) && Counters(r, s)
    ensures DirInv(s, r, Send(d, us, Packet(SyncFrame(s), -1, s.received)), us, ur)
  {
    var f, g, h, mid :| Numbered(s, r, d, us, ur, f, g, h, mid);
    var p := Packet(SyncFrame(s), -1, s.received);
    if us {
      FlowAppend(d.cur, f, |s.accepted|, s.accepted, mid, s.received, p);
    }
    assert Numbered(s, r, Send(d, us, p), us, ur, f, g, h, mid);
  }

  lemma RefreshKeepsCounters(s: End, r: End)
    requires Counters(s, r)
    ensures Counters(Reconnect(s), r)
  {
    var s' := Reconnect(s);
    forall i | 0 <= i < |s'.unacked| ensures Matches(s'.unacked[i], s'.released + i, s'.accepted) {
      assert Matches(s.unacked[i], s.released + i, s.accepted);
    }
  }

  lemma RedialKeepsSending(s: End, r: End, d: Dir, ur: bool)
    requires DirInv(s, r, d, false, ur) && Counters(r, s)
    ensures DirInv(Reconnect(s), r, d.(cur := Resent(s)), true, ur)
  {
    var f, g, h, mid :| Numbered(s, r, d, false, ur, f, g, h, mid);
    RefreshKeepsCounters(s, r);
    FlowResent(s.unacked, s.inmsg, s.released, s.accepted, s.received);
    FlowBounds(d.stale, g, h, s.accepted, r.released, mid);
    FlowWiden(d.stale, g, h, s.accepted, r.released, mid, s.accepted, r.released, s.received);
    RedialNumbers(s, r, d, ur, g, h);
  }

  lemma RedialNumbers(s: End, r: End, d: Dir, ur: bool, g: nat, h: nat)
    requires Counters(s, r) && Counters(Reconnect(s), r) && Delivery(s, r)
    requires Flow(Resent(s), s.released, |s.accepted|, s.accepted, s.received, s.received)
    requires Flow(d.stale, g, h, s.accepted, r.released, s.received) && h <= |s.accepted|
    requires ur ==> d.stale == []
    requires r.reading && !ur && d.stale != [] ==> InReach(s, r, g)
    ensures DirInv(Reconnect(s), r, d.(cur := Resent(s)), true, ur)
  {
    assert Numbered(Reconnect(s), r, d.(cur := Resent(s)), true, ur, s.released, g, h, s.received);
  }

  lemma RedialKeepsReceiving(s: End, r: End, d: Dir, us: bool)
    requires DirInv(s, r, d, us, false)
    ensures DirInv(s, Reconnect(r), d.(stale := []), us, true)
  {
    var f, g, h, mid :| Numbered(s, r, d, us, false, f, g, h, mid);
    FlowBounds(d.stale, g, h, s.accepted, r.released, mid);
    assert Numbered(s, Reconnect(r), d.(stale := []), us, true, f, 0, 0, mid);
  }

  lemma CutKeeps(s: End, r: End, d: Dir, us: bool, ur: bool, k: nat)
    requires DirInv(s, r, d, us, ur) && k <= |Readable(d, ur)|
    ensures DirInv(s, r, Dir([], Readable(d, ur)[..k]), false, false)
  {
    var f, g, h, mid :| Numbered(s, r, d, us, ur, f, g, h, mid);
    FlowBounds(d.stale, g, h, s.accepted, r.released, mid);
    if ur && us {
      FlowWiden(d.cur, f, |s.accepted|, s.accepted, mid, s.received, s.accepted, r.released, s.received);
      var h' := FlowPrefix(d.cur, f, |s.accepted|, s.accepted, r.released, s.received, k);
      assert Numbered(s, r, Dir([], d.cur[..k]), false, false, 0, f, h', s.received);
    } else if ur {
      assert Numbered(s, r, Dir([], []), false, false, 0, 0, 0, s.received);
    } else {
      FlowWiden(d.stale, g, h, s.accepted, r.released, mid, s.accepted, r.released, s.received);
      var h' := FlowPrefix(d.stale, g, h, s.accepted, r.released, s.received, k);
      assert Numbered(s, r, Dir([], d.stale[..k]), false, false, 0, g, h', s.received);
    }
  }

  // --- one endpoint takes a frame --------------------------------------------

  /** The acknowledgement of an accepted frame frees exactly the buffers below
      it; o is the direction in which r itself sends. */
  lemma AcknowledgeFrees(r: End, s: End, ack: nat)
    requires Counters(r, s) && r.released <= ack <= s.received
    ensures var r' := Acknowledge(r, Wrap(ack));
            r' == r.(unacked := r.unacked[ack - r.released..], lastacked := Wrap(ack), released := ack)
  {
    DiffOfWrapped(r.released, ack);
    if r.released < ack {
      ReleaseUpTo(r.unacked, r.released, ack);
    }
  }

  /** What a frame of the flow does to its reader. */
  lemma ReceiveCases(s: End, r: End, p: Packet, f: nat)
    requires Counters(s, r) && Counters(r, s) && Delivery(s, r) && r.reading
    requires p.frame.acked == Wrap(p.ack) && r.released <= p.ack <= s.received
    requires if p.seqno < 0 then p.frame.nb == 0 && p.frame.msg == WORD - 1
             else p.seqno == f && Matches(p.frame, f, s.accepted) && InReach(s, r, f)
    ensures var r' := Receive(r, p.frame);
            if p.seqno < 0 then r' == r
            else if s.accepted[f] == [] then
              if Wrap(f) == WORD - 1 then r' == r
              else r' == Hangup(r) && s.accepted[r.received] == []
            else if f != r.received then r' == r
            else
              var r1 := r.(inmsg := Wrap(f + 1), received := f + 1, unacked := r.unacked[p.ack - r.released..],
                           lastacked := Wrap(p.ack), released := p.ack);
              r' == if r.pipeOpen then r1.(delivered := r.delivered + [s.accepted[f]]) else Hangup(r1)
  {
    if p.seqno >= 0 {
      var c := s.accepted[f];
      assert |c| <= BUFSIZE;
      WrappedEqual(f, r.received);
      assert f < r.received ==> s.accepted[f] != [];
      if c != [] && f == r.received {
        NextWrapped(r.received);
        AcknowledgeFrees(r.(inmsg := Next(r.inmsg), received := f + 1), s, p.ack);
      }
    }
  }

  lemma ReadKeepsCounters(s: End, r: End, p: Packet, f: nat)
    requires Counters(s, r) && Counters(r, s) && Delivery(s, r) && r.reading
    requires p.frame.acked == Wrap(p.ack) && r.released <= p.ack <= s.received
    requires if p.seqno < 0 then p.frame.nb == 0 && p.frame.msg == WORD - 1
             else p.seqno == f && Matches(p.frame, f, s.accepted) && InReach(s, r, f)
    ensures var r' := Receive(r, p.frame);
            Counters(s, r') && Counters(r', s) && Delivery(s, r')
  {
    hide Receive, InReach;
    ReceiveCases(s, r, p, f);
    var r' := Receive(r, p.frame);
    if r'.received != r.received {
      FreedKeepsCounters(r, s, p.ack, r');
      assert s.accepted[..f + 1] == s.accepted[..f] + [s.accepted[f]];
    } else {
      FreedKeepsCounters(r, s, r.released, r');
    }
  }

  lemma FreedKeepsCounters(r: End, s: End, ack: nat, r': End)
    requires Counters(r, s) && r.released <= ack <= s.received
    requires r'.unacked == r.unacked[ack - r.released..] && r'.released == ack && r'.lastacked == Wrap(ack)
    requires r'.accepted == r.accepted && r'.outmsg == r.outmsg
    ensures Counters(r', s)
  {
    forall i | 0 <= i < |r'.unacked| ensures Matches(r'.unacked[i], r'.released + i, r'.accepted) {
      assert Matches(r.unacked[ack - r.released + i], r.released + (ack - r.released + i), r.accepted);
    }
  }

  lemma ReadCurKeepsReceiving(s: End, r: End, d: Dir, us: bool, f: nat, g: nat, h: nat, mid: nat)
    requires Counters(s, r) && Counters(r, s) && Delivery(s, r) && r.reading && d.cur != []
    requires Numbered(s, r, d, us, true, f, g, h, mid)
    ensures var r' := Receive(r, d.cur[0].frame);
            Counters(r', s) && r'.received >= r.received && r'.accepted == r.accepted &&
                DirInv(s, r', d.(cur := d.cur[1..]), us, true)
  {
    var p := d.cur[0];
    var r' := Receive(r, p.frame);
    ReadKeepsCounters(s, r, p, f);
    ReceiveCases(s, r, p, f);
    var f' := if p.seqno < 0 then f else f + 1;
    FlowBounds(d.cur[1..], f', |s.accepted|, s.accepted, p.ack, s.received);
    assert Numbered(s, r', d.(cur := d.cur[1..]), us, true, f', 0, 0, p.ack);
  }

  lemma ReadStaleKeepsReceiving(s: End, r: End, d: Dir, us: bool, f: nat, g: nat, h: nat, mid: nat)
    requires Counters(s, r) && Counters(r, s) && Delivery(s, r) && r.reading && d.stale != []
    requires Numbered(s, r, d, us, false, f, g, h, mid)
    ensures var r' := Receive(r, d.stale[0].frame);
            Counters(r', s) && r'.received >= r.received && r'.accepted == r.accepted &&
                DirInv(s, r', d.(stale := d.stale[1..]), us, false)
  {
    var p := d.stale[0];
    var r' := Receive(r, p.frame);
    FlowBounds(d.stale, g, h, s.accepted, r.released, mid);
    ReadKeepsCounters(s, r, p, g);
    ReceiveCases(s, r, p, g);
    var g' := if p.seqno < 0 then g else g + 1;
    FlowBounds(d.stale[1..], g', h, s.accepted, p.ack, mid);
    FlowWiden(d.stale[1..], g', h, s.accepted, p.ack, mid, s.accepted, r'.released, mid);
    assert Numbered(s, r', d.(stale := d.stale[1..]), us, false, f, g', h, mid);
  }

  /** Reading a frame keeps the direction it came from. */
  lemma ReadKeepsReceiving(s: End, r: End, d: Dir, us: bool, ur: bool)
    requires DirInv(s, r, d, us, ur) && Counters(r, s) && r.reading && Readable(d, ur) != []
    ensures var r' := Receive(r, Readable(d, ur)[0].frame);
            && Counters(r', s)
            && r'.received >= r.received && r'.accepted == r.accepted
            && DirInv(s, r', if ur then d.(cur := d.cur[1..]) else d.(stale := d.stale[1..]), us, ur)
  {
    var f, g, h, mid :| Numbered(s, r, d, us, ur, f, g, h, mid);
    if ur {
      ReadCurKeepsReceiving(s, r, d, us, f, g, h, mid);
    } else {
      ReadStaleKeepsReceiving(s, r, d, us, f, g, h, mid);
    }
  }

  /** ... and the direction in which the reader itself sends. */
  lemma ReadKeepsSending(s: End, s': End, r: End, d: Dir, us: bool, ur: bool)
    requires DirInv(s, r, d, us, ur) && Counters(s', r)
    requires s'.accepted == s.accepted && s'.received >= s.received
    ensures DirInv(s', r, d, us, ur)
  {
    var f, g, h, mid :| Numbered(s, r, d, us, ur, f, g, h, mid);
    if us {
      FlowWiden(d.cur, f, |s.accepted|, s.accepted, mid, s.received, s.accepted, mid, s'.received);
    }
    assert Numbered(s', r, d, us, ur, f, g, h, mid);
  }

  lemma PipeErrorKeepsSending(s: End, r: End, d: Dir, us: bool, ur: bool)
    requires DirInv(s, r, d, us, ur)
    ensures DirInv(s.(pipeOpen := false), r, d, us, ur)
  {
    ReadKeepsSending(s, s.(pipeOpen := false), r, d, us, ur);
  }

  /** A receiver whose receiving side did not change keeps its direction. */
  lemma ReceiverUnchanged(s: End, r: End, r': End, d: Dir, us: bool, ur: bool)
    requires DirInv(s, r, d, us, ur)
    requires r'.inmsg == r.inmsg && r'.received == r.received && r'.released == r.released
    requires r'.reading == r.reading && r'.eof == r.eof && r'.delivered == r.delivered
    ensures DirInv(s, r', d, us, ur)
  {
    var f, g, h, mid :| Numbered(s, r, d, us, ur, f, g, h, mid);
    assert Numbered(s, r', d, us, ur, f, g, h, mid);
  }

  // --- every step and every run ----------------------------------------------

  lemma {:induction false} StepKeepsInv(n: Net, act: Action)
    requires Inv(n) && Enabled(n, act)
    ensures Inv(Step(n, act))
    decreases act
  {
    hide Numbered;
    hide Counters;
    hide Delivery;
    hide Receive;
    match act
    case Write(chunk, wrote) =>
      WriteKeepsSending(n.a, n.b, n.ab, n.upA, n.upB, chunk, wrote);
      ReceiverUnchanged(n.b, n.a, Accept(n.a, chunk, wrote), n.ba, n.upB, n.upA);
    case PipeError =>
      PipeErrorKeepsSending(n.a, n.b, n.ab, n.upA, n.upB);
      ReceiverUnchanged(n.b, n.a, n.a.(pipeOpen := false), n.ba, n.upB, n.upA);
    case Sync =>
      SyncKeepsSending(n.a, n.b, n.ab, n.upA, n.upB);
    case Read =>
      ReadKeepsReceiving(n.b, n.a, n.ba, n.upB, n.upA);
      ReadKeepsSending(n.a, Step(n, act).a, n.b, n.ab, n.upA, n.upB);
    case Redial =>
      RedialKeepsSending(n.a, n.b, n.ab, n.upB);
      RedialKeepsReceiving(n.b, n.a, n.ba, n.upB);
    case Cut(k, l) =>
      CutKeeps(n.a, n.b, n.ab, n.upA, n.upB, k);
      CutKeeps(n.b, n.a, n.ba, n.upB, n.upA, l);
    case Peer(b) =>
      StepKeepsInv(Mirror(n), b);
  }

  lemma InitialInv()
    ensures Inv(InitialNet)
  {
    assert Numbered(FreshEnd, FreshEnd, Dir([], []), false, false, 0, 0, 0, 0);
  }

  lemma {:induction false} RunKeepsInv(n: Net, run: seq<Action>)
    requires Inv(n) && IsRun(n, run)
    ensures Inv(After(n, run))
    decreases run
  {
    if run != [] {
      StepKeepsInv(n, run[0]);
      RunKeepsInv(Step(n, run[0]), run[1..]);
    }
  }

  /** Exactly once and in order: in every run, what each end has written to its
      pipe is a prefix of what the other end has read from its own, and an end
      of file is written only after everything read before it. */
  lemma DeliveredIsPrefix(run: seq<Action>)
    requires IsRun(InitialNet, run)
    ensures var n := After(InitialNet, run);
            && n.b.delivered <= n.a.accepted
            && n.a.delivered <= n.b.accepted
            && (n.b.eof ==> |n.b.delivered| < |n.a.accepted| && n.a.accepted[|n.b.delivered|] == [])
            && (n.a.eof ==> |n.a.delivered| < |n.b.accepted| && n.b.accepted[|n.a.delivered|] == [])
  {
    InitialInv();
    RunKeepsInv(InitialNet, run);
  }

  /** Nothing is lost: whenever both ends share a connection that carries nothing
      more towards an end that still reads, that end has delivered everything the
      other accepted -- if and only if it does not wait for a close message
      whose number is 2^32-1. */
  lemma QuietMeansDelivered(run: seq<Action>)
    requires IsRun(InitialNet, run)
    ensures var n := After(InitialNet, run);
            n.upA && n.upB && n.ab.cur == [] && n.b.reading ==>
              (n.b.delivered == n.a.accepted <==> !Stuck(n.a.accepted, n.b.received))
  {
    InitialInv();
    RunKeepsInv(InitialNet, run);
    var n := After(InitialNet, run);
    if n.upA && n.upB && n.ab.cur == [] && n.b.reading {
      var f, g, h, mid :| Numbered(n.a, n.b, n.ab, true, true, f, g, h, mid);
      assert f == |n.a.accepted|;
    }
  }

  /** An end that has left its loop has passed the end of file on, unless it has closed its
      own pipe. */
  predicate PassedOn(e: End) { e.reading || e.eof || !e.pipeOpen }

  lemma {:induction false} StepPassesOn(n: Net, act: Action)
    requires Enabled(n, act) && PassedOn(n.a) && PassedOn(n.b)
    ensures PassedOn(Step(n, act).a) && PassedOn(Step(n, act).b)
    decreases act
  {
    hide Release, Resent, SignedDiff;
    if act.Peer? {
      StepPassesOn(Mirror(n), act.act);
    }
  }

  lemma {:induction false} RunPassesOn(n: Net, run: seq<Action>)
    requires IsRun(n, run) && PassedOn(n.a) && PassedOn(n.b)
    ensures PassedOn(After(n, run).a) && PassedOn(After(n, run).b)
    decreases run
  {
    hide Step, Enabled, PassedOn;
    if run != [] {
      StepPassesOn(n, run[0]);
      RunPassesOn(Step(n, run[0]), run[1..]);
    }
  }

  /** The close is not lost either: whenever both ends share a connection that carries
      nothing more towards an end whose pipe is open, and the other end has read an end of
      file, as its chunk number k, this end has passed on all before it and then the end of
      file -- unless it waits for a close message whose number is 2^32-1. */
  lemma QuietMeansClosed(run: seq<Action>, k: nat)
    requires IsRun(InitialNet, run)
    requires var n := After(InitialNet, run);
             && n.upA && n.upB && n.ab.cur == [] && n.b.pipeOpen
             && k < |n.a.accepted| && n.a.accepted[k] == [] && forall i :: 0 <= i < k ==> n.a.accepted[i] != []
    ensures var n := After(InitialNet, run);
            (n.b.eof && n.b.delivered == n.a.accepted[..k]) <==> !(n.b.reading && Stuck(n.a.accepted, n.b.received))
  {
    hide Step, Enabled, Numbered;
    InitialInv();
    RunKeepsInv(InitialNet, run);
    RunPassesOn(InitialNet, run);
    QuietMeansDelivered(run);
    var n := After(InitialNet, run);
    assert Delivery(n.a, n.b);
    assert !(n.b.reading && n.b.delivered == n.a.accepted);
  }

  // --- what a run takes in -------------------------------------------------

  /** The steps that one of the ends takes in a run. */
  function Own(run: seq<Action>, peer: bool): seq<Action> {
    if run == [] then []
    else (if run[0].Peer? != peer then [] else if peer then [run[0].act] else [run[0]]) + Own(run[1..], peer)
  }

  /** The chunks its writer read from the pipe. */
  function Chunks(acts: seq<Action>): seq<Chunk> {
    if acts == [] then [] else (if acts[0].Write? then [acts[0].chunk] else []) + Chunks(acts[1..])
  }

  /** The writer ends by this step: the pipe fails, or its end of file was written. */
  predicate Shuts(act: Action) { act == PipeError || act == Write([], true) }

  /** e is what e0 becomes by the steps of its own, as far as its pipe goes. */
  predicate Took(e0: End, e: End, acts: seq<Action>) {
    && e.accepted == e0.accepted + Chunks(acts)
    && (e.pipeOpen <==> e0.pipeOpen && forall act :: act in acts ==> !Shuts(act))
  }

  lemma {:induction false} StepTakes(n: Net, act: Action)
    requires Enabled(n, act)
    ensures Took(n.a, Step(n, act).a, Own([act], false)) && Took(n.b, Step(n, act).b, Own([act], true))
    decreases act
  {
    hide Release, Resent, SignedDiff;
    assert [act][1..] == [];
    if act.Peer? {
      var b := act.act;
      StepTakes(Mirror(n), b);
      assert [b][1..] == [];
      assert Own([b], false) == [b] == Own([act], true);
      assert Own([b], true) == [] == Own([act], false);
    } else {
      assert Own([act], false) == [act] && Own([act], true) == [];
      assert act in [act];
      assert Chunks([act]) == if act.Write? then [act.chunk] else [];
    }
  }

  lemma {:induction false} TookOn(e0: End, e1: End, e2: End, acts: seq<Action>, more: seq<Action>)
    requires Took(e0, e1, acts) && Took(e1, e2, more)
    ensures Took(e0, e2, acts + more)
  {
    ChunksOn(acts, more);
  }

  lemma {:induction false} ChunksOn(acts: seq<Action>, more: seq<Action>)
    ensures Chunks(acts + more) == Chunks(acts) + Chunks(more)
  {
    if acts == [] {
      assert acts + more == more;
    } else {
      assert (acts + more)[1..] == acts[1..] + more;
      ChunksOn(acts[1..], more);
    }
  }

  /** In every run each end has accepted just the chunks its writer read, in their order,
      and its pipe is open until its writer ends. */
  lemma {:induction false} RunTakes(n: Net, run: seq<Action>)
    requires IsRun(n, run)
    ensures Took(n.a, After(n, run).a, Own(run, false)) && Took(n.b, After(n, run).b, Own(run, true))
    decreases run
  {
    hide Step, Enabled, Took;
    if run == [] {
      TookNothing(n.a);
      TookNothing(n.b);
    } else {
      var m, act, rest := Step(n, run[0]), run[0], run[1..];
      StepTakes(n, act);
      RunTakes(m, rest);
      assert [act][0] == act && [act][1..] == [];
      assert Own(run, false) == Own([act], false) + Own(rest, false);
      assert Own(run, true) == Own([act], true) + Own(rest, true);
      TookOn(n.a, m.a, After(n, run).a, Own([act], false), Own(rest, false));
      TookOn(n.b, m.b, After(n, run).b, Own([act], true), Own(rest, true));
    }
  }

  lemma TookNothing(e: End)
    ensures Took(e, e, [])
  {}

  /** The syncer puts one frame on a connection that is up, with the number that no message
      has, and whoever reads it goes on as before. */
  lemma SyncIgnored(n: Net, r: End)
    ensures var m := Step(n, Sync);
            && m.a == n.a && m.b == n.b && m.ba == n.ba && m.ab.stale == n.ab.stale
            && (!n.upA ==> m.ab.cur == n.ab.cur)
            && (n.upA ==> |m.ab.cur| == |n.ab.cur| + 1 && m.ab.cur[..|n.ab.cur|] == n.ab.cur
                          && m.ab.cur[|n.ab.cur|].frame.acked == n.a.inmsg && Receive(r, m.ab.cur[|n.ab.cur|].frame) == r)
  {
    hide Acknowledge;
  }

  /** A frame said to be longer than the buffer ends the reading; nothing of it is passed on. */
  lemma RefusesOversized(e: End, f: Frame)
    requires f.nb > BUFSIZE
    ensures var r := Receive(e, f);
            !r.reading && r.delivered == e.delivered && r.unacked == e.unacked && (e.pipeOpen ==> r.eof)
  {}

  /** No buffer is freed before the peer accepted its message: in every reachable
      state the buffers held are exactly the messages from number `released`
      on, and every message below it has been accepted by the peer. */
  lemma FreedOnlyWhenAccepted(run: seq<Action>)
    requires IsRun(InitialNet, run)
    ensures var n := After(InitialNet, run);
            && n.a.released <= n.b.received
            && |n.a.unacked| == |n.a.accepted| - n.a.released
            && forall i :: 0 <= i < |n.a.unacked| ==>
                 n.a.unacked[i].data == n.a.accepted[n.a.released + i]
  {
    InitialInv();
    RunKeepsInv(InitialNet, run);
    var n := After(InitialNet, run);
    forall i | 0 <= i < |n.a.unacked|
      ensures n.a.unacked[i].data == n.a.accepted[n.a.released + i]
    {
      assert Matches(n.a.unacked[i], n.a.released + i, n.a.accepted);
    }
  }

  /** The close message numbered 2^32-1 is taken for a sync frame: its reader
      does not change at all, so the end of file is never passed on. */
  lemma CloseTakenForSync(r: End, f: Frame)
    requires f.nb == 0
    ensures Receive(r, f) == r <==> f.msg == WORD - 1 || (!r.reading && (r.eof || !r.pipeOpen))
  {}
}
