/**
 The byte queues of kern/qio.c. The value of a queue is the list of the data of
 its blocks. What a read takes and leaves is given by the functions TakeBlock and
 TakeRead, the methods of Queue are proved to have that effect on the linked list,
 and the laws of a first-in first-out stream are proved of whole runs.
 */
module QueueSpec {
  import opened Bytes

  const MAXATOMIC := 64 * 1024

  /** The bytes a read returns and the strings it leaves in the queue. */
  datatype Taken = Taken(out: seq<byte>, rest: seq<seq<byte>>)

  /** Cuts got, the data of the blocks taken off the queue, to n bytes. The excess
      goes back to the queue, unless the queue keeps messages apart. */
  function Cutoff(got: seq<byte>, rest: seq<seq<byte>>, n: nat, msg: bool): Taken {
    if |got| <= n then Taken(got, rest)
    else Taken(got[..n], if msg then rest else [got[n..]] + rest)
  }

  /** qbread takes one block. */
  function TakeBlock(data: seq<seq<byte>>, n: nat, msg: bool): Taken
    requires data != []
  {
    Cutoff(data[0], data[1..], n, msg)
  }

  /** A coalescing read drops empty blocks and goes on until it has n bytes. */
  function SkipEmpty(data: seq<seq<byte>>): seq<seq<byte>> {
    if data == [] || data[0] != [] then data else SkipEmpty(data[1..])
  }

  function Reach(data: seq<seq<byte>>, n: nat): (k: nat)
    requires data != []
    ensures 1 <= k <= |data|
  {
    if |data| == 1 || |data[0]| >= n then 1 else 1 + Reach(data[1..], n - |data[0]|)
  }

  function TakeRead(data: seq<seq<byte>>, n: nat, msg: bool, coalesce: bool): Taken
    requires data != []
  {
    var k := if coalesce then Reach(data, n) else 1;
    Cutoff(Flat(data[..k]), data[k..], n, msg)
  }

  /** qwrite cuts its input; a message queue gets the first piece only. */
  function Pieces(p: seq<byte>, msg: bool): seq<seq<byte>>
    decreases |p|
  {
    if |p| <= MAXATOMIC then [p]
    else if msg then [p[..MAXATOMIC]]
    else [p[..MAXATOMIC]] + Pieces(p[MAXATOMIC..], msg)
  }

  /** The pieces of a write to a stream are full but for the last, which is empty only if the
      write is. Of a message just what goes in one piece is written. */
  lemma {:induction false} PiecesFlat(p: seq<byte>)
    ensures var s := Pieces(p, false);
            && Flat(s) == p && s != [] && |s[|s| - 1]| <= MAXATOMIC && (p != [] ==> s[|s| - 1] != [])
            && forall i :: 0 <= i < |s| - 1 ==> |s[i]| == MAXATOMIC
    ensures Pieces(p, true) == [Prefix(p, MAXATOMIC)]
    decreases |p|
  {
    if |p| <= MAXATOMIC {
      FlatOne(p);
    } else {
      PiecesFlat(p[MAXATOMIC..]);
      FlatCons(p[..MAXATOMIC], Pieces(p[MAXATOMIC..], false));
    }
  }

  lemma CutoffFlat(got: seq<byte>, rest: seq<seq<byte>>, n: nat)
    ensures var t := Cutoff(got, rest, n, false);
            t.out + Flat(t.rest) == got + Flat(rest) && |t.out| <= n
  {
    if |got| > n {
      FlatCons(got[n..], rest);
      assert got == got[..n] + got[n..];
    }
  }

  /** A read on a stream takes the first bytes of the queue and leaves the rest. */
  lemma TakeReadFlat(data: seq<seq<byte>>, n: nat, coalesce: bool)
    requires data != []
    ensures var t := TakeRead(data, n, false, coalesce);
            t.out + Flat(t.rest) == Flat(data) && |t.out| <= n
  {
    var k := if coalesce then Reach(data, n) else 1;
    assert data == data[..k] + data[k..];
    FlatConcat(data[..k], data[k..]);
    CutoffFlat(Flat(data[..k]), data[k..], n);
  }

  lemma TakeBlockFlat(data: seq<seq<byte>>, n: nat)
    requires data != []
    ensures var t := TakeBlock(data, n, false);
            t.out + Flat(t.rest) == Flat(data) && |t.out| <= n
  {
    CutoffFlat(data[0], data[1..], n);
  }

  lemma {:induction false} SkipEmptyFlat(data: seq<seq<byte>>)
    ensures Flat(SkipEmpty(data)) == Flat(data)
    ensures SkipEmpty(data) == [] <==> Flat(data) == []
  {
    if data != [] && data[0] == [] {
      SkipEmptyFlat(data[1..]);
    }
  }

  /** The blocks before the last one taken hold fewer than n bytes, and unless the
      queue runs out, those taken hold n. */
  lemma {:induction false} ReachFills(data: seq<seq<byte>>, n: nat)
    requires data != []
    ensures var k := Reach(data, n);
            && (k > 1 ==> |Flat(data[..k - 1])| < n)
            && (k < |data| ==> |Flat(data[..k])| >= n)
  {
    var k := Reach(data, n);
    FlatOne(data[0]);
    assert data[..1] == [data[0]];
    if k > 1 {
      ReachFills(data[1..], n - |data[0]|);
      assert data[..k - 1] == [data[0]] + data[1..][..k - 2];
      assert data[..k] == [data[0]] + data[1..][..k - 1];
      FlatCons(data[0], data[1..][..k - 2]);
      FlatCons(data[0], data[1..][..k - 1]);
    }
  }

  /** A coalescing read returns as much as it was asked for, or everything. */
  lemma CoalescedReadFills(data: seq<seq<byte>>, n: nat)
    requires data != []
    ensures |TakeRead(data, n, false, true).out| == if n <= |Flat(data)| then n else |Flat(data)|
  {
    hide Reach, Flat;
    ReachFills(data, n);
    TakeReadFlat(data, n, true);
    var k := Reach(data, n);
    if k == |data| {
      assert data[..k] == data;
    }
    assert data == data[..k] + data[k..];
    FlatConcat(data[..k], data[k..]);
  }

  /** A read that does not coalesce, and qbread, take one block: as much of it as was asked
      for comes out, and what is over stays in front, or is lost on a message queue. */
  lemma OneBlockARead(data: seq<seq<byte>>, n: nat, msg: bool)
    requires data != []
    ensures TakeRead(data, n, msg, false) == TakeBlock(data, n, msg)
    ensures var t, x := TakeBlock(data, n, msg), data[0];
            && (|x| <= n ==> t.out == x && t.rest == data[1..])
            && (|x| > n ==> |t.out| == n && t.out <= x && (msg ==> t.rest == data[1..])
                            && (!msg ==> |t.rest| == |data| && t.out + t.rest[0] == x && t.rest[1..] == data[1..]))
  {
    assert data[..1] == [data[0]];
    FlatOne(data[0]);
    if |data[0]| > n {
      assert data[0] == data[0][..n] + data[0][n..];
    }
  }

  /** A coalescing read of messages puts together the first of them, as many as it takes to
      have n bytes, and loses what is over. */
  lemma CoalescedMessages(data: seq<seq<byte>>, n: nat)
    requires data != []
    ensures var t, k := TakeRead(data, n, true, true), |data| - |TakeRead(data, n, true, true).rest|;
            && 1 <= k <= |data| && t.rest == data[k..] && t.out == Prefix(Flat(data[..k]), n)
            && (k > 1 ==> |Flat(data[..k - 1])| < n) && (k < |data| ==> |Flat(data[..k])| >= n)
  {
    hide Reach, Flat;
    ReachFills(data, n);
  }

  /** Leading empty blocks are what a coalescing read drops first. */
  lemma {:induction false} SkipsLeading(data: seq<seq<byte>>)
    ensures var k := |data| - |SkipEmpty(data)|;
            && 0 <= k <= |data| && SkipEmpty(data) == data[k..] && (forall i :: 0 <= i < k ==> data[i] == [])
            && (k < |data| ==> data[k] != [])
  {
    if data != [] && data[0] == [] {
      SkipsLeading(data[1..]);
      var k := |data| - |SkipEmpty(data)|;
      forall i | 0 <= i < k ensures data[i] == [] {
        assert i > 0 ==> data[i] == data[1..][i - 1];
      }
    }
  }

  /** The queue as its users see it. Writes after a close fail; qhangup closes the
      queue and keeps what it holds, qclose drops it. */
  datatype Fifo = Fifo(data: seq<seq<byte>>, closed: bool)

  datatype Op =
    | Write(p: seq<byte>, kept: nat)
    | Bwrite(blocks: seq<seq<byte>>, full: bool)
    | Bread(n: nat)
    | Read(n: nat)
    | Hangup
    | Close

  datatype Flags = Flags(msg: bool, coalesce: bool)

  /** What a write puts in the queue. A queue that drops what is over its limit
      (noblock) can take only the first pieces of a qwrite, or nothing of a qbwrite. */
  function Accepted(q: Fifo, op: Op, f: Flags): seq<seq<byte>> {
    if q.closed then [] else
    match op
    case Write(p, kept) => var s := Pieces(p, f.msg); if kept < |s| then s[..kept] else s
    case Bwrite(b, full) => if full then [] else b
    case _ => []
  }

  /** A read that finds nothing to return sleeps, or reports the close; either way
      it returns no bytes. */
  function Step(q: Fifo, op: Op, f: Flags): (Fifo, Option<seq<byte>>) {
    match op
    case Write(_, _) => (q.(data := q.data + Accepted(q, op, f)), None)
    case Bwrite(_, _) => (q.(data := q.data + Accepted(q, op, f)), None)
    case Bread(n) =>
      if q.data == [] then (q, None)
      else var t := TakeBlock(q.data, n, f.msg); (q.(data := t.rest), Some(t.out))
    case Read(n) =>
      var data := if f.coalesce then SkipEmpty(q.data) else q.data;
      if data == [] then (q.(data := []), None)
      else var t := TakeRead(data, n, f.msg, f.coalesce); (q.(data := t.rest), Some(t.out))
    case Hangup => (q.(closed := true), None)
    case Close => (Fifo([], true), None)
  }

  function After(q: Fifo, ops: seq<Op>, f: Flags): Fifo
    decreases |ops|
  {
    if ops == [] then q else Step(After(q, ops[..|ops| - 1], f), ops[|ops| - 1], f).0
  }

  /** The results of the reads of a run, in order. */
  function Reads(q: Fifo, ops: seq<Op>, f: Flags): seq<seq<byte>>
    decreases |ops|
  {
    if ops == [] then [] else
    var prior, op := ops[..|ops| - 1], ops[|ops| - 1];
    var r := Step(After(q, prior, f), op, f).1;
    Reads(q, prior, f) + Out(r)
  }

  /** What the accepted writes of a run put in the queue. */
  function Written(q: Fifo, ops: seq<Op>, f: Flags): seq<seq<byte>>
    decreases |ops|
  {
    if ops == [] then [] else
    var prior, op := ops[..|ops| - 1], ops[|ops| - 1];
    Written(q, prior, f) + Accepted(After(q, prior, f), op, f)
  }

  function Prefix(s: seq<byte>, n: nat): seq<byte> { if |s| <= n then s else s[..n] }

  /** A stream is first-in first-out over every run: the bytes read so far are a
      prefix of those written, and until a qclose the rest is in the queue. */
  lemma {:induction false} StreamIsFifo(ops: seq<Op>, f: Flags)
    requires !f.msg
    ensures var q := After(Fifo([], false), ops, f);
            && Flat(Reads(Fifo([], false), ops, f)) <= Flat(Written(Fifo([], false), ops, f))
            && (Close !in ops ==>
                  Flat(Reads(Fifo([], false), ops, f)) + Flat(q.data) == Flat(Written(Fifo([], false), ops, f)))
    decreases |ops|
  {
    StreamGeneral(Fifo([], false), ops, f);
  }

  lemma {:induction false} StreamGeneral(q0: Fifo, ops: seq<Op>, f: Flags)
    requires !f.msg && q0 == Fifo([], false)
    ensures var q, r, w := After(q0, ops, f), Flat(Reads(q0, ops, f)), Flat(Written(q0, ops, f));
            && r + Flat(q.data) <= w
            && (Close !in ops ==> r + Flat(q.data) == w)
            && (!q.closed ==> r + Flat(q.data) == w)
    decreases |ops|
  {
    if ops != [] {
      var prior, op := ops[..|ops| - 1], ops[|ops| - 1];
      assert ops == prior + [op];
      StreamGeneral(q0, prior, f);
      StreamStep(After(q0, prior, f), op, f, Reads(q0, prior, f), Written(q0, prior, f));
    }
  }

  function Out(r: Option<seq<byte>>): seq<seq<byte>> {
    if r.Some? then [r.value] else []
  }

  /** No operation of a stream but qclose loses, adds or reorders bytes. */
  lemma StreamOp(q: Fifo, op: Op, f: Flags)
    requires !f.msg && op != Close
    ensures var (q', r) := Step(q, op, f);
            Flat(Out(r)) + Flat(q'.data) == Flat(q.data) + Flat(Accepted(q, op, f))
  {
    var r := Step(q, op, f).1;
    if r.Some? {
      FlatOne(r.value);
    }
    match op
    case Write(_, _) =>
      FlatConcat(q.data, Accepted(q, op, f));
    case Bwrite(_, _) =>
      FlatConcat(q.data, Accepted(q, op, f));
    case Bread(n) =>
      if q.data != [] {
        TakeBlockFlat(q.data, n);
      }
    case Read(n) =>
      SkipEmptyFlat(q.data);
      var data := if f.coalesce then SkipEmpty(q.data) else q.data;
      if data != [] {
        TakeReadFlat(data, n, f.coalesce);
      }
    case Hangup =>
  }

  lemma StreamStep(q: Fifo, op: Op, f: Flags, got: seq<seq<byte>>, written: seq<seq<byte>>)
    requires !f.msg && Flat(got) + Flat(q.data) <= Flat(written)
    requires !q.closed ==> Flat(got) + Flat(q.data) == Flat(written)
    ensures var (q', r) := Step(q, op, f);
            var out := Flat(got + Out(r)) + Flat(q'.data);
            var w := Flat(written + Accepted(q, op, f));
            && out <= w
            && (op != Close && Flat(got) + Flat(q.data) == Flat(written) ==> out == w)
            && (!q'.closed ==> out == w)
  {
    var (q', r) := Step(q, op, f);
    var more := Accepted(q, op, f);
    FlatConcat(got, Out(r));
    FlatConcat(written, more);
    StepClosed(q, op, f);
    if op == Close {
      assert Flat(q'.data) == [] && Flat(Out(r)) == [] && Flat(more) == [];
    } else {
      StreamOp(q, op, f);
      Regroup(Flat(got), Flat(Out(r)), Flat(q'.data), Flat(q.data), Flat(more), Flat(written));
    }
  }

  lemma Regroup(g: seq<byte>, o: seq<byte>, rest: seq<byte>, held: seq<byte>, more: seq<byte>, w: seq<byte>)
    requires o + rest == held + more && g + held <= w
    requires more == [] || g + held == w
    ensures g + o + rest <= w + more
    ensures g + held == w ==> g + o + rest == w + more
  {
    assert g + o + rest == g + (o + rest) == g + held + more;
  }

  lemma StepClosed(q: Fifo, op: Op, f: Flags)
    ensures q.closed ==> Flat(Accepted(q, op, f)) == [] && Step(q, op, f).0.closed
  {}

  /** The lengths asked for by the reads of a run that returned data. */
  function Asked(q: Fifo, ops: seq<Op>, f: Flags): seq<nat>
    decreases |ops|
  {
    if ops == [] then [] else
    var prior, op := ops[..|ops| - 1], ops[|ops| - 1];
    var r := Step(After(q, prior, f), op, f).1;
    Asked(q, prior, f) + if r.None? then [] else [op.n]
  }

  /** A message queue keeps messages apart over every run: the reads return, one
      each and in order, the messages written, cut to the length asked for. */
  lemma {:induction false} OneMessageARead(ops: seq<Op>, f: Flags)
    requires f.msg && !f.coalesce
    ensures var q0 := Fifo([], false);
            var got, asked, written := Reads(q0, ops, f), Asked(q0, ops, f), Written(q0, ops, f);
            && |got| == |asked| <= |written|
            && (forall i :: 0 <= i < |got| ==> got[i] == Prefix(written[i], asked[i]))
            && (Close !in ops ==> After(q0, ops, f).data == written[|got|..])
    decreases |ops|
  {
    MessageGeneral(Fifo([], false), ops, f);
  }

  lemma {:induction false} MessageGeneral(q0: Fifo, ops: seq<Op>, f: Flags)
    requires f.msg && !f.coalesce && q0 == Fifo([], false)
    ensures var got, asked, written := Reads(q0, ops, f), Asked(q0, ops, f), Written(q0, ops, f);
            var q := After(q0, ops, f);
            && |got| == |asked| <= |written|
            && (forall i :: 0 <= i < |got| ==> got[i] == Prefix(written[i], asked[i]))
            && (q.data == written[|got|..] || (q.closed && q.data == [] && Close in ops))
    decreases |ops|
  {
    if ops != [] {
      var prior, op := ops[..|ops| - 1], ops[|ops| - 1];
      assert ops == prior + [op];
      MessageGeneral(q0, prior, f);
      MessageStep(After(q0, prior, f), op, f);
    }
  }

  /** A read takes exactly the first message, whole or cut. */
  lemma MessageStep(q: Fifo, op: Op, f: Flags)
    requires f.msg && !f.coalesce
    ensures var (q', r) := Step(q, op, f);
            && (r.Some? ==> q.data != [] && (op.Bread? || op.Read?) && Accepted(q, op, f) == [] &&
                            r.value == Prefix(q.data[0], op.n) && q'.data == q.data[1..])
            && (r.None? && op != Close ==> q'.data == q.data + Accepted(q, op, f))
            && (op == Close ==> Accepted(q, op, f) == [])
            && (q.closed ==> q'.closed && Accepted(q, op, f) == [])
  {
    if q.data != [] {
      FlatOne(q.data[0]);
      assert q.data[..1] == [q.data[0]];
    }
    assert q.data + [] == q.data;
  }
}
