/**
 The Client of aan.c as a mutable object: the list of unacknowledged buffers
 with its tail pointer, and the bodies of aanwriter, aanreader and reconnect.
 Each method is proved to act on the endpoint as the functions of module Aan do.
 */
module AanClient {
  import opened Bytes
  import opened Aan

  class Buf {
    const nb: Word
    const msg: Word
    var acked: Word
    const buf: Chunk
    var next: Buf?
    ghost const number: nat  // its place among all messages

    constructor (nb: Word, msg: Word, acked: Word, buf: Chunk, ghost number: nat)
      ensures Header() == Frame(nb, msg, acked, buf) && next == null && this.number == number
    {
      this.nb, this.msg, this.acked, this.buf, this.next := nb, msg, acked, buf, null;
      this.number := number;
    }

    function Header(): Frame
      reads this`acked
    {
      Frame(nb, msg, acked, buf)
    }
  }

  /** v is u with the acknowledgement of its first n frames renewed. */
  predicate Stamped(u: seq<Frame>, v: seq<Frame>, inmsg: Word, n: nat) {
    && |u| == |v|
    && forall i :: 0 <= i < |v| ==> v[i] == if i < n then u[i].(acked := inmsg) else u[i]
  }

  lemma StampNext(u: seq<Frame>, v: seq<Frame>, inmsg: Word, n: nat)
    requires Stamped(u, v, inmsg, n) && n < |u|
    ensures |v| == |u| && Stamped(u, v[n := v[n].(acked := inmsg)], inmsg, n + 1)
  {}

  lemma StampNone(u: seq<Frame>, inmsg: Word)
    ensures Stamped(u, u, inmsg, 0)
  {}

  lemma StampAll(u: seq<Frame>, v: seq<Frame>, inmsg: Word, n: nat)
    requires Stamped(u, v, inmsg, n)
    ensures Refresh(v, inmsg) == Refresh(u, inmsg) && |v| == |u|
    ensures forall i :: 0 <= i < |v| ==> v[i].msg == u[i].msg
    ensures n >= |u| ==> v == Refresh(u, inmsg)
    ensures forall k :: 0 <= k <= n && k <= |u| ==> v[..k] == Refresh(u, inmsg)[..k]
  {}

  /** The linked list from unackedhead to unackedtail. */
  class BufList {
    var head: Buf?
    var tail: Buf?  // the last buffer when the list is not empty
    ghost var list: seq<Buf>
    ghost var frames: seq<Frame>
    ghost var first: nat

    ghost predicate Valid()
      reads `head, `tail, `list, `frames, `first, list`next, list`acked
    {
      && |list| == |frames|
      && head == (if list == [] then null else list[0])
      && (list != [] ==> tail == list[|list| - 1])
      && (forall i :: 0 <= i < |list| ==> list[i].number == first + i)
      && (forall i :: 0 <= i < |list| ==> list[i].Header() == frames[i])
      && (forall i {:trigger list[i].next} :: 0 <= i < |list| ==>
            list[i].next == if i + 1 < |list| then list[i + 1] else null)
    }

    constructor ()
      ensures Valid() && list == [] && frames == [] && first == 0
    {
      head, tail, list, frames, first := null, null, [], [], 0;
    }

    method Append(b: Buf)
      requires Valid() && b.next == null && b.number == first + |frames| && b !in list
      modifies this`head, this`tail, this`list, this`frames, list`next
      ensures Valid() && list == old(list) + [b] && frames == old(frames) + [b.Header()]
    {
      if head == null {
        head := b;
      } else {
        tail.next := b;
      }
      tail := b;
      list, frames := list + [b], frames + [b.Header()];
    }

    method RemoveFirst() returns (x: Buf)
      requires Valid() && head != null
      modifies this`head, this`list, this`frames, this`first
      ensures Valid() && x.Header() == old(frames[0])
      ensures list == old(list)[1..] && frames == old(frames)[1..] && first == old(first) + 1
    {
      x := head;
      head := x.next;
      list, frames, first := list[1..], frames[1..], first + 1;
    }

    method Stamp(b: Buf, inmsg: Word, ghost i: nat)
      requires Valid() && i < |list| && b == list[i]
      modifies `frames, list`acked
      ensures Valid() && frames == old(frames)[i := old(frames)[i].(acked := inmsg)]
      ensures b.Header() == frames[i] && b.next == if i + 1 < |list| then list[i + 1] else null
    {
      b.acked := inmsg;
      frames := frames[i := frames[i].(acked := inmsg)];
    }

    lemma HeadIs()
      requires Valid()
      ensures |list| == |frames| && head == if list == [] then null else list[0]
    {}

    /** Stamps the buffers with the acknowledgement and writes them, up to the
        write that fails; n buffers were written. */
    method Write(inmsg: Word, fails: bool, after: nat) returns (net: seq<Frame>, n: nat)
      requires Valid() && (fails ==> after < |list|)
      modifies `frames, list`acked
      ensures Valid() && |frames| == |old(frames)| && n == (if fails then after else |frames|)
      ensures Stamped(old(frames), frames, inmsg, if fails then n + 1 else n)
      ensures |net| == n && forall j :: 0 <= j < n ==> net[j] == frames[j]
    {
      hide Valid, Stamped;
      ghost var was := frames;
      var b := head;
      net, n := [], 0;
      StampNone(was, inmsg);
      HeadIs();
      while b != null
        invariant n <= |list| == |was| == |frames| && Valid()
        invariant fails ==> n <= after
        invariant b == if n < |list| then list[n] else null
        invariant Stamped(was, frames, inmsg, n)
        invariant |net| == n && forall j :: 0 <= j < n ==> net[j] == frames[j]
        decreases |list| - n
      {
        StampNext(was, frames, inmsg, n);
        Stamp(b, inmsg, n);
        if fails && n == after {
          return;
        }
        net := net + [b.Header()];
        b, n := b.next, n + 1;
      }
    }
  }

  /** The message numbers of u count up from first; next is the one after them. */
  predicate Consecutive(u: seq<Frame>, first: Word, next: Word) {
    if u == [] then first == next else u[0].msg == first && Consecutive(u[1..], Next(first), next)
  }

  lemma {:induction false} ConsecutiveAppend(u: seq<Frame>, first: Word, next: Word, f: Frame)
    requires Consecutive(u, first, next) && f.msg == next
    ensures Consecutive(u + [f], first, Next(next))
  {
    if u != [] {
      ConsecutiveAppend(u[1..], Next(first), next, f);
      assert (u + [f])[1..] == u[1..] + [f];
    } else {
      assert (u + [f])[1..] == [];
    }
  }

  lemma {:induction false} ConsecutiveRefreshed(u: seq<Frame>, v: seq<Frame>, first: Word, next: Word)
    requires Consecutive(u, first, next) && |u| == |v|
    requires forall i :: 0 <= i < |u| ==> u[i].msg == v[i].msg
    ensures Consecutive(v, first, next)
  {
    if u != [] {
      ConsecutiveRefreshed(u[1..], v[1..], Next(first), next);
    }
  }

  class Client {
    var inmsg: Word
    var outmsg: Word
    var lastacked: Word      // local to aanreader
    const unacked: BufList
    var pipeOpen: bool       // pipefd >= 0
    var reading: bool        // aanreader has not left its loop for good
    var eof: bool            // an end of file was written to the pipe
    var pipe: seq<Chunk>     // chunks written to the pipe
    var net: seq<Frame>      // frames written to netfd since it was dialled

    ghost var accepted: seq<Chunk>
    ghost var received: nat

    ghost predicate Valid()
      reads `lastacked, `outmsg, `accepted
      reads unacked`head, unacked`tail, unacked`list, unacked`frames, unacked`first
      reads unacked.list`next, unacked.list`acked
    {
      && unacked.Valid()
      && |unacked.list| == |unacked.frames| < HALF
      && |accepted| == unacked.first + |unacked.frames|
      && Consecutive(unacked.frames, lastacked, outmsg)
    }

    ghost function View(): End
      reads this, unacked
    {
      End(inmsg, outmsg, lastacked, unacked.frames, pipeOpen, reading, eof, pipe, accepted, received, unacked.first)
    }

    constructor ()
      ensures Valid() && View() == FreshEnd && net == []
    {
      inmsg, outmsg, lastacked := 0, 0, 0;
      pipeOpen, reading, eof, pipe, net := true, true, false, [], [];
      accepted, received := [], 0;
      unacked := new BufList();
    }

    /** One turn of aanwriter.  canWrite says whether netfd is open and both of
        its writes succeed. */
    method Writer(chunk: Chunk, canWrite: bool)
      requires Valid() && |chunk| <= BUFSIZE && |unacked.frames| + 1 < HALF
      modifies this, unacked, unacked.list
      ensures Valid() && View() == Accept(old(View()), chunk, canWrite)
      ensures net == if canWrite then old(net) + [NewFrame(old(View()), chunk)] else old(net)
    {
      hide Valid;
      var b := Enqueue(chunk);
      if canWrite {
        net := net + [b.Header()];
        if chunk == [] {
          pipeOpen := false;
        }
      }
    }

    /** Numbers the chunk and puts it at the end of the unacked list. */
    method Enqueue(chunk: Chunk) returns (b: Buf)
      requires Valid() && |chunk| <= BUFSIZE && |unacked.frames| + 1 < HALF
      modifies this`outmsg, this`accepted, unacked, unacked.list
      ensures Valid() && View() == Accept(old(View()), chunk, false)
      ensures b.Header() == NewFrame(old(View()), chunk)
    {
      hide BufList.Valid;
      hide Consecutive;
      var m := outmsg;
      outmsg := Next(outmsg);
      b := new Buf(|chunk|, m, inmsg, chunk, |accepted|);
      ConsecutiveAppend(unacked.frames, lastacked, m, b.Header());
      unacked.Append(b);
      accepted := accepted + [chunk];
    }

    /** One frame arrives at aanreader. */
    method Reader(f: Frame)
      requires Valid()
      modifies this, unacked
      ensures Valid() && View() == Receive(old(View()), f) && net == old(net)
    {
      if f.nb == 0 {
        if f.msg != WORD - 1 {
          Close();
        }
      } else if f.nb >= HALF || f.nb > BUFSIZE {
        Close();
      } else if f.msg == inmsg {
        Take(f);
      }
    }

    method Take(f: Frame)
      requires Valid() && 0 < f.nb <= BUFSIZE && f.msg == inmsg
      modifies this, unacked
      ensures Valid() && View() == Receive(old(View()), f) && net == old(net)
    {
      hide Valid;
      hide BufList.Valid;
      hide Release;
      inmsg := Next(inmsg);
      received := received + 1;
      if SignedDiff(f.acked, lastacked) > 0 {
        FreeAcked(f.acked);
      }
      if pipeOpen {
        pipe := pipe + [f.data];
      } else {
        reading := false;
      }
    }

    method Close()
      requires Valid()
      modifies this`reading, this`eof
      ensures Valid() && View() == Hangup(old(View()))
    {
      hide Valid;
      reading := false;
      if pipeOpen {
        eof := true;
      }
    }

    /** The loop that frees acknowledged buffers; the assertion is the program's own. */
    method FreeAcked(a: Word)
      requires Valid()
      modifies this`lastacked, unacked
      ensures Valid()
      ensures (unacked.frames, lastacked) == Release(old(unacked.frames), old(lastacked), a)
      ensures unacked.first == old(unacked.first) + |old(unacked.frames)| - |unacked.frames|
    {
      while unacked.head != null
        invariant Valid()
        invariant Release(old(unacked.frames), old(lastacked), a) == Release(unacked.frames, lastacked, a)
        invariant unacked.first == old(unacked.first) + |old(unacked.frames)| - |unacked.frames|
        decreases |unacked.list|
      {
        var x := unacked.RemoveFirst();
        assert x.msg == lastacked;
        lastacked := Next(lastacked);
        if lastacked == a {
          return;
        }
      }
    }

    /** reconnect.  Attempt number i of `failing` gets failing[i] frames onto a
        fresh connection before a write fails; the attempt after them succeeds. */
    method Redial(failing: seq<nat>) returns (sent: seq<seq<Frame>>)
      requires Valid() && forall i :: 0 <= i < |failing| ==> failing[i] < |unacked.frames|
      modifies this`net, unacked`frames, unacked.list`acked
      ensures Valid() && View() == Reconnect(old(View())) && net == unacked.frames
      ensures |sent| == |failing|
      ensures forall i :: 0 <= i < |failing| ==> sent[i] == unacked.frames[..failing[i]]
    {
      hide BufList.Valid;
      hide Consecutive;
      sent := [];
      ghost var goal := Refresh(unacked.frames, inmsg);
      for i := 0 to |failing|
        invariant Valid() && |sent| == i && Refresh(unacked.frames, inmsg) == goal
        invariant forall j :: 0 <= j < i ==> sent[j] == goal[..failing[j]]
      {
        Resend(true, failing[i]);
        sent := sent + [net];
      }
      Resend(false, 0);
    }

    /** Writes the list to a new connection, up to the write that fails. */
    method Resend(fails: bool, after: nat)
      requires Valid() && (fails ==> after < |unacked.frames|)
      modifies this`net, unacked`frames, unacked.list`acked
      ensures Valid() && Refresh(unacked.frames, inmsg) == Refresh(old(unacked.frames), inmsg)
      ensures net == if fails then Refresh(unacked.frames, inmsg)[..after] else unacked.frames
      ensures !fails ==> unacked.frames == Refresh(unacked.frames, inmsg)
    {
      hide BufList.Valid;
      ghost var was := unacked.frames;
      var n: nat;
      net, n := unacked.Write(inmsg, fails, after);
      StampAll(was, unacked.frames, inmsg, if fails then n + 1 else n);
      ConsecutiveRefreshed(was, unacked.frames, lastacked, outmsg);
      assert net == unacked.frames[..n];
    }
  }
}
