/**
 The queue of processes inside a QLock (kern/qlock.c): a list through the qnext field
 of the processes, with pointers to its first and last. Module RwLock shows that a
 process is never queued twice, which is what the methods ask for.
 */
module QlockList {
  class Proc {
    var qnext: Proc?

    constructor ()
      ensures qnext == null
    {
      qnext := null;
    }
  }

  class QLock {
    var hold: Proc?
    var first: Proc?
    var last: Proc?
    ghost var waiting: seq<Proc>

    ghost predicate Valid()
      reads this, waiting`qnext
    {
      && first == (if waiting == [] then null else waiting[0])
      && last == (if waiting == [] then null else waiting[|waiting| - 1])
      && (forall i {:trigger waiting[i].qnext} :: 0 <= i < |waiting| ==>
            waiting[i].qnext == if i + 1 < |waiting| then waiting[i + 1] else null)
      && (forall i, j :: 0 <= i < j < |waiting| ==> waiting[i] != waiting[j])
    }

    constructor ()
      ensures Valid() && hold == null && waiting == []
    {
      hold, first, last, waiting := null, null, null, [];
    }

    method Queue(up: Proc)
      requires Valid() && up !in waiting
      modifies `first, `last, `waiting, up`qnext, waiting`qnext
      ensures Valid() && waiting == old(waiting) + [up]
    {
      var t := last;
      if t == null {
        first := up;
      } else {
        t.qnext := up;
      }
      last := up;
      up.qnext := null;
      waiting := waiting + [up];
    }

    method Dequeue() returns (t: Proc?)
      requires Valid()
      modifies `first, `last, `waiting
      ensures Valid()
      ensures t == null <==> old(waiting) == []
      ensures old(waiting) == if t == null then waiting else [t] + waiting
    {
      t := first;
      if t == null {
        return;
      }
      assert waiting[0].qnext == if 1 < |waiting| then waiting[1] else null;
      first := t.qnext;
      if first == null {
        last := null;
      }
      ghost var was := waiting;
      waiting := waiting[1..];
      forall i {:trigger waiting[i].qnext} | 0 <= i < |waiting|
        ensures waiting[i].qnext == if i + 1 < |waiting| then waiting[i + 1] else null
      {
        assert was[i + 1].qnext == if i + 2 < |was| then was[i + 2] else null;
      }
    }

    /** qlock, up to the sleep: takes a free lock, or joins the queue. */
    method Lock(up: Proc) returns (got: bool)
      requires Valid() && up !in waiting
      modifies this, up`qnext, waiting`qnext
      ensures Valid() && got == (old(hold) == null)
      ensures got ==> hold == up && waiting == old(waiting)
      ensures !got ==> hold == old(hold) && waiting == old(waiting) + [up]
    {
      if hold == null {
        hold := up;
        return true;
      }
      Queue(up);
      got := false;
    }

    method CanLock(up: Proc) returns (got: bool)
      requires Valid()
      modifies `hold
      ensures Valid() && got == (old(hold) == null)
      ensures hold == if got then up else old(hold)
    {
      got := hold == null;
      if got {
        hold := up;
      }
    }

    /** qunlock hands the lock to the first in the queue; p is to be woken. */
    method Unlock() returns (p: Proc?)
      requires Valid()
      modifies `hold, `first, `last, `waiting
      ensures Valid() && hold == p
      ensures p == null <==> old(waiting) == []
      ensures old(waiting) == if p == null then waiting else [p] + waiting
    {
      p := Dequeue();
      hold := p;
    }
  }
}
