/**
 The mutable parts of kern/devmnt.c behind the machine of module Mux: the tag
 allocator with its cache of request headers, and the request queue of a mount.
 */
module MntTags {
  import opened Bytes
  import opened Mux

  const NMASK := 2048    // (64*1024) >> TAGSHIFT
  const WORDBITS := 32   // 1 << TAGSHIFT
  const CACHE := 32

  /** A 32-bit word of tagmask, bit 0 first. */
  type Word = w: seq<bool> | |w| == WORDBITS witness seq(WORDBITS, i => false)

  predicate Member(free: seq<Tag>, t: Tag) { t in free }

  /** Whether tag t is marked taken in the mask. */
  predicate Bit(mask: seq<Word>, t: Tag)
    requires |mask| == NMASK && t <= NOTAG
  {
    mask[t / WORDBITS][t % WORDBITS]
  }

  lemma BitOf(mask: seq<Word>, i: nat, j: nat)
    requires |mask| == NMASK && i < NMASK && j < WORDBITS
    ensures i * WORDBITS + j <= NOTAG
    ensures Bit(mask, i * WORDBITS + j) == mask[i][j]
  {
    assert (i * WORDBITS + j) / WORDBITS == i && (i * WORDBITS + j) % WORDBITS == j;
  }

  lemma PutBit(mask: seq<Word>, t: Tag, b: bool, u: Tag)
    requires |mask| == NMASK && t <= NOTAG && u <= NOTAG
    ensures var i, j := t / WORDBITS, t % WORDBITS;
            Bit(mask[i := mask[i][j := b]], u) == if u == t then b else Bit(mask, u)
  {
    assert u == u / WORDBITS * WORDBITS + u % WORDBITS;
    assert t == t / WORDBITS * WORDBITS + t % WORDBITS;
  }

  lemma FullWord(mask: seq<Word>, i: nat)
    requires |mask| == NMASK && i < NMASK && forall k :: 0 <= k < WORDBITS ==> mask[i][k]
    requires forall u: Tag :: u < i * WORDBITS ==> Bit(mask, u)
    ensures forall u: Tag :: u < (i + 1) * WORDBITS ==> Bit(mask, u)
  {
    forall u: Tag | u < (i + 1) * WORDBITS ensures Bit(mask, u) {
      if u >= i * WORDBITS {
        BitOf(mask, i, u - i * WORDBITS);
      }
    }
  }

  class Mntalloc {
    const tagmask: array<Word>
    var rpcfree: seq<Tag>    // tags of the cached headers, most recent first
    ghost var live: set<Tag> // tags of the headers in use

    ghost predicate Valid()
      reads this, tagmask
    {
      && tagmask.Length == NMASK
      && |rpcfree| <= CACHE
      && Distinct(rpcfree)
      && (forall t: Tag :: t in live ==> 0 < t < NOTAG && !Member(rpcfree, t))
      && (forall t: Tag :: Member(rpcfree, t) ==> 0 < t < NOTAG)
      && (forall t: Tag :: t <= NOTAG ==>
            (Bit(tagmask[..], t) <==> t == 0 || t == NOTAG || t in live || Member(rpcfree, t)))
    }

    /** mntreset: 0 and NOTAG are taken from the start. */
    constructor ()
      ensures Valid() && live == {} && rpcfree == [] && fresh(tagmask)
    {
      tagmask := new Word[NMASK](i => seq(WORDBITS, j => false));
      rpcfree, live := [], {};
      new;
      Settag(0);
      Settag(NOTAG);
    }

    method Settag(t: Tag)
      requires tagmask.Length == NMASK && t <= NOTAG
      modifies tagmask
      ensures forall u: Tag :: u <= NOTAG ==> Bit(tagmask[..], u) == (u == t || old(Bit(tagmask[..], u)))
    {
      ghost var was := tagmask[..];
      tagmask[t / WORDBITS] := tagmask[t / WORDBITS][t % WORDBITS := true];
      forall u: Tag | u <= NOTAG ensures Bit(tagmask[..], u) == (u == t || Bit(was, u)) {
        PutBit(was, t, true, u);
      }
    }

    method Freetag(t: Tag)
      requires tagmask.Length == NMASK && t <= NOTAG
      modifies tagmask
      ensures forall u: Tag :: u <= NOTAG ==> Bit(tagmask[..], u) == (u != t && old(Bit(tagmask[..], u)))
    {
      ghost var was := tagmask[..];
      tagmask[t / WORDBITS] := tagmask[t / WORDBITS][t % WORDBITS := false];
      forall u: Tag | u <= NOTAG ensures Bit(tagmask[..], u) == (u != t && Bit(was, u)) {
        PutBit(was, t, false, u);
      }
    }

    /** The search of alloctag: the words are scanned in order, and the first clear
        bit of the first word that is not all ones is found. */
    method Findtag() returns (t: Option<Tag>)
      requires tagmask.Length == NMASK
      ensures t == None ==> forall u: Tag :: u <= NOTAG ==> Bit(tagmask[..], u)
      ensures t.Some? ==> t.value <= NOTAG && !Bit(tagmask[..], t.value)
      ensures t.Some? ==> forall u: Tag :: u < t.value / WORDBITS * WORDBITS ==> Bit(tagmask[..], u)
    {
      t := None;
      var i := 0;
      while i < NMASK && t == None
        invariant i <= NMASK
        invariant t == None ==> forall u: Tag :: u < i * WORDBITS ==> Bit(tagmask[..], u)
        invariant t.Some? ==> t.value <= NOTAG && !Bit(tagmask[..], t.value)
        invariant t.Some? ==> forall u: Tag :: u < t.value / WORDBITS * WORDBITS ==> Bit(tagmask[..], u)
        decreases if t == None then NMASK - i + 1 else 0
      {
        var v, j := tagmask[i], 0;
        while j < WORDBITS && v[j]
          invariant j <= WORDBITS && forall k :: 0 <= k < j ==> v[k]
        {
          j := j + 1;
        }
        if j < WORDBITS {
          BitOf(tagmask[..], i, j);
          assert (i * WORDBITS + j) / WORDBITS == i;
          t := Some(i * WORDBITS + j);
        } else {
          FullWord(tagmask[..], i);
          i := i + 1;
        }
      }
    }

    /** mntralloc: the header gets a tag no other header has, and it is never 0
        or NOTAG; it fails (the panic of alloctag) exactly when every tag is in use. */
    method Mntralloc() returns (t: Option<Tag>)
      requires Valid()
      modifies this, tagmask
      ensures Valid()
      ensures t.Some? ==> 0 < t.value < NOTAG && t.value !in old(live) && live == old(live) + {t.value}
      ensures t == None ==> live == old(live) && forall u: Tag :: 0 < u < NOTAG ==> u in live
    {
      if rpcfree == [] {
        t := Findtag();
        if t == None {
          forall u: Tag | 0 < u < NOTAG ensures u in live {
            assert Bit(tagmask[..], u);
          }
          return;
        }
        Settag(t.value);
      } else {
        t := Some(rpcfree[0]);
        ghost var was := rpcfree;
        rpcfree := rpcfree[1..];
        assert forall u: Tag :: Member(was, u) <==> u == t.value || Member(rpcfree, u);
        assert !Member(rpcfree, t.value);
      }
      live := live + {t.value};
    }

    /** mntfree: the header goes to the cache, or its tag is freed when the cache is full. */
    method Mntfree(t: Tag)
      requires Valid() && t in live
      modifies this, tagmask
      ensures Valid() && live == old(live) - {t}
    {
      live := live - {t};
      if |rpcfree| < CACHE {
        ghost var was := rpcfree;
        rpcfree := [t] + rpcfree;
        assert rpcfree[1..] == was;
        assert forall u: Tag :: Member(rpcfree, u) <==> u == t || Member(was, u);
      } else {
        Freetag(t);
      }
    }
  }
}

module MntQueue {
  import opened Bytes
  import opened Mux

  class Mntrpc {
    const tag: Tag
    var done: bool
    var reply: Reply
    var b: Option<Body>   // the receive buffer, into which the reply points
    var list: Mntrpc?

    constructor (tag: Tag)
      ensures this.tag == tag && !done && reply == NoReply && b == None && list == null
    {
      this.tag, done, reply, b, list := tag, false, NoReply, None, null;
    }
  }

  class Mnt {
    var queue: Mntrpc?
    ghost var items: seq<Mntrpc>
    ghost var tags: seq<Tag>

    ghost predicate Linked(from: Mntrpc?, l: seq<Mntrpc>)
      reads l`list
    {
      && from == (if l == [] then null else l[0])
      && (forall i {:trigger l[i].list} :: 0 <= i < |l| ==> l[i].list == if i + 1 < |l| then l[i + 1] else null)
    }

    ghost predicate Valid()
      reads `queue, `items, `tags, items`list
    {
      && Linked(queue, items)
      && |items| == |tags|
      && (forall i :: 0 <= i < |items| ==> items[i].tag == tags[i])
      && Distinct(tags)
    }

    constructor ()
      ensures Valid() && items == []
    {
      queue, items, tags := null, [], [];
    }

    /** mountio puts a request at the head of the queue. */
    method Enqueue(r: Mntrpc)
      requires Valid() && r !in items && r.tag !in tags
      modifies this, r`list
      ensures Valid() && items == [r] + old(items) && tags == [r.tag] + old(tags)
    {
      r.list := queue;
      queue := r;
      items, tags := [r] + items, [r.tag] + tags;
      assert tags[1..] == old(tags);
    }

    /** mountmux, of the reply that r has read: the request with its tag is taken off the
        queue and marked done. If that is another one, it gets the reply and the buffer,
        and r is left without a buffer; every other request is untouched. */
    method Mountmux(r: Mntrpc) returns (q: Mntrpc?)
      requires Valid() && r.reply.Answer?
      modifies this, items, r
      ensures Valid() && tags == Without(old(tags), old(r.reply.tag))
      ensures q == null <==> old(r.reply.tag) !in old(tags)
      ensures q != null ==> && q in old(items) && q.tag == old(r.reply.tag) && q.done
                            && q.reply == old(r.reply) && q.b == old(r.b)
      ensures q != r ==> && r.reply == old(r.reply) && r.done == old(r.done)
                         && r.b == if q == null then old(r.b) else None
      ensures forall x :: x in old(items) && x != q ==> x.done == old(x.done) && x.reply == old(x.reply)
      ensures forall x :: x in old(items) && x != q && x != r ==> x.b == old(x.b)
    {
      q := Unlink(r.reply.tag);
      if q == null {
        return;
      }
      if q != r {
        q.reply, q.b := r.reply, r.b;
        r.b := None;
      }
      q.done := true;
    }

    /** The search for a request and its removal, with the pointer to the link
        that leads to it kept as the element before it. */
    method Unlink(tag: Tag) returns (q: Mntrpc?)
      requires Valid()
      modifies `queue, `items, `tags, items`list
      ensures Valid() && tags == Without(old(tags), tag)
      ensures q == null <==> tag !in old(tags)
      ensures q != null ==> q in old(items) && q.tag == tag
    {
      var prev: Mntrpc? := null;
      q := queue;
      ghost var k := 0;
      while q != null && q.tag != tag
        invariant 0 <= k <= |items|
        invariant q == if k < |items| then items[k] else null
        invariant prev == if k == 0 then null else items[k - 1]
        invariant tag !in tags[..k]
        decreases |items| - k
      {
        prev, q, k := q, q.list, k + 1;
      }
      if q == null {
        WithoutAbsent(tags, tag);
      } else {
        WithoutAt(tags, k);
        WithoutRemoves(tags, tag);
        RemoveAt(prev, q, k);
      }
    }

    method RemoveAt(prev: Mntrpc?, q: Mntrpc, ghost k: nat)
      requires Valid() && k < |items| && q == items[k] && Distinct(tags[..k] + tags[k + 1..])
      requires prev == if k == 0 then null else items[k - 1]
      modifies `queue, `items, `tags, items`list
      ensures Valid() && tags == old(tags)[..k] + old(tags)[k + 1..]
    {
      DistinctItems();
      if prev == null {
        queue := q.list;
      } else {
        prev.list := q.list;
      }
      items, tags := items[..k] + items[k + 1..], tags[..k] + tags[k + 1..];
    }

    lemma DistinctItems()
      requires Valid()
      ensures forall i, j :: 0 <= i < j < |items| ==> items[i] != items[j]
    {
      DistinctIndices(tags);
    }
  }

  lemma {:induction false} DistinctIndices(q: seq<Tag>)
    requires Distinct(q)
    ensures forall i, j :: 0 <= i < j < |q| ==> q[i] != q[j]
  {
    if q != [] {
      DistinctIndices(q[1..]);
      forall i, j | 0 <= i < j < |q| ensures q[i] != q[j] {
        assert q[j] == q[1..][j - 1];
        assert i > 0 ==> q[i] == q[1..][i - 1];
      }
    }
  }

  lemma {:induction false} WithoutAbsent(q: seq<Tag>, t: Tag)
    requires t !in q
    ensures Without(q, t) == q
  {
    if q != [] {
      WithoutAbsent(q[1..], t);
    }
  }

  lemma {:induction false} WithoutAt(q: seq<Tag>, k: nat)
    requires k < |q| && q[k] !in q[..k]
    ensures Without(q, q[k]) == q[..k] + q[k + 1..]
  {
    if k > 0 {
      assert q[1..][k - 1] == q[k] && q[1..][..k - 1] == q[..k][1..];
      assert q[0] == q[..k][0];
      WithoutAt(q[1..], k - 1);
      assert q[1..][k..] == q[k + 1..];
    }
  }
}
