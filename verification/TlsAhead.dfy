/**
 How far the record layer of kern/devtls.c reads ahead. The transport gives blocks as it
 likes; ensure reads no more of them than it needs, and consume frees the blocks that it
 empties. What is left behind a record header then depends on how the transport has cut
 the stream.
 */
module TlsAhead {
  import opened Bytes
  import opened TlsRecord
  import opened TlsStream

  /** What the transport does next; when nothing is left it has hung up. */
  datatype Event = Chunk(p: seq<byte>) | Interrupt

  datatype Io = Fine | Hangup | Interrupted

  function Arriving(input: seq<Event>): seq<byte> {
    if input == [] then []
    else (if input[0].Chunk? then input[0].p else []) + Arriving(input[1..])
  }

  /** How many bytes the first k events bring. */
  function Came(input: seq<Event>, k: nat): nat
    requires k <= |input|
  {
    |Arriving(input[..k])|
  }

  /** The calm transport: nothing interrupts it and it gives no empty block. */
  ghost predicate Calm(input: seq<Event>) { Interrupt !in input && Chunk([]) !in input }

  /** No block read ahead is empty. */
  predicate Full(data: seq<seq<byte>>) { forall i :: 0 <= i < |data| ==> data[i] != [] }

  datatype Reach = Reach(o: Io, data: seq<seq<byte>>, input: seq<Event>)

  /** ensure: how it ends, the blocks read ahead then, and what is still to come. */
  function AheadOf(data: seq<seq<byte>>, input: seq<Event>, n: nat): (r: Reach)
    ensures r.o.Fine? ==> |Flat(r.data)| >= n
    decreases |input|
  {
    if |Flat(data)| >= n then Reach(Fine, data, input)
    else if input == [] then Reach(Hangup, data, input)
    else if input[0].Interrupt? then Reach(Interrupted, data, input[1..])
    else if input[0].p == [] then Reach(Hangup, data + [[]], input[1..])
    else AheadOf(data + [input[0].p], input[1..], n)
  }

  /** consume: the blocks left when n bytes have been taken. */
  function Eaten(data: seq<seq<byte>>, n: nat): seq<seq<byte>>
    decreases |data|
  {
    if data == [] || n == 0 then data
    else if |data[0]| > n then [data[0][n..]] + data[1..]
    else Eaten(data[1..], n - |data[0]|)
  }

  lemma {:induction false} EatenFull(data: seq<seq<byte>>, n: nat)
    requires Full(data)
    ensures Full(Eaten(data, n))
    ensures Eaten(data, n) == [] <==> |Flat(data)| <= n
  {
    if data != [] && n > 0 && |data[0]| <= n {
      EatenFull(data[1..], n - |data[0]|);
    }
  }

  /** No more of the input has been read than n bytes behind the start of data needed. */
  predicate Lean(data: seq<seq<byte>>, input: seq<Event>, rest: seq<Event>, n: nat) {
    var j := |input| - |rest|;
    && 0 <= j && rest == input[j..]
    && (j > 0 ==> |Flat(data)| + Came(input, j - 1) < n)
  }

  lemma {:induction false} ArrivingAdd(xs: seq<Event>, ys: seq<Event>)
    ensures Arriving(xs + ys) == Arriving(xs) + Arriving(ys)
  {
    if xs == [] {
      assert xs + ys == ys;
    } else {
      assert (xs + ys)[1..] == xs[1..] + ys;
      ArrivingAdd(xs[1..], ys);
    }
  }

  lemma CameSum(all: seq<Event>, k: nat, i: nat)
    requires k + i <= |all|
    ensures Came(all, k + i) == Came(all, k) + Came(all[k..], i)
    ensures all[k..][i..] == all[k + i..]
  {
    assert all[..k + i] == all[..k] + all[k..][..i];
    ArrivingAdd(all[..k], all[k..][..i]);
  }

  /** ensure loses nothing, reads no more than it needs, and keeps no empty block. */
  lemma {:induction false} AheadLean(data: seq<seq<byte>>, input: seq<Event>, n: nat)
    ensures var r := AheadOf(data, input, n);
            && (r.o.Fine? ==> Lean(data, input, r.input, n) && Flat(r.data) + Arriving(r.input) == Flat(data) + Arriving(input))
            && (!r.o.Hangup? && Full(data) ==> Full(r.data))
    decreases |input|
  {
    hide Flat, Lean;
    LeanNone(data, input, n);
    if |Flat(data)| < n && input != [] && input[0].Chunk? && input[0].p != [] {
      var p := input[0].p;
      AheadLean(data + [p], input[1..], n);
      FlatAppend(data, p);
      var r := AheadOf(data, input, n);
      if r.o.Fine? {
        LeanCons(data, input, r.input, n);
      }
    }
  }

  lemma LeanNone(data: seq<seq<byte>>, input: seq<Event>, n: nat)
    ensures Lean(data, input, input, n)
  {}

  lemma LeanCons(data: seq<seq<byte>>, input: seq<Event>, rest: seq<Event>, n: nat)
    requires |Flat(data)| < n && input != [] && input[0].Chunk? && Lean(data + [input[0].p], input[1..], rest, n)
    ensures Lean(data, input, rest, n)
  {
    hide Flat, Came;
    var j := |input| - |rest|;
    FlatAppend(data, input[0].p);
    CameFirst(input);
    CameSum(input, 1, j - 1);
    if j > 1 {
      CameSum(input, 1, j - 2);
    }
  }

  lemma CameFirst(input: seq<Event>)
    requires input != [] && input[0].Chunk?
    ensures Came(input, 0) == 0 && Came(input, 1) == |input[0].p|
  {
    assert input[..1][1..] == [] && input[..1][0] == input[0];
  }

  /** A calm transport that has the bytes gives them. */
  lemma {:induction false} CalmFine(data: seq<seq<byte>>, input: seq<Event>, n: nat)
    requires Calm(input) && |Flat(data)| + |Arriving(input)| >= n
    ensures AheadOf(data, input, n).o.Fine?
    decreases |input|
  {
    if |Flat(data)| < n {
      assert input[0] in input;
      FlatAppend(data, input[0].p);
      CalmFine(data + [input[0].p], input[1..], n);
    }
  }

  lemma CameAll(all: seq<Event>)
    ensures Came(all, |all|) == |Arriving(all)|
  {
    assert all[..|all|] == all;
  }

  lemma SplitAt(all: seq<Event>, k: nat)
    requires k <= |all|
    ensures |Arriving(all)| == Came(all, k) + |Arriving(all[k..])|
  {
    CameSum(all, k, |all| - k);
    CameAll(all);
    CameAll(all[k..]);
  }

  lemma LeanTwice(data: seq<seq<byte>>, input: seq<Event>, left: seq<seq<byte>>, mid: seq<Event>, rest: seq<Event>, c: nat, n: nat)
    requires Lean(data, input, mid, c) && Lean(left, mid, rest, n)
    requires |Flat(left)| + c + |Arriving(mid)| == |Flat(data)| + |Arriving(input)|
    ensures Lean(data, input, rest, c + n)
  {
    hide Flat, Came, Arriving;
    var i, j := |input| - |mid|, |mid| - |rest|;
    SplitAt(input, i);
    CameSum(input, i, j);
    if j > 0 {
      CameSum(input, i, j - 1);
    }
  }

  // ---- Where the transport cuts ----

  /** One of the transport's blocks ends at the n-th byte. */
  ghost predicate CutAt(input: seq<Event>, n: nat) { exists k: nat :: k <= |input| && Came(input, k) == n }

  /** c bytes of the input all have been taken, data is what has been read besides, and
      no block was read that was not needed for the c bytes. */
  predicate InStep(all: seq<Event>, data: seq<seq<byte>>, input: seq<Event>, c: nat) {
    var k := |all| - |input|;
    && 0 <= k && input == all[k..] && |Flat(data)| + c == Came(all, k)
    && (k > 0 ==> Came(all, k - 1) < c)
  }

  lemma {:induction false} ArrivingGrows(input: seq<Event>, i: nat, j: nat)
    requires Calm(input) && i < j <= |input|
    ensures Came(input, i) < Came(input, j)
    decreases j
  {
    assert input[j - 1] in input && input[..j] == input[..j - 1] + [input[j - 1]];
    ArrivingAdd(input[..j - 1], [input[j - 1]]);
    assert [input[j - 1]][1..] == [];
    if i < j - 1 {
      ArrivingGrows(input, i, j - 1);
    }
  }

  lemma StaysInStep(all: seq<Event>, data: seq<seq<byte>>, input: seq<Event>, left: seq<seq<byte>>, rest: seq<Event>, c: nat, n: nat)
    requires InStep(all, data, input, c) && Lean(data, input, rest, n)
    requires |Flat(left)| + n + |Arriving(rest)| == |Flat(data)| + |Arriving(input)|
    ensures InStep(all, left, rest, c + n)
  {
    hide Flat, Came, Arriving;
    var k, j := |all| - |input|, |input| - |rest|;
    SplitAt(input, j);
    CameSum(all, k, j);
    if j > 0 {
      CameSum(all, k, j - 1);
    }
  }

  /** What has been read ahead for n bytes ends with them exactly if the transport cuts
      there. */
  lemma EndsAtCut(all: seq<Event>, data: seq<seq<byte>>, input: seq<Event>, c: nat, n: nat)
    requires Calm(all) && InStep(all, data, input, c) && Full(data) && AheadOf(data, input, n).o.Fine?
    ensures Eaten(AheadOf(data, input, n).data, n) == [] <==> CutAt(all, c + n)
  {
    hide Flat, Came, Arriving, Eaten, AheadOf, Full, Calm, CutAt;
    var r := AheadOf(data, input, n);
    AheadLean(data, input, n);
    EatenFull(r.data, n);
    var k, j := |all| - |input|, |input| - |r.input|;
    SplitAt(input, j);
    CameSum(all, k, j);
    if j > 0 {
      CameSum(all, k, j - 1);
    }
    CutOnly(all, k + j, c + n);
  }

  /** The blocks up to the first cut at or behind the n-th byte. */
  lemma CutOnly(all: seq<Event>, k: nat, n: nat)
    requires Calm(all) && k <= |all| && Came(all, k) >= n && (k > 0 ==> Came(all, k - 1) < n)
    ensures CutAt(all, n) <==> Came(all, k) == n
  {
    hide Arriving, Calm, Came;
    if CutAt(all, n) {
      var m: nat :| m <= |all| && Came(all, m) == n;
      if m < k - 1 {
        ArrivingGrows(all, m, k - 1);
      } else if m > k {
        ArrivingGrows(all, k, m);
      }
    }
  }

  // ---- A record without payload ----

  /** The header of a record without payload is let in, and nothing has been read ahead
      behind it. */
  predicate EndsBare(data: seq<seq<byte>>, input: seq<Event>, ver: nat, verset: bool, handin: nat) {
    var r := AheadOf(data, input, RECHDRLEN);
    && r.o.Fine? && Eaten(r.data, RECHDRLEN) == []
    && var h := Flat(r.data)[..RECHDRLEN];
       !(handin == 0 && h[0] >= 0x80) && VersionOk(Get16(h[1..3]), ver, verset) && Get16(h[3..5]) == 0
  }
}
