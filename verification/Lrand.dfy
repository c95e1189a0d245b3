/**
 The random number generator (libc/lrand.c and libc/nrand.c): a buffer of the last 607
 numbers, in which two pointers move down together, and the choice of a number below n.
 */
module Lrand {
  import opened Bytes

  const LEN: int := 607
  const TAP: int := 273
  const MASK: int := 0x7fff_ffff
  const WORD: int := 0x8000_0000
  const HALF: int := 0x4000_0000
  const A: int := 48271
  const M: int := 2147483647
  const Q: int := 44488
  const R: int := 3399

  // ---- Seeding ----

  type long = x: int | -0x8000_0000 <= x < 0x8000_0000

  /** The number a seed stands for: never 0. */
  function Start(seed: long): (x: nat)
    ensures 0 < x < M
  {
    if seed % M == 0 then 89482311 else seed % M
  }

  /** The n'th number from there by multiplication with A modulo the prime M. */
  function X(seed: long, n: nat): nat {
    if n == 0 then Start(seed) else A * X(seed, n - 1) % M
  }

  /** A has the inverse 1899818559 modulo M. */
  lemma NotZero(x: nat)
    requires 0 < x < M
    ensures A * x % M != 0
  {
    if A * x % M == 0 {
      var t := A * x / M;
      assert A * x == M * t;
      Inverse(x, t);
    }
  }

  lemma Inverse(x: nat, t: nat)
    requires A * x == M * t
    ensures x == M * (1899818559 * t - 42704 * x)
  {}

  lemma {:induction false} NeverZero(seed: long, n: nat)
    ensures 0 < X(seed, n) < M
  {
    if n > 0 {
      NeverZero(seed, n - 1);
      NotZero(X(seed, n - 1));
    }
  }

  /** Schrage's way to multiply in 32 bits. */
  method Times(x: long) returns (y: long)
    requires 0 < x < M
    ensures y == A * x % M
  {
    var hi: long := x / Q;
    var lo: long := x % Q;
    var al: long := A * lo;
    var rh: long := R * hi;
    y := al - rh;
    assert y == A * x - M * hi;
    if y < 0 {
      y := y + M;
    }
  }

  // ---- The recurrence ----

  /** i words up from f, round the end of the buffer. */
  function At(f: nat, i: nat): (p: nat)
    requires f < LEN && i < LEN
    ensures p < LEN
  {
    if f + i < LEN then f + i else f + i - LEN
  }

  /** The numbers before the first one drawn after seeding, latest first: the buffer is
      read from its 334th word up, round its end. */
  function History(v: seq<nat>): (h: seq<nat>)
    requires |v| == LEN
    ensures |h| == LEN && forall i :: 0 <= i < LEN ==> h[i] == v[At(LEN - TAP, i)]
  {
    v[LEN - TAP..] + v[..LEN - TAP]
  }

  /** The buffer a seed gives. */
  function Seeded(seed: long): (v: seq<nat>)
    ensures |v| == LEN && forall i :: 0 <= i < LEN ==> v[i] == X(seed, 21 + i)
  {
    seq(LEN, i requires 0 <= i < LEN => X(seed, 21 + i))
  }

  /** y(k) = y(k-607) + y(k-273) modulo 2^31. */
  function Y(h: seq<nat>, k: int): nat
    requires |h| == LEN && k >= -LEN
    decreases k + LEN
  {
    if k < 0 then h[-1 - k] else (Y(h, k - LEN) + Y(h, k - TAP)) % WORD
  }

  /** The word i up from f has the number drawn i before the last. */
  predicate HoldsAt(v: seq<nat>, h: seq<nat>, k: nat, f: nat, i: nat)
    requires |v| == LEN && |h| == LEN && f < LEN && i < LEN
  {
    v[At(f, i)] == Y(h, k - 1 - i)
  }

  ghost predicate Holds(v: seq<nat>, h: seq<nat>, k: nat, f: nat) {
    |v| == LEN && |h| == LEN && f < LEN && forall i :: 0 <= i < LEN ==> HoldsAt(v, h, k, f, i)
  }

  lemma HistoryHolds(v: seq<nat>)
    requires |v| == LEN
    ensures Holds(v, History(v), 0, LEN - TAP)
  {
    var h, f: nat := History(v), LEN - TAP;
    forall i | 0 <= i < LEN ensures HoldsAt(v, h, 0, f, i) {
      assert Y(h, -1 - i) == h[i];
    }
  }

  /** Where the numbers of 607 and 273 steps before are, when f is about to be filled. */
  lemma Oldest(v: seq<nat>, h: seq<nat>, k: nat, f: nat)
    requires f < LEN && Holds(v, h, k, At(f, 1))
    ensures v[f] == Y(h, k - LEN) && v[At(f, TAP)] == Y(h, k - TAP)
    ensures Y(h, k) == (v[f] + v[At(f, TAP)]) % WORD
  {
    hide Y;
    assert HoldsAt(v, h, k, At(f, 1), LEN - 1) && HoldsAt(v, h, k, At(f, 1), TAP - 1);
    YIs(h, k);
  }

  lemma YIs(h: seq<nat>, k: nat)
    requires |h| == LEN
    ensures Y(h, k) == (Y(h, k - LEN) + Y(h, k - TAP)) % WORD
  {}

  lemma Moved(v: seq<nat>, h: seq<nat>, k: nat, f: nat)
    requires f < LEN && Holds(v, h, k, At(f, 1))
    ensures Holds(v[f := Y(h, k)], h, k + 1, f)
  {
    hide Y;
    var w, m := v[f := Y(h, k)], k + 1;
    forall i | 0 <= i < LEN ensures HoldsAt(w, h, m, f, i) {
      if i > 0 {
        assert HoldsAt(v, h, k, At(f, 1), i - 1);
        assert At(At(f, 1), i - 1) == At(f, i);
      }
    }
  }

  // ---- An accepted number always comes ----

  /** A number above the slop comes within so many draws. */
  const WITHIN: nat := 2 * LEN + 31 * ROUND

  /** The least common multiple of the two distances of the recurrence. */
  const ROUND: nat := LEN * TAP

  /** The history of a seed: positive numbers of 31 bits. */
  predicate Lively(h: seq<nat>) { |h| == LEN && forall i :: 0 <= i < LEN ==> 0 < h[i] < WORD }

  lemma SeedLively(seed: long)
    ensures Lively(History(Seeded(seed)))
  {
    var h := History(Seeded(seed));
    forall i | 0 <= i < LEN ensures 0 < h[i] < WORD {
      NeverZero(seed, 21 + At(LEN - TAP, i));
    }
  }

  /** The number j draws from the k-th. */
  function Drawn(h: seq<nat>, k: nat, j: nat): nat
    requires |h| == LEN
  {
    Y(h, k + j)
  }

  predicate Low(h: seq<nat>, k: nat, slop: nat, n: nat)
    requires |h| == LEN
  {
    forall j: nat :: j < n ==> Drawn(h, k, j) <= slop
  }

  lemma InWord(h: seq<nat>, k: int)
    requires Lively(h) && k >= -LEN
    ensures Y(h, k) < WORD
  {}

  /** The recurrence runs backwards, so that no 607 numbers in a row are 0. */
  lemma {:induction false} NotAllZero(h: seq<nat>, k: nat)
    requires Lively(h) && Low(h, k, 0, LEN)
    ensures false
  {
    hide Y;
    YIs(h, k + LEN - 1);
    assert Drawn(h, k, LEN - 1) == 0 == Drawn(h, k, LEN - 1 - TAP);
    InWord(h, k - 1);
    assert Y(h, k - 1) == 0;
    if k == 0 {
      YBefore(h, 0);
    } else {
      var l: nat := k - 1;
      forall j: nat | j < LEN ensures Drawn(h, l, j) <= 0 {
        if j > 0 {
          assert Drawn(h, l, j) == Drawn(h, k, j - 1);
        }
      }
      NotAllZero(h, l);
    }
  }

  lemma YBefore(h: seq<nat>, i: nat)
    requires |h| == LEN && i < LEN
    ensures Y(h, -1 - i) == h[i]
  {}

  /** As long as only low numbers come no sum wraps, and the numbers do not fall. */
  lemma NoWrap(h: seq<nat>, k: nat, slop: nat, n: nat, j: nat)
    requires |h| == LEN && Low(h, k, slop, n) && slop < HALF && LEN <= j < n
    ensures Drawn(h, k, j) == Drawn(h, k, j - LEN) + Drawn(h, k, j - TAP)
  {
    hide Y;
    YIs(h, k + j);
    assert Drawn(h, k, j - LEN) <= slop && Drawn(h, k, j - TAP) <= slop;
  }

  lemma {:induction false} Rises(h: seq<nat>, k: nat, slop: nat, n: nat, j: nat, d: nat, i: nat)
    requires |h| == LEN && Low(h, k, slop, n) && slop < HALF && (d == LEN || d == TAP) && LEN <= j && j + d * i < n
    ensures Drawn(h, k, j + d * i) >= Drawn(h, k, j)
  {
    hide Drawn, Low;
    if i > 0 {
      var m: nat := j + d * (i - 1);
      assert m + d == j + d * i;
      Rises(h, k, slop, n, j, d, i - 1);
      NoWrap(h, k, slop, n, m + d);
    }
  }

  /** There are two ways from j to j + ROUND. */
  lemma Doubles(h: seq<nat>, k: nat, slop: nat, n: nat, j: nat)
    requires |h| == LEN && Low(h, k, slop, n) && slop < HALF && LEN <= j && j + ROUND < n
    ensures Drawn(h, k, j + ROUND) >= 2 * Drawn(h, k, j)
  {
    hide Drawn, Low;
    NoWrap(h, k, slop, n, j + ROUND);
    Rises(h, k, slop, n, j, LEN, TAP - 1);
    Rises(h, k, slop, n, j, TAP, LEN - 1);
  }

  function Pow2(i: nat): nat { if i == 0 then 1 else 2 * Pow2(i - 1) }

  lemma TwoTo31()
    ensures Pow2(31) == WORD
  {
    assert Pow2(8) == 0x100;
    assert Pow2(16) == 0x1_0000;
    assert Pow2(24) == 0x100_0000;
  }

  lemma {:induction false} Grows(h: seq<nat>, k: nat, slop: nat, n: nat, j: nat, i: nat)
    requires |h| == LEN && Low(h, k, slop, n) && slop < HALF && LEN <= j && j + ROUND * i < n && Drawn(h, k, j) > 0
    ensures Drawn(h, k, j + ROUND * i) >= Pow2(i)
  {
    hide Drawn, Low;
    if i > 0 {
      var m: nat := j + ROUND * (i - 1);
      assert m + ROUND == j + ROUND * i;
      Grows(h, k, slop, n, j, i - 1);
      Doubles(h, k, slop, n, m);
    }
  }

  /** 607 numbers are not all 0, and from one that is not it goes up beyond any slop. */
  lemma NotAllLow(h: seq<nat>, k: nat, slop: nat)
    requires Lively(h) && slop < HALF
    ensures !Low(h, k, slop, WITHIN)
  {
    hide Y;
    if Low(h, k, slop, WITHIN) {
      if Low(h, k + LEN, 0, LEN) {
        NotAllZero(h, k + LEN);
      } else {
        var j: nat :| j < LEN && Drawn(h, k + LEN, j) > 0;
        assert Drawn(h, k, LEN + j) == Drawn(h, k + LEN, j);
        assert Drawn(h, k, LEN + j + ROUND * 31) <= slop;
        TwoTo31();
        Grows(h, k, slop, WITHIN, LEN + j, 31);
      }
    }
  }

  lemma SlopSmall(n: int)
    requires 0 < n <= MASK
    ensures 0 <= MASK % n < HALF
  {
    if n >= HALF {
      DivMod(n, 1, MASK - n);
    }
  }

  /** The first number that nrand accepts comes within a number of draws that is the
      same for all n. */
  lemma FirstAccepted(h: seq<nat>, k: nat, n: int) returns (j: nat)
    requires Lively(h) && 0 < n <= MASK
    ensures j < WITHIN && Accepted(n, Drawn(h, k, j)) && forall i: nat :: i < j ==> !Accepted(n, Drawn(h, k, i))
  {
    hide Drawn;
    SlopSmall(n);
    var slop: nat := MASK % n;
    NotAllLow(h, k, slop);
    j := 0;
    while j < WITHIN && Drawn(h, k, j) <= slop
      invariant j <= WITHIN && Low(h, k, slop, j)
    {
      j := j + 1;
    }
  }

  class Rng {
    var vec: array<nat>
    var tap: nat
    var feed: Option<nat>
    ghost var h: seq<nat>
    ghost var k: nat
    ghost var seed: long

    /** Before seeding. */
    constructor ()
      ensures Valid() && feed == None && fresh(vec)
    {
      vec := new nat[LEN];
      tap, feed := 0, None;
      h, k, seed := seq(LEN, _ => 0), 0, 1;
    }

    ghost predicate Valid()
      reads this, vec
    {
      && vec.Length == LEN && tap < LEN && |h| == LEN
      && (feed == None ==> tap == 0)
      && (feed.Some? ==> && feed.value < LEN && tap == At(feed.value, TAP) && Holds(vec[..], h, k, feed.value)
                         && h == History(Seeded(seed)))
    }

    /** The history and the number of draws since; before seeding, as if seeded with 1. */
    ghost function Hist(): (r: seq<nat>)
      reads this
      requires |h| == LEN
      ensures |r| == LEN
    {
      if feed == None then History(Seeded(1)) else h
    }

    ghost function Base(): nat
      reads this
    {
      if feed == None then 0 else k
    }

    /** The n'th number to be drawn from now on. */
    ghost function Stream(n: nat): nat
      reads this
      requires |h| == LEN
    {
      Drawn(Hist(), Base(), n)
    }

    /** isrand */
    method Isrand(seed: long)
      requires Valid()
      modifies this, vec
      ensures Valid() && feed == Some(LEN - TAP) && vec == old(vec) && Hist() == History(Seeded(seed)) && Base() == 0
    {
      hide Holds;
      tap := 0;
      feed := Some(LEN - TAP);
      Fill(seed);
      h, k, this.seed := History(Seeded(seed)), 0, seed;
      HistoryHolds(vec[..]);
    }

    /** The part of isrand that fills the buffer. */
    method Fill(seed: long)
      requires vec.Length == LEN
      modifies vec
      ensures vec[..] == Seeded(seed)
    {
      var x: long := CMod(seed);
      if x < 0 {
        x := x + M;
      }
      if x == 0 {
        x := 89482311;
      }
      assert x == Start(seed);
      var i := -20;
      while i < LEN
        invariant -20 <= i <= LEN && x == X(seed, i + 20) && 0 < x < M
        invariant forall j :: 0 <= j < i ==> vec[j] == X(seed, 21 + j)
      {
        NeverZero(seed, i + 21);
        x := Times(x);
        if i >= 0 {
          vec[i] := x;
        }
        i := i + 1;
      }
    }

    /** The pointers, moved down for the next number; the first time the buffer is seeded. */
    method Step() returns (f: nat)
      requires Valid()
      modifies this, vec
      ensures vec == old(vec) && vec.Length == LEN && f < LEN && tap == At(f, TAP) && feed == Some(f)
      ensures Holds(vec[..], h, k, At(f, 1)) && h == old(Hist()) && k == old(Base()) && h == History(Seeded(seed))
    {
      hide Y, Holds;
      var t: int := tap - 1;
      if t < 0 {
        if feed == None {
          Isrand(1);
          t := tap - 1;
        }
        t := t + LEN;
      }
      tap := t;
      var d: int := feed.value - 1;
      if d < 0 {
        d := d + LEN;
      }
      f := d;
      feed := Some(f);
      HoldsLen(vec[..], h, k, At(f, 1));
    }

    lemma HoldsLen(v: seq<nat>, h: seq<nat>, k: nat, f: nat)
      requires Holds(v, h, k, f)
      ensures |v| == LEN && |h| == LEN
    {}

    /** lrand: the next number of the stream, in 31 bits. */
    method Lrand() returns (x: nat)
      requires Valid()
      modifies this, vec
      ensures Valid() && vec == old(vec) && feed.Some? && x == old(Stream(0)) && x <= MASK
      ensures Hist() == old(Hist()) && Base() == old(Base()) + 1
    {
      hide Y, Holds;
      var f := Step();
      HoldsLen(vec[..], h, k, At(f, 1));
      Oldest(vec[..], h, k, f);
      Moved(vec[..], h, k, f);
      x := (vec[f] + vec[tap]) % WORD;
      ghost var v := vec[..];
      vec[f] := x;
      assert vec[..] == v[f := x];
      k := k + 1;
    }

    /** nrand: the first number of the stream above the slop, modulo n; j is its place.
        One always comes, and within a number of draws that is the same for all n. */
    method Nrand(n: long) returns (r: int, ghost j: nat)
      requires Valid() && n != 0
      modifies this, vec
      ensures Valid() && vec == old(vec)
      ensures n <= 1 ==> r == (if n < 0 then n else 0) && Base() == old(Base())
      ensures n > 1 ==> && Accepted(n, old(Stream(j))) && (forall i: nat :: i < j ==> !Accepted(n, old(Stream(i))))
                        && r == old(Stream(j)) % n && Base() == old(Base()) + j + 1 && j < WITHIN
      ensures Hist() == old(Hist())
    {
      hide Y, Holds;
      j := 0;
      if n < 0 {
        return n, j;
      }
      if n == 1 {
        return 0, j;
      }
      FromSeed();
      j := FirstAccepted(Hist(), Base(), n);
      assert forall i: nat :: Stream(i) == Drawn(Hist(), Base(), i);
      var v := Above(MASK % n, j);
      r := v % n;
    }

    lemma FromSeed()
      requires Valid()
      ensures Lively(Hist())
    {
      SeedLively(1);
      SeedLively(seed);
    }

    /** Draws until a number is above the slop. */
    method Above(slop: int, ghost j: nat) returns (v: nat)
      requires Valid() && Stream(j) > slop && forall i: nat :: i < j ==> Stream(i) <= slop
      modifies this, vec
      ensures Valid() && vec == old(vec) && v == old(Stream(j)) && Hist() == old(Hist()) && Base() == old(Base()) + j + 1
    {
      hide Y, Holds;
      v := Lrand();
      ghost var i := 0;
      while v <= slop
        invariant Valid() && vec == old(vec) && i <= j && v == old(Stream(i)) && Hist() == old(Hist()) &&
            Base() == old(Base()) + i + 1
        decreases j - i
      {
        v := Lrand();
        i := i + 1;
      }
    }
  }

  /** The remainder of C, which has the sign of a. */
  function CMod(a: long): (r: long)
    ensures -M < r < M && (r - a) % M == 0 && (a >= 0 ==> r >= 0) && (a <= 0 ==> r <= 0)
  {
    var b: int := a;
    if b >= 0 then b % M else -((-b) % M)
  }

  // ---- Fairness ----

  /** What nrand keeps of the numbers up to MASK. */
  predicate Accepted(n: int, v: nat)
    requires n > 0
  {
    v > MASK % n
  }

  /** How many of the numbers below hi are r modulo n. */
  function Count(n: nat, r: nat, hi: nat): nat
    requires r < n
  {
    if hi == 0 then 0 else Count(n, r, hi - 1) + if (hi - 1) % n == r then 1 else 0
  }

  lemma DivMod(n: nat, m: nat, t: nat)
    requires t < n
    ensures (m * n + t) % n == t && (m * n + t) / n == m
  {
    var x := m * n + t;
    assert x == n * (x / n) + x % n;
    Multiple(n, m - x / n);
    assert (m - x / n) * n == x % n - t;
  }

  lemma Multiple(n: nat, a: int)
    ensures (a >= 1 ==> a * n >= n) && (a <= -1 ==> a * n <= -(n as int))
  {
    if a <= -1 {
      assert (-a) * n >= n;
    }
  }

  lemma {:induction false} CountIs(n: nat, r: nat, m: nat, t: nat)
    requires r < n && t <= n
    ensures Count(n, r, m * n + t) == m + if r < t then 1 else 0
    decreases m, t
  {
    if t > 0 {
      DivMod(n, m, t - 1);
      CountIs(n, r, m, t - 1);
    } else if m > 0 {
      assert m * n + 0 == (m - 1) * n + n;
      CountIs(n, r, m - 1, n);
    }
  }

  /** Of the numbers nrand accepts as many have one remainder as any other. */
  lemma Fair(n: nat, r: nat)
    requires 0 < n <= MASK && r < n
    ensures var slop := MASK % n; Count(n, r, MASK + 1) - Count(n, r, slop + 1) == MASK / n
  {
    var slop, m := MASK % n, MASK / n;
    assert MASK + 1 == m * n + (slop + 1);
    CountIs(n, r, m, slop + 1);
    assert 0 * n + (slop + 1) == slop + 1;
    CountIs(n, r, 0, slop + 1);
  }
}
