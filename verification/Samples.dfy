/** The bounded ring of recent latency samples and the nearest-rank percentiles read from it. */
module Samples {
  import opened Sequences

  const SAMPLE_CAPACITY: nat := 4096

  // ---------------------------------------------------------------- ring

  datatype Ring = Ring(buf: seq<nat>, next: nat, wrapped: bool)

  const EMPTY_RING := Ring([], 0, false)

  ghost predicate RingValid(r: Ring)
  {
    && |r.buf| <= SAMPLE_CAPACITY
    && r.next < SAMPLE_CAPACITY
    && (|r.buf| < SAMPLE_CAPACITY ==> r.next == |r.buf|)
    && (r.wrapped <==> |r.buf| == SAMPLE_CAPACITY)
  }

  function Pushed(r: Ring, us: nat): Ring
    requires RingValid(r)
  {
    if |r.buf| < SAMPLE_CAPACITY then
      var buf := r.buf + [us];
      Ring(buf, |buf| % SAMPLE_CAPACITY, r.wrapped || |buf| == SAMPLE_CAPACITY)
    else
      Ring(r.buf[r.next := us], (r.next + 1) % SAMPLE_CAPACITY, true)
  }

  /** What the ring must look like after the samples `h` were pushed in order: sample j sits at
      slot j mod capacity, and only the last `capacity` of them are left. */
  ghost predicate Retains(r: Ring, h: seq<nat>)
  {
    && |r.buf| == Min(|h|, SAMPLE_CAPACITY)
    && r.next == |h| % SAMPLE_CAPACITY
    && (r.wrapped <==> |h| >= SAMPLE_CAPACITY)
    && forall j :: |h| - |r.buf| <= j < |h| ==> r.buf[j % SAMPLE_CAPACITY] == h[j]
  }

  lemma PushRetains(r: Ring, h: seq<nat>, us: nat)
    requires Retains(r, h)
    ensures RingValid(r) && Retains(Pushed(r, us), h + [us])
  {
    var h', r' := h + [us], Pushed(r, us);
    forall j | |h'| - |r'.buf| <= j < |h'| ensures r'.buf[j % SAMPLE_CAPACITY] == h'[j] {
      if j < |h| && |h| >= SAMPLE_CAPACITY {
        // Two of the last `capacity` positions never share a slot.
        assert 0 < |h| - j < SAMPLE_CAPACITY;
        assert j % SAMPLE_CAPACITY != |h| % SAMPLE_CAPACITY;
      }
    }
  }

  /** The mutable ring itself. */
  class SampleRing {
    var buf: seq<nat>
    var next: nat
    var wrapped: bool

    ghost function Value(): Ring
      reads this
    {
      Ring(buf, next, wrapped)
    }

    constructor ()
      ensures Value() == EMPTY_RING && Retains(Value(), [])
    {
      buf, next, wrapped := [], 0, false;
    }

    method Push(us: nat)
      requires RingValid(Value())
      modifies this
      ensures RingValid(Value()) && Value() == Pushed(old(Value()), us)
    {
      if |buf| < SAMPLE_CAPACITY {
        buf := buf + [us];
        next := |buf| % SAMPLE_CAPACITY;
        if |buf| == SAMPLE_CAPACITY {
          wrapped := true;
        }
      } else {
        buf := buf[next := us];
        next := (next + 1) % SAMPLE_CAPACITY;
        wrapped := true;
      }
    }
  }

  /** A full buffer holds, before slot |h| mod capacity, the newest samples and, from it on, the
      older ones. */
  lemma RotatedTail(r: Ring, h: seq<nat>, slot: nat)
    requires Retains(r, h) && |h| >= SAMPLE_CAPACITY && slot < SAMPLE_CAPACITY
    ensures slot >= r.next ==> r.buf[slot] == h[|h| - SAMPLE_CAPACITY + slot - r.next]
    ensures slot < r.next ==> r.buf[slot] == h[|h| - r.next + slot]
  {
    var q := |h| / SAMPLE_CAPACITY;
    assert |h| == q * SAMPLE_CAPACITY + r.next;
    var j := |h| - r.next + slot - if slot >= r.next then SAMPLE_CAPACITY else 0;
    assert j == (if slot >= r.next then q - 1 else q) * SAMPLE_CAPACITY + slot;
    SlotOf(j, if slot >= r.next then q - 1 else q, slot);
    assert r.buf[j % SAMPLE_CAPACITY] == h[j];
  }

  lemma SlotOf(i: int, q: int, slot: nat)
    requires slot < SAMPLE_CAPACITY && i == q * SAMPLE_CAPACITY + slot
    ensures i % SAMPLE_CAPACITY == slot
  {
  }

  /** The retained samples are, as a multiset, the tail of the history. */
  lemma RetainedIsTail(r: Ring, h: seq<nat>)
    requires Retains(r, h)
    ensures multiset(r.buf) == multiset(h[|h| - |r.buf|..])
  {
    var k, tail := r.next, h[|h| - |r.buf|..];
    if |h| < SAMPLE_CAPACITY {
      forall j | 0 <= j < |h| ensures r.buf[j] == h[j] {
        assert r.buf[j % SAMPLE_CAPACITY] == h[j];
      }
      assert r.buf == tail;
    } else {
      forall slot | 0 <= slot < SAMPLE_CAPACITY
        ensures r.buf[slot] == tail[if slot < k then SAMPLE_CAPACITY - k + slot else slot - k]
      {
        RotatedTail(r, h, slot);
      }
      RotationPermutes(r.buf, tail, k);
    }
  }

  lemma RotationPermutes(xs: seq<nat>, ys: seq<nat>, k: nat)
    requires |xs| == |ys| && k <= |ys|
    requires forall i :: 0 <= i < |xs| ==> xs[i] == ys[if i < k then |ys| - k + i else i - k]
    ensures multiset(xs) == multiset(ys)
  {
    var n := |ys| - k;
    assert xs == ys[n..] + ys[..n];
    assert ys == ys[..n] + ys[n..];
  }

  // ---------------------------------------------------------- percentiles

  predicate AtMost(a: nat, b: nat) { a <= b }

  function Clamp(pct: nat): nat
  {
    if pct < 1 then 1 else if pct > 100 then 100 else pct
  }

  function Rank(n: nat, pct: nat): nat
  {
    (Clamp(pct) * n + 99) / 100
  }

  function Percentile(sorted: seq<nat>, pct: nat): nat
  {
    if sorted == [] then 0
    else
      var n := |sorted|;
      var rank := Rank(n, pct);
      var idx := Min(if rank == 0 then 0 else rank - 1, n - 1);
      sorted[idx]
  }

  /** The percentile a snapshot reports for a buffer: sort a copy, then index it. */
  function PercentileOf(buf: seq<nat>, pct: nat): nat
  {
    Percentile(Sort(buf, AtMost), pct)
  }

  function CountAtMost(xs: seq<nat>, v: nat): nat
  {
    if xs == [] then 0
    else CountAtMost(xs[..|xs| - 1], v) + if xs[|xs| - 1] <= v then 1 else 0
  }

  function AtMostOne(v: nat): nat -> int
  {
    x => if x <= v then 1 else 0
  }

  lemma {:induction false} CountIsSum(xs: seq<nat>, v: nat)
    ensures CountAtMost(xs, v) == Sum(xs, AtMostOne(v))
  {
    if xs != [] {
      CountIsSum(xs[..|xs| - 1], v);
    }
  }

  lemma CountPermutation(xs: seq<nat>, ys: seq<nat>, v: nat)
    requires multiset(xs) == multiset(ys)
    ensures CountAtMost(xs, v) == CountAtMost(ys, v)
  {
    CountIsSum(xs, v);
    CountIsSum(ys, v);
    SumPermutation(xs, ys, AtMostOne(v));
  }

  lemma {:induction false} CountSorted(xs: seq<nat>, k: nat, v: nat)
    requires Sorted(xs, AtMost) && k < |xs|
    ensures xs[k] <= v ==> CountAtMost(xs, v) >= k + 1
    ensures v < xs[k] ==> CountAtMost(xs, v) <= k
  {
    var n := |xs| - 1;
    if k < n {
      CountSorted(xs[..n], k, v);
      assert AtMost(xs[k], xs[n]);
    } else {
      CountBounded(xs[..n], v);
      if n > 0 && xs[n] <= v {
        CountSorted(xs[..n], n - 1, v);
        assert AtMost(xs[n - 1], xs[n]);
      }
    }
  }

  lemma CountBounded(xs: seq<nat>, v: nat)
    ensures CountAtMost(xs, v) <= |xs|
  {
  }

  lemma RankBounds(n: nat, pct: nat)
    requires n > 0
    ensures 1 <= Rank(n, pct) <= n
    ensures forall c: int :: Clamp(pct) * n <= 100 * c <==> Rank(n, pct) <= c
  {
    var p := Clamp(pct);
    assert 1 <= p * n <= 100 * n by {
      assert n <= p * n;
      assert (100 - p) * n >= 0;
    }
  }

  /** v covers pct percent of the samples: at least ceil(pct/100 * n) of them are <= v. */
  ghost predicate Covers(xs: seq<nat>, pct: nat, v: nat)
  {
    Clamp(pct) * |xs| <= 100 * CountAtMost(xs, v)
  }

  /** Nearest rank: the reported value is the smallest retained sample that covers pct percent
      of the samples, whatever order the ring holds them in. */
  lemma PercentileIsNearestRank(buf: seq<nat>, pct: nat)
    requires buf != []
    ensures PercentileOf(buf, pct) in buf
    ensures Covers(buf, pct, PercentileOf(buf, pct))
    ensures forall w :: w in buf && Covers(buf, pct, w) ==> PercentileOf(buf, pct) <= w
  {
    var s := Sort(buf, AtMost);
    SortSorts(buf, AtMost);
    RankBounds(|s|, pct);
    var idx := Rank(|s|, pct) - 1;
    var v := s[idx];
    assert v in multiset(buf);
    assert PercentileOf(buf, pct) == v;
    CountPermutation(buf, s, v);
    CountSorted(s, idx, v);
    forall w | w in buf && Covers(buf, pct, w) ensures v <= w {
      CountPermutation(buf, s, w);
      CountSorted(s, idx, w);
    }
  }

  /** Percentiles see only the multiset of retained samples. */
  lemma PercentileOrderBlind(a: seq<nat>, b: seq<nat>, pct: nat)
    requires multiset(a) == multiset(b)
    ensures PercentileOf(a, pct) == PercentileOf(b, pct)
  {
    SortPermutation(a, b, AtMost);
  }

  lemma CoversWeaker(buf: seq<nat>, lo: nat, hi: nat, v: nat)
    requires lo <= hi && Covers(buf, hi, v)
    ensures Covers(buf, lo, v)
  {
    TimesMonotone(Clamp(lo), Clamp(hi), |buf|);
  }

  lemma TimesMonotone(a: nat, b: nat, n: nat)
    requires a <= b
    ensures a * n <= b * n
  {
    assert (b - a) * n >= 0;
  }

  lemma PercentileMonotone(buf: seq<nat>, lo: nat, hi: nat)
    requires lo <= hi
    ensures PercentileOf(buf, lo) <= PercentileOf(buf, hi)
  {
    if buf != [] {
      PercentileIsNearestRank(buf, lo);
      PercentileIsNearestRank(buf, hi);
      CoversWeaker(buf, lo, hi, PercentileOf(buf, hi));
    }
  }
}
