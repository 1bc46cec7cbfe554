/** The round-robin backend strategy of a frontend: one cursor over a fixed,
    non-empty sequence of backends, advanced before each pick. */
module RoundRobin {
  import opened Config

  /** The cursor after one pick over `n` backends: unchanged with a single
      backend, otherwise the next position, wrapping from the last to the first. */
  function Advance(idx: int, n: nat): (r: int)
    requires 1 <= n && 0 <= idx < n
    ensures 0 <= r < n
    ensures n == 1 ==> r == idx
    ensures n > 1 ==> r == if idx == n - 1 then 0 else idx + 1
  {
    if n == 1 then idx else (idx + 1) % n
  }

  /** The cursors after each of `k` successive picks starting from cursor
      `idx`; the j-th pick returns the backend at position `Cursors(n, idx, k)[j]`. */
  function Cursors(n: nat, idx: int, k: nat): (r: seq<int>)
    requires 1 <= n && 0 <= idx < n
    ensures |r| == k
    ensures forall j :: 0 <= j < k ==> 0 <= r[j] < n
    decreases k
  {
    if k == 0 then [] else var next := Advance(idx, n); [next] + Cursors(n, next, k - 1)
  }

  /** One more pick appends the cursor that follows the last one. */
  lemma {:induction false} CursorsSnoc(n: nat, idx: int, k: nat)
    requires 1 <= n && 0 <= idx < n
    ensures Cursors(n, idx, k + 1) ==
            Cursors(n, idx, k) + [Advance(if k == 0 then idx else Cursors(n, idx, k)[k - 1], n)]
    decreases k
  {
    if k > 0 {
      var next := Advance(idx, n);
      CursorsSnoc(n, next, k - 1);
      if k > 1 {
        assert Cursors(n, next, k - 1)[k - 2] == Cursors(n, idx, k)[k - 1];
      }
    }
  }

  /** With a single backend the cursor never moves. */
  lemma {:induction false} SingleBackendNeverAdvances(idx: int, k: nat)
    requires 0 <= idx < 1
    ensures forall j :: 0 <= j < k ==> Cursors(1, idx, k)[j] == idx
    decreases k
  {
    if k > 0 {
      SingleBackendNeverAdvances(idx, k - 1);
    }
  }

  // Arithmetic helpers for the cursor wrap-around.
  lemma MulPos(d: int, n: int)
    requires d >= 1 && n > 0
    ensures d * n >= n
  {
  }

  lemma ModUnique(z: int, n: int, q: int, r: int)
    requires n > 0 && 0 <= r < n && z == q * n + r
    ensures z % n == r
  {
    var q0, r0 := z / n, z % n;
    assert z == q0 * n + r0;
    if q0 > q {
      MulPos(q0 - q, n);
    } else if q0 < q {
      MulPos(q - q0, n);
    }
  }

  /** With more than one backend the j-th pick lands `j + 1` positions after
      the starting cursor, modulo the number of backends. */
  lemma {:induction false} CursorsAt(n: nat, idx: int, k: nat)
    requires 1 < n && 0 <= idx < n
    ensures forall j :: 0 <= j < k ==> Cursors(n, idx, k)[j] == (idx + 1 + j) % n
    decreases k
  {
    if k > 0 {
      var next := Advance(idx, n);
      CursorsAt(n, next, k - 1);
      forall j | 0 <= j < k
        ensures Cursors(n, idx, k)[j] == (idx + 1 + j) % n
      {
        if j > 0 {
          ModAddLeft(idx + 1, j, n);
        }
      }
    }
  }

  /** Reducing the left summand first does not change the remainder. */
  lemma ModAddLeft(x: nat, y: nat, n: nat)
    requires n > 0
    ensures (x % n + y) % n == (x + y) % n
  {
    var q, r := x / n, x % n;
    var q', r' := (r + y) / n, (r + y) % n;
    assert x == q * n + r;
    assert r + y == q' * n + r';
    assert x + y == (q + q') * n + r';
    ModUnique(x + y, n, q + q', r');
  }

  /** Within one full cycle the cursor wraps at most once. */
  lemma WrapOnce(x: int, n: nat)
    requires 0 < n && 0 <= x < 2 * n
    ensures x % n == if x < n then x else x - n
  {
  }

  /** Within one full cycle the j-th pick is `j + 1` positions after the
      starting cursor, wrapping past the last backend at most once. */
  lemma {:induction false} CycleCursors(n: nat, idx: int)
    requires 1 <= n && 0 <= idx < n
    ensures forall j :: 0 <= j < n ==>
              Cursors(n, idx, n)[j] == if idx + 1 + j < n then idx + 1 + j else idx + 1 + j - n
  {
    if n == 1 {
      SingleBackendNeverAdvances(idx, 1);
    } else {
      CursorsAt(n, idx, n);
      forall j | 0 <= j < n
        ensures Cursors(n, idx, n)[j] == if idx + 1 + j < n then idx + 1 + j else idx + 1 + j - n
      {
        WrapOnce(idx + 1 + j, n);
      }
    }
  }

  /** `picked` is one full cycle over `bs` from cursor `idx`: one pick per
      backend, in cyclic order from the one after the cursor, so that every
      backend is picked. */
  ghost predicate FullCycle<T>(bs: seq<T>, idx: int, picked: seq<T>) {
    && 0 <= idx < |bs|
    && |picked| == |bs|
    && (forall j :: 0 <= j < |bs| ==>
          picked[j] == bs[if idx + 1 + j < |bs| then idx + 1 + j else idx + 1 + j - |bs|])
    && (forall t :: 0 <= t < |bs| ==> bs[t] in picked)
  }

  /** A sequence that holds, at each position, the backend `j + 1` places
      after the cursor covers every backend. */
  lemma CyclicOrderCoversAll<T>(bs: seq<T>, idx: int, picked: seq<T>)
    requires 0 <= idx < |bs| && |picked| == |bs|
    requires forall j :: 0 <= j < |bs| ==>
               picked[j] == bs[if idx + 1 + j < |bs| then idx + 1 + j else idx + 1 + j - |bs|]
    ensures forall t :: 0 <= t < |bs| ==> bs[t] in picked
  {
    forall t | 0 <= t < |bs|
      ensures bs[t] in picked
    {
      var j := if t > idx then t - idx - 1 else t - idx - 1 + |bs|;
      assert picked[j] == bs[t];
    }
  }

  /** Any `n` successive picks over `n` backends return every position
      exactly once, in cyclic order from the one after the starting cursor,
      and leave the cursor where it started. */
  lemma FullCycleVisitsEachOnce(n: nat, idx: int)
    requires 1 <= n && 0 <= idx < n
    ensures forall j1, j2 :: 0 <= j1 < j2 < n ==> Cursors(n, idx, n)[j1] != Cursors(n, idx, n)[j2]
    ensures forall t :: 0 <= t < n ==> t in Cursors(n, idx, n)
    ensures Cursors(n, idx, n)[n - 1] == idx
  {
    var positions := seq(n, i => i);
    CycleCursors(n, idx);
    CyclicOrderCoversAll(positions, idx, Cursors(n, idx, n));
    forall t | 0 <= t < n
      ensures t in Cursors(n, idx, n)
    {
      assert positions[t] == t;
    }
  }

  /** The backends picked at the cursors of `|bs|` successive picks form a
      full cycle, and the cursor ends where it started. */
  lemma CycleCoversAll<T>(bs: seq<T>, idx: int, picked: seq<T>)
    requires 1 <= |bs| && 0 <= idx < |bs| && |picked| == |bs|
    requires forall j :: 0 <= j < |bs| ==> picked[j] == bs[Cursors(|bs|, idx, |bs|)[j]]
    ensures FullCycle(bs, idx, picked)
    ensures Cursors(|bs|, idx, |bs|)[|bs| - 1] == idx
  {
    var n := |bs|;
    var cs := Cursors(n, idx, n);
    CycleCursors(n, idx);
    forall j | 0 <= j < n
      ensures picked[j] == bs[if idx + 1 + j < n then idx + 1 + j else idx + 1 + j - n]
    {
      assert picked[j] == bs[cs[j]];
    }
    CyclicOrderCoversAll(bs, idx, picked);
  }

  /** The first pick of a fresh strategy (cursor 0) over several backends is
      the second backend, not the first. */
  lemma FirstPickIsSecondBackend(n: nat)
    requires 1 < n
    ensures Cursors(n, 0, 1) == [1]
  {
    WrapOnce(1, n);
  }

  /** A frontend's round-robin strategy: the backends it chooses from and the
      cursor, 0 at first and then the position of the last backend returned. */
  class RoundRobinStrategy {
    const backends: seq<Backend>
    var idx: int

    ghost predicate Valid()
      reads this
    {
      1 <= |backends| && 0 <= idx < |backends|
    }

    /** A strategy over `backends` with the cursor at zero; it is usable
        exactly when there is at least one backend. */
    constructor (backends: seq<Backend>)
      ensures this.backends == backends && idx == 0
      ensures Valid() <==> 1 <= |backends|
    {
      this.backends := backends;
      idx := 0;
    }

    /** Picks the backend for the next connection. */
    method NextBackend() returns (b: Backend)
      requires Valid()
      modifies this`idx
      ensures Valid()
      ensures idx == Advance(old(idx), |backends|)
      ensures b == backends[idx] && b in backends
      ensures |backends| == 1 ==> b == backends[0] && idx == old(idx)
    {
      var n := |backends|;
      if n == 1 {
        b := backends[0];
      } else {
        idx := (idx + 1) % n;
        b := backends[idx];
      }
    }

    /** The backends picked for `k` successive connections of the frontend,
        each asking for one backend. */
    method NextBackends(k: nat) returns (picked: seq<Backend>)
      requires Valid()
      modifies this`idx
      ensures Valid()
      ensures |picked| == k
      ensures forall j :: 0 <= j < k ==> picked[j] == backends[Cursors(|backends|, old(idx), k)[j]]
      ensures idx == if k == 0 then old(idx) else Cursors(|backends|, old(idx), k)[k - 1]
    {
      picked := [];
      var i := 0;
      while i < k
        invariant 0 <= i <= k && Valid()
        invariant |picked| == i
        invariant forall j :: 0 <= j < i ==> picked[j] == backends[Cursors(|backends|, old(idx), i)[j]]
        invariant idx == if i == 0 then old(idx) else Cursors(|backends|, old(idx), i)[i - 1]
      {
        CursorsSnoc(|backends|, old(idx), i);
        var b := NextBackend();
        picked := picked + [b];
        i := i + 1;
      }
    }

    /** One full cycle: as many successive connections as there are backends
        get every backend, in cyclic order from the one after the cursor, and
        the cursor ends where it started. */
    method NextCycle() returns (picked: seq<Backend>)
      requires Valid()
      modifies this`idx
      ensures Valid() && idx == old(idx)
      ensures FullCycle(backends, old(idx), picked)
    {
      ghost var start := idx;
      var n := |backends|;
      picked := NextBackends(n);
      CycleCoversAll(backends, start, picked);
    }
  }

  /** Two connections to a frontend with backends `[b1, b2]`: the first goes
      to `b2`, the second to `b1`. */
  method TwoBackendScenario(b1: Backend, b2: Backend) returns (first: Backend, second: Backend)
    ensures first == b2 && second == b1
  {
    var s := new RoundRobinStrategy([b1, b2]);
    first := s.NextBackend();
    second := s.NextBackend();
  }
}
