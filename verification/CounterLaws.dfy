/**
 What the counters count when their calls are atomic. A replay makes one call (or one request's pair of calls) at
 each of a sequence of times, on a key that starts absent, and collects what the calls return.
 */
module CounterLaws {
  import opened Wrappers
  import opened RedisStore
  import opened RedisStateService

  datatype Replay = Replay(store: Store, counts: seq<int>)

  ghost predicate Sorted(ts: seq<int>) {
    forall i, j :: 0 <= i <= j < |ts| ==> ts[i] <= ts[j]
  }

  // ---------- Fixed window against sliding log ----------

  function ReplayWindow(start: Store, k: string, window: int, ts: seq<int>): (r: Replay)
    requires k !in start.db
    ensures |r.counts| == |ts| && (k in r.store.db ==> r.store.db[k].value.Num?)
  {
    if ts == [] then Replay(start, [])
    else
      var before := ReplayWindow(start, k, window, ts[..|ts| - 1]);
      var st := before.store.(now := ts[|ts| - 1]);
      Replay(WindowCall(st, k, window, |ts| - 1, Ten), before.counts + [NextCount(st, k)])
  }

  // The last count is the number of calls since the window opened; the window opened at the first of them, and at
  // least one full window after the previous one did.
  ghost predicate WindowShape(ts: seq<int>, counts: seq<int>, window: int) {
    var n := |ts|;
    n > 0 && |counts| == n
    && var c := counts[n - 1];
       && 1 <= c <= n && ts[n - 1] < ts[n - c] + window
       && (c < n ==> 1 <= counts[n - c - 1] <= n - c && ts[n - c - counts[n - c - 1]] + window <= ts[n - c])
  }

  lemma {:induction false} WindowState(start: Store, k: string, window: int, ts: seq<int>)
    requires k !in start.db && window > 0 && Sorted(ts) && ts != []
    ensures var r := ReplayWindow(start, k, window, ts);
            && WindowShape(ts, r.counts, window) && k in r.store.db
            && r.store.db[k].value == Num(r.counts[|ts| - 1])
            && r.store.db[k].deadline == Some(ts[|ts| - r.counts[|ts| - 1]] + window)
  {
    var rest := ts[..|ts| - 1];
    if rest == [] {
      assert ReplayWindow(start, k, window, rest) == Replay(start, []);
    } else {
      WindowState(start, k, window, rest);
    }
  }

  // How many events are later than `lo`.
  function Later(ts: seq<int>, lo: int): nat {
    if ts == [] then 0 else Later(ts[..|ts| - 1], lo) + if ts[|ts| - 1] > lo then 1 else 0
  }

  lemma {:induction false} LaterSplit(ts: seq<int>, m: nat, lo: int)
    requires m <= |ts|
    ensures (forall i :: m <= i < |ts| ==> ts[i] > lo) ==> Later(ts, lo) >= |ts| - m
    ensures (forall i :: 0 <= i < m ==> ts[i] <= lo) ==> Later(ts, lo) <= |ts| - m
  {
    if ts != [] {
      if m < |ts| {
        LaterSplit(ts[..|ts| - 1], m, lo);
      } else {
        LaterSplit(ts[..|ts| - 1], m - 1, lo);
      }
    }
  }

  // The returned count never exceeds the number of calls in the trailing window, and that number never exceeds the
  // count plus what the previous window had reached.
  lemma {:induction false} FixedWindowAgainstSlidingLog(start: Store, k: string, window: int, ts: seq<int>)
    requires k !in start.db && window > 0 && Sorted(ts) && ts != []
    ensures var counts, n := ReplayWindow(start, k, window, ts).counts, |ts|;
            && 1 <= counts[n - 1] <= n
            && counts[n - 1] <= Later(ts, ts[n - 1] - window)
            && Later(ts, ts[n - 1] - window)
               <= counts[n - 1] + if counts[n - 1] < n then counts[n - counts[n - 1] - 1] else 0
  {
    WindowState(start, k, window, ts);
    var counts, n := ReplayWindow(start, k, window, ts).counts, |ts|;
    var c, lo := counts[n - 1], ts[n - 1] - window;
    LaterSplit(ts, n - c, lo);
    if c < n {
      LaterSplit(ts, n - c - counts[n - c - 1], lo);
    } else {
      LaterSplit(ts, 0, lo);
    }
  }

  // The count is exactly the sliding window's number if and only if it is the first window, or the last call before
  // this window has left the trailing window.
  lemma {:induction false} FixedWindowIsSlidingLogWhen(start: Store, k: string, window: int, ts: seq<int>)
    requires k !in start.db && window > 0 && Sorted(ts) && ts != []
    ensures var counts, n := ReplayWindow(start, k, window, ts).counts, |ts|;
            && 1 <= counts[n - 1] <= n
            && (counts[n - 1] == Later(ts, ts[n - 1] - window) <==>
                  counts[n - 1] == n || ts[n - counts[n - 1] - 1] <= ts[n - 1] - window)
  {
    WindowState(start, k, window, ts);
    var counts, n := ReplayWindow(start, k, window, ts).counts, |ts|;
    var c, lo := counts[n - 1], ts[n - 1] - window;
    LaterSplit(ts, n - c, lo);
    if c < n && ts[n - c - 1] > lo {
      LaterSplit(ts, n - c - 1, lo);
    }
  }

  // The two differ on three calls around the boundary of any window longer than one millisecond.
  lemma FixedWindowDiffers(start: Store, k: string, window: int)
    requires k !in start.db && window > 1
    ensures var ts := [0, window - 1, window];
            ReplayWindow(start, k, window, ts).counts == [1, 2, 1] && Later(ts, window - window) == 2
  {
    var ts := [0, window - 1, window];
    assert ts[..2] == [0, window - 1] && ts[..2][..1] == [0] && ts[..2][..1][..0] == [];
    var r0 := ReplayWindow(start, k, window, []);
    var r1 := ReplayWindow(start, k, window, [0]);
    assert [0][..0] == [];
    assert r1.counts == [1] && r1.store.db[k] == Entry(Num(1), Some(window), r1.store.db[k].inc);
    var r2 := ReplayWindow(start, k, window, [0, window - 1]);
    assert [0, window - 1][..1] == [0];
    assert r2.counts == [1, 2] && r2.store.db[k].deadline == Some(window);
    assert Later([], 0) == 0 && Later([0], 0) == 0 && Later([0, window - 1], 0) == 1;
  }

  // ---------- The streak ----------

  function ReplayStreak(start: Store, k: string, ts: seq<int>): (r: Replay)
    requires k !in start.db
    ensures |r.counts| == |ts| && (k in r.store.db ==> r.store.db[k].value.Num?)
  {
    if ts == [] then Replay(start, [])
    else
      var before := ReplayStreak(start, k, ts[..|ts| - 1]);
      var st := before.store.(now := ts[|ts| - 1]);
      Replay(StreakCall(st, k, |ts| - 1), before.counts + [NextCount(st, k)])
  }

  // The last m requests follow each other by less than fifteen minutes.
  ghost predicate CloseSuffix(ts: seq<int>, m: int) {
    m <= |ts| && forall i :: |ts| - m < i < |ts| && 0 < i ==> ts[i] - ts[i - 1] < 900_000
  }

  lemma {:induction false} StreakState(start: Store, k: string, ts: seq<int>)
    requires k !in start.db && Sorted(ts) && ts != []
    ensures var r, n := ReplayStreak(start, k, ts), |ts|;
            && k in r.store.db && r.store.db[k].value == Num(r.counts[n - 1])
            && r.store.db[k].deadline == Some(ts[n - 1] + FIFTEEN_MINUTES)
            && 1 <= r.counts[n - 1] <= n && CloseSuffix(ts, r.counts[n - 1])
            && (r.counts[n - 1] < n ==>
                  ts[n - r.counts[n - 1]] - ts[n - r.counts[n - 1] - 1] >= FIFTEEN_MINUTES)
  {
    var rest := ts[..|ts| - 1];
    if rest == [] {
      assert ReplayStreak(start, k, rest) == Replay(start, []);
    } else {
      StreakState(start, k, rest);
    }
  }

  // The returned streak is the length of the longest suffix of the identity's requests whose gaps are all shorter
  // than fifteen minutes, whether or not any of them failed to authenticate.
  lemma {:induction false} StreakCountsRecentActivity(start: Store, k: string, ts: seq<int>)
    requires k !in start.db && Sorted(ts) && ts != []
    ensures var streak := ReplayStreak(start, k, ts).counts[|ts| - 1];
            && 1 <= streak && CloseSuffix(ts, streak)
            && forall m :: streak < m <= |ts| ==> !CloseSuffix(ts, m)
  {
    StreakState(start, k, ts);
    var streak, n := ReplayStreak(start, k, ts).counts[|ts| - 1], |ts|;
    forall m | streak < m <= n
      ensures !CloseSuffix(ts, m)
    {
      assert ts[n - streak] - ts[n - streak - 1] >= FIFTEEN_MINUTES;
    }
  }

  // ---------- The shared window key ----------

  // Each request makes its ten-second and its sixty-second call on the same key, at one instant.
  datatype PairReplay = PairReplay(store: Store, rates: seq<(int, int)>)

  function ReplayShared(start: Store, k: string, ts: seq<int>): (r: PairReplay)
    requires k !in start.db
    ensures |r.rates| == |ts| && (k in r.store.db ==> r.store.db[k].value.Num?)
  {
    if ts == [] then PairReplay(start, [])
    else
      var before := ReplayShared(start, k, ts[..|ts| - 1]);
      var st := before.store.(now := ts[|ts| - 1]);
      var mid := WindowCall(st, k, TEN_SECONDS, |ts| - 1, Ten);
      PairReplay(WindowCall(mid, k, SIXTY_SECONDS, |ts| - 1, Sixty),
                 before.rates + [(NextCount(st, k), NextCount(mid, k))])
  }

  // The q-th request of a window sees 2q - 1 and 2q, and every window is the ten-second one of its first request.
  ghost predicate SharedShape(r: PairReplay, k: string, ts: seq<int>, q: int) {
    var n := |ts|;
    && n > 0 && |r.rates| == n && 1 <= q <= n && r.rates[n - 1] == (2 * q - 1, 2 * q)
    && k in r.store.db && r.store.db[k].value == Num(2 * q)
    && r.store.db[k].deadline == Some(ts[n - q] + TEN_SECONDS)
    && ts[n - 1] < ts[n - q] + TEN_SECONDS
    && (q < n ==> ts[n - q] >= ts[n - q - 1] && r.rates[n - q].0 == 1)
  }

  lemma {:induction false} SharedKeyCounting(start: Store, k: string, ts: seq<int>) returns (q: int)
    requires k !in start.db && Sorted(ts) && ts != []
    ensures SharedShape(ReplayShared(start, k, ts), k, ts, q)
  {
    var rest := ts[..|ts| - 1];
    var r := ReplayShared(start, k, ts);
    if rest == [] {
      assert ReplayShared(start, k, rest) == PairReplay(start, []);
      q := 1;
    } else {
      var p := SharedKeyCounting(start, k, rest);
      q := if ts[|ts| - 1] < ts[|rest| - p] + TEN_SECONDS then p + 1 else 1;
    }
  }

  // Requests inside [a, a + 10s) whose ten-second rate is at most the threshold.
  function Escapes(ts: seq<int>, rates: seq<(int, int)>, a: int, threshold: int): nat
    requires |ts| == |rates|
  {
    if ts == [] then 0
    else
      var n := |ts| - 1;
      Escapes(ts[..n], rates[..n], a, threshold)
      + if a <= ts[n] < a + 10_000 && rates[n].0 <= threshold then 1 else 0
  }

  // Another request either joins the open window or opens the next one, ten seconds or more after it.
  lemma NextShared(start: Store, k: string, ts: seq<int>, p: int, q: int)
    requires k !in start.db && Sorted(ts) && |ts| > 1
    requires SharedShape(ReplayShared(start, k, ts[..|ts| - 1]), k, ts[..|ts| - 1], p)
    requires SharedShape(ReplayShared(start, k, ts), k, ts, q)
    ensures (q == p + 1) || (q == 1 && ts[|ts| - 1 - p] + TEN_SECONDS <= ts[|ts| - 1])
  {
  }

  // The last request is the q-th of its window, which was opened at `born`, and e requests have escaped.
  ghost predicate Standing(start: Store, k: string, ts: seq<int>, a: int, threshold: nat, q: int, born: int, e: nat)
    requires k !in start.db
  {
    && Sorted(ts) && ts != [] && SharedShape(ReplayShared(start, k, ts), k, ts, q) && born == ts[|ts| - q]
    && Escapes(ts, ReplayShared(start, k, ts).rates, a, threshold) == e
  }

  lemma FirstRequest(start: Store, k: string, t: int, a: int, threshold: nat)
    requires k !in start.db
    ensures Standing(start, k, [t], a, threshold, 1, t, if a <= t < a + TEN_SECONDS && 1 <= threshold then 1 else 0)
  {
    var q := SharedKeyCounting(start, k, [t]);
    var first := ReplayShared(start, k, [t]);
    assert Escapes([t][..0], first.rates[..0], a, threshold) == 0;
  }

  // One more request, in the open window or behind it.
  lemma OneMoreRequest(start: Store, k: string, ts: seq<int>, a: int, threshold: nat, p: int, born: int, e: nat, t: int)
    returns (q: int, born': int, e': nat)
    requires k !in start.db && Standing(start, k, ts, a, threshold, p, born, e) && ts[|ts| - 1] <= t
    ensures if t < born + TEN_SECONDS then q == p + 1 && born' == born else q == 1 && born' == t
    ensures e' == e + if a <= t < a + TEN_SECONDS && 2 * q - 1 <= threshold then 1 else 0
    ensures Standing(start, k, ts + [t], a, threshold, q, born', e')
  {
    var more := ts + [t];
    assert more[..|ts|] == ts;
    q := SharedKeyCounting(start, k, more);
    NextShared(start, k, more, p, q);
    var r := ReplayShared(start, k, more);
    assert r.rates[..|ts|] == ReplayShared(start, k, ts).rates;
    born', e' := more[|more| - q], Escapes(more, r.rates, a, threshold);
  }

  ghost predicate EscapeBound(e: int, a: int, born: int, q: int, limit: int) {
    e <= if born < a then Max(Min(q, limit) - 1, 0)
         else if born < a + TEN_SECONDS then Max(limit - 1, 0) + Min(q, limit)
         else Max(2 * limit - 1, 0)
  }

  lemma EscapeStep(e: int, a: int, born: int, p: int, before: int, t: int, born': int, q: int, limit: nat, low: bool)
    requires EscapeBound(e, a, born, p, limit) && 1 <= p && born <= before <= t && (before < a ==> e == 0)
    requires (q == p + 1 && born' == born) || (q == 1 && born' == t && born + TEN_SECONDS <= t)
    requires low ==> a <= t < a + TEN_SECONDS && q <= limit
    ensures EscapeBound(e + if low then 1 else 0, a, born', q, limit)
  {
  }

  // `limit` is the share of one window: the requests it counts at most T.
  lemma {:induction false} EscapesByWindow(start: Store, k: string, ts: seq<int>, a: int, threshold: nat, limit: nat)
    returns (q: int, born: int, e: nat)
    requires k !in start.db && Sorted(ts) && ts != [] && 2 * limit - 1 <= threshold <= 2 * limit
    ensures Standing(start, k, ts, a, threshold, q, born, e) && 1 <= q && born <= ts[|ts| - 1]
    ensures (ts[|ts| - 1] < a ==> e == 0) && EscapeBound(e, a, born, q, limit)
  {
    var rest, t := ts[..|ts| - 1], ts[|ts| - 1];
    if rest == [] {
      FirstRequest(start, k, t, a, threshold);
      assert ts == [t];
      q, born, e := 1, t, if a <= t < a + TEN_SECONDS && 1 <= threshold then 1 else 0;
    } else {
      var p, since, before := EscapesByWindow(start, k, rest, a, threshold, limit);
      assert ts == rest + [t];
      q, born, e := OneMoreBounded(start, k, rest, a, threshold, limit, p, since, before, t);
    }
  }

  lemma OneMoreBounded(start: Store, k: string, ts: seq<int>, a: int, threshold: nat, limit: nat,
                       p: int, since: int, before: nat, t: int)
    returns (q: int, born: int, e: nat)
    requires k !in start.db && Standing(start, k, ts, a, threshold, p, since, before) && since <= ts[|ts| - 1] <= t
    requires 1 <= p && 2 * limit - 1 <= threshold <= 2 * limit
    requires (ts[|ts| - 1] < a ==> before == 0) && EscapeBound(before, a, since, p, limit)
    ensures Standing(start, k, ts + [t], a, threshold, q, born, e) && 1 <= q && born <= t
    ensures (t < a ==> e == 0) && EscapeBound(e, a, born, q, limit)
  {
    q, born, e := OneMoreRequest(start, k, ts, a, threshold, p, since, before, t);
    EscapeStep(before, a, since, p, ts[|ts| - 1], t, born, q, limit,
               a <= t < a + TEN_SECONDS && 2 * q - 1 <= threshold);
  }

  // With whole requests atomic, at most 2·floor((T + 1) / 2) - 1 <= T of them escape in any ten seconds.
  lemma SharedKeyEscapes(start: Store, k: string, ts: seq<int>, a: int, threshold: nat)
    requires k !in start.db && Sorted(ts)
    ensures Escapes(ts, ReplayShared(start, k, ts).rates, a, threshold)
         <= Max(2 * ((threshold + 1) / 2) - 1, 0) <= threshold
  {
    if ts != [] {
      var q, born, e := EscapesByWindow(start, k, ts, a, threshold, (threshold + 1) / 2);
    }
  }

  // n more requests at one instant of the open window, all within the threshold.
  lemma {:induction false} ManyMoreRequests(start: Store, k: string, ts: seq<int>, a: int, threshold: nat, p: int,
                                            born: int, e: nat, t: int, n: nat) returns (all: seq<int>)
    requires k !in start.db && Standing(start, k, ts, a, threshold, p, born, e)
    requires ts[|ts| - 1] <= t < born + TEN_SECONDS && a <= t < a + TEN_SECONDS && 2 * (p + n) - 1 <= threshold
    ensures Standing(start, k, all, a, threshold, p + n, born, e + n) && all[|all| - 1] <= t
  {
    all := ts;
    if n > 0 {
      var before := ManyMoreRequests(start, k, ts, a, threshold, p, born, e, t, n - 1);
      var q, same, more := OneMoreRequest(start, k, before, a, threshold, p + n - 1, born, e + n - 1, t);
      all := before + [t];
    }
  }

  // The bound is reached for every positive threshold: one request at 0, the rest of its window's share just before
  // 10s, the next window's share at 10s.
  lemma SharedKeyEscapesReached(start: Store, k: string, threshold: nat) returns (ts: seq<int>)
    requires k !in start.db && threshold >= 1
    ensures Sorted(ts) && Escapes(ts, ReplayShared(start, k, ts).rates, 1, threshold) == 2 * ((threshold + 1) / 2) - 1
  {
    ts := TwoShares(start, k, threshold, (threshold + 1) / 2);
  }

  lemma TwoShares(start: Store, k: string, threshold: nat, share: nat) returns (ts: seq<int>)
    requires k !in start.db && share >= 1 && 2 * share - 1 <= threshold
    ensures Standing(start, k, ts, 1, threshold, share, TEN_SECONDS, 2 * share - 1)
  {
    FirstRequest(start, k, 0, 1, threshold);
    var first := ManyMoreRequests(start, k, [0], 1, threshold, 1, 0, 0, TEN_SECONDS - 1, share - 1);
    var q, born, e := OneMoreRequest(start, k, first, 1, threshold, share, 0, share - 1, TEN_SECONDS);
    ts := first + [TEN_SECONDS];
    ts := ManyMoreRequests(start, k, ts, 1, threshold, 1, TEN_SECONDS, share, TEN_SECONDS, share - 1);
  }

  // When time d passes between a request's two calls the law can fail: the second call opens a sixty-second window on
  // the counter the ten-second threshold looks at exactly when the first left the key no more than d to live.
  lemma SixtySecondWindowExactly(st: Store, k: string, d: nat)
    requires k in st.db ==> st.db[k].value.Num? && st.db[k].value.n >= 1 && st.db[k].deadline.Some?
    ensures var first := WindowCall(st, k, TEN_SECONDS, 0, Ten);
            var later := Advance(first, d);
            && first.db[k].deadline.Some? && first.db[k].value.Num?
            && var second := WindowCall(later, k, SIXTY_SECONDS, 0, Sixty);
               && (NextCount(later, k) == 1 <==> first.db[k].deadline.value - first.now <= d)
               && (NextCount(later, k) == 1 ==> second.db[k].deadline == Some(later.now + 60_000))
               && (NextCount(later, k) != 1 ==> second.db[k].deadline == first.db[k].deadline)
  {
  }
}
