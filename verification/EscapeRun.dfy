/**
 The bound on unscored requests is reached: for every threshold there is a run with exactly as many as `BoundedEscape`
 allows. One request opens a window, the rest of the window's share comes just before it closes, and the whole share
 of the next window comes as soon as it has closed.
 */
module EscapeRun {
  import opened Wrappers
  import opened RedisStore
  import opened CounterHistory
  import opened GatewaySignal
  import opened RedisStateService
  import opened Enforcement
  import opened CounterTheorems
  import opened Executions

  // `k` has handed out n in a window open until d.
  predicate InWindow(st: Store, k: string, n: int, d: int) {
    k in st.db && st.db[k].value == Num(n) && n >= 1 && st.db[k].deadline == Some(d) && st.now < d
  }

  // A reachable state with nobody blocked for this ip.
  ghost predicate Reached(cfg: Config, req: Request, acts: seq<Action>, s: State) {
    Exec(cfg, Start(0), acts) == Some(s) && StoreInv(s.store) && BlockKey(req.ip) !in s.store.db
  }

  // The request r has made its ten-second call at time `at`, with a count within the threshold, and no other call.
  ghost predicate Waiting(cfg: Config, req: Request, s: State, r: nat, at: int) {
    && r < |s.flights|
    && var f := s.flights[r];
       && f == NewFlight(req).(phase := Counting, cleared := f.cleared, ten := f.ten)
       && CountedAt(cfg, s, f, at)
  }

  ghost predicate CountedAt(cfg: Config, s: State, f: Flight, at: int) {
    && f.ten.Returned? && f.ten.n <= cfg.rateEscalationThreshold
    && f.ten.at < |s.store.hits| && s.store.hits[f.ten.at].time == at
  }

  ghost predicate Escaped(cfg: Config, req: Request, s: State, r: nat, at: int) {
    && r < |s.flights| && s.flights[r].req == req && s.flights[r].forwards == 1 && s.flights[r].answer.None?
    && CountedAt(cfg, s, s.flights[r], at)
  }

  // Requests only came along, the history only grew, and the clock stood still.
  ghost predicate Later(s: State, t: State) {
    s.flights <= t.flights && s.store.hits <= t.store.hits && t.store.now == s.store.now
  }

  // ---------- One request ----------

  lemma Enter(cfg: Config, req: Request, before: seq<Action>, s: State) returns (acts: seq<Action>, t: State)
    requires Reached(cfg, req, before, s) && Admitted(req)
    ensures Reached(cfg, req, acts, t)
    ensures t == s.(flights := s.flights + [NewFlight(req).(phase := Counting, cleared := Some(s.store.now))])
  {
    var r := |s.flights|;
    ExecOneMore(cfg, Start(0), before, s, Arrive(req));
    acts, t := before + [Arrive(req)], Step(cfg, s, Arrive(req));
    ExecOneMore(cfg, Start(0), acts, t, Authenticate(r));
    acts, t := acts + [Authenticate(r)], Step(cfg, t, Authenticate(r));
    ExecOneMore(cfg, Start(0), acts, t, Check(r));
    acts, t := acts + [Check(r)], Step(cfg, t, Check(r));
  }

  // A request arrives and makes its ten-second call.
  lemma Join(cfg: Config, req: Request, before: seq<Action>, s: State, n: int, d: int)
    returns (acts: seq<Action>, t: State)
    requires Reached(cfg, req, before, s) && Admitted(req)
    requires var k := CounterKey(cfg, req, Ten);
             (InWindow(s.store, k, n, d) || (!Live(s.store, k) && n == 0 && d == s.store.now + TEN_SECONDS))
    requires n < cfg.rateEscalationThreshold
    ensures Reached(cfg, req, acts, t) && Later(s, t) && |t.flights| == |s.flights| + 1
    ensures Waiting(cfg, req, t, |s.flights|, s.store.now)
    ensures InWindow(t.store, CounterKey(cfg, req, Ten), n + 1, d)
  {
    var m;
    acts, m := Enter(cfg, req, before, s);
    acts, t := CallAlone(cfg, Start(0), acts, m, |s.flights|, Ten);
    JoinCounts(s.store, CounterKey(cfg, req, Ten), |s.flights|, n, d);
    assert t.flights[..|s.flights|] == s.flights;
    assert BlockKey(req.ip) != CounterKey(cfg, req, Ten);
  }

  lemma JoinCounts(st: Store, k: string, rid: nat, n: int, d: int)
    requires InWindow(st, k, n, d) || (!Live(st, k) && n == 0 && d == st.now + TEN_SECONDS)
    ensures NextCount(st, k) == n + 1
    ensures var t := WindowCall(st, k, TEN_SECONDS, rid, Ten);
            && InWindow(t, k, n + 1, d) && t.now == st.now && |t.hits| == |st.hits| + 1 && st.hits <= t.hits
            && t.hits[|st.hits|].time == st.now && (forall j :: j != k ==> (j in t.db <==> j in st.db))
  {
  }

  // The remaining calls, the publish and the forward of a waiting request.
  lemma Finish(cfg: Config, req: Request, before: seq<Action>, s: State, r: nat, at: int, n: int, d: int)
    returns (acts: seq<Action>, t: State, n': int)
    requires Reached(cfg, req, before, s) && Waiting(cfg, req, s, r, at) && !HighRiskPath(cfg, req.path)
    requires InWindow(s.store, CounterKey(cfg, req, Ten), n, d)
    ensures Reached(cfg, req, acts, t) && Escaped(cfg, req, t, r, at)
    ensures |t.flights| == |s.flights| && t.flights == s.flights[r := t.flights[r]]
    ensures s.store.hits <= t.store.hits && t.store.now == s.store.now
    ensures InWindow(t.store, CounterKey(cfg, req, Ten), n', d)
  {
    acts, t, n' := FinishCounts(cfg, req, before, s, r, n, d);
    var m := t;
    ExecOneMore(cfg, Start(0), acts, t, Publish(r, true));
    acts, t := acts + [Publish(r, true)], Step(cfg, t, Publish(r, true));
    ExecOneMore(cfg, Start(0), acts, t, Route(r));
    acts, t := acts + [Route(r)], Step(cfg, t, Route(r));
    assert t.flights == m.flights[r := t.flights[r]];
  }

  lemma FinishCounts(cfg: Config, req: Request, before: seq<Action>, s: State, r: nat, n: int, d: int)
    returns (acts: seq<Action>, t: State, n': int)
    requires Reached(cfg, req, before, s) && InPhase(s, r, Counting) && s.flights[r].req == req
    requires s.flights[r].ten.Returned? && s.flights[r].sixty.Idle? && s.flights[r].streak.Idle?
    requires InWindow(s.store, CounterKey(cfg, req, Ten), n, d)
    ensures Reached(cfg, req, acts, t) && r < |t.flights| && AllReturned(t.flights[r])
    ensures t.flights == s.flights[r := s.flights[r].(sixty := t.flights[r].sixty, streak := t.flights[r].streak)]
    ensures s.store.hits <= t.store.hits && t.store.now == s.store.now
    ensures InWindow(t.store, CounterKey(cfg, req, Ten), n', d)
  {
    var k, j := CounterKey(cfg, req, Ten), CounterKey(cfg, req, Sixty);
    acts, t := CallAlone(cfg, Start(0), before, s, r, Sixty);
    SixtyInWindow(cfg, req, s.store, r, n, d);
    n' := t.store.db[k].value.n;
    var m := t;
    acts, t := CallAlone(cfg, Start(0), acts, m, r, Streak);
    StreakInWindow(cfg, req, m.store, r, n', d);
  }

  // The sixty-second call counts on in the same window or on another key.
  lemma SixtyInWindow(cfg: Config, req: Request, st: Store, r: nat, n: int, d: int)
    requires InWindow(st, CounterKey(cfg, req, Ten), n, d) && Countable(st, CounterKey(cfg, req, Sixty))
    requires BlockKey(req.ip) !in st.db
    ensures var k, t := CounterKey(cfg, req, Ten), WindowCall(st, CounterKey(cfg, req, Sixty), SIXTY_SECONDS, r, Sixty);
            && k in t.db && t.db[k].value.Num? && InWindow(t, k, t.db[k].value.n, d)
            && BlockKey(req.ip) !in t.db && st.hits <= t.hits && t.now == st.now
  {
    var c := CountKey(req.ip, req.path);
    if !cfg.shared {
      assert (c + ":10")[|c| + 1] == '1' && (c + ":60")[|c| + 1] == '6';
    }
  }

  lemma StreakInWindow(cfg: Config, req: Request, st: Store, r: nat, n: int, d: int)
    requires InWindow(st, CounterKey(cfg, req, Ten), n, d) && Countable(st, CounterKey(cfg, req, Streak))
    requires BlockKey(req.ip) !in st.db
    ensures var t := StreakCall(st, CounterKey(cfg, req, Streak), r);
            && InWindow(t, CounterKey(cfg, req, Ten), n, d)
            && BlockKey(req.ip) !in t.db && st.hits <= t.hits && t.now == st.now
  {
  }

  // ---------- Many requests ----------

  // `more` requests join the window that has handed out n.
  lemma {:induction false} JoinMany(cfg: Config, req: Request, before: seq<Action>, s: State, n: int, d: int, more: nat)
    returns (acts: seq<Action>, t: State)
    requires Reached(cfg, req, before, s) && Admitted(req)
    requires InWindow(s.store, CounterKey(cfg, req, Ten), n, d) && n + more <= cfg.rateEscalationThreshold
    ensures Reached(cfg, req, acts, t) && Later(s, t) && |t.flights| == |s.flights| + more
    ensures forall r :: |s.flights| <= r < |t.flights| ==> Waiting(cfg, req, t, r, s.store.now)
    ensures InWindow(t.store, CounterKey(cfg, req, Ten), n + more, d)
    decreases more
  {
    acts, t := before, s;
    if more > 0 {
      var m;
      acts, m := Join(cfg, req, before, s, n, d);
      acts, t := JoinMany(cfg, req, acts, m, n + 1, d, more - 1);
      StillWaiting(cfg, req, m, t, |s.flights|, s.store.now);
    }
  }

  lemma StillWaiting(cfg: Config, req: Request, s: State, t: State, r: nat, at: int)
    requires Waiting(cfg, req, s, r, at) && s.store.hits <= t.store.hits
    requires r < |t.flights| && t.flights[r] == s.flights[r]
    ensures Waiting(cfg, req, t, r, at)
  {
  }

  lemma StillEscaped(cfg: Config, req: Request, s: State, t: State, r: nat, at: int)
    requires Escaped(cfg, req, s, r, at) && s.store.hits <= t.store.hits
    requires r < |t.flights| && t.flights[r] == s.flights[r]
    ensures Escaped(cfg, req, t, r, at)
  {
  }

  // Before position `from` everyone has escaped, behind it everyone waits; `when` says when each was counted.
  ghost predicate Progress(cfg: Config, req: Request, s: State, from: nat, when: seq<int>) {
    && |s.flights| == |when| && from <= |when|
    && (forall r :: 0 <= r < from ==> Escaped(cfg, req, s, r, when[r]))
    && (forall r :: from <= r < |when| ==> Waiting(cfg, req, s, r, when[r]))
  }

  lemma {:induction false} FinishMany(cfg: Config, req: Request, before: seq<Action>, s: State, from: nat,
                                      when: seq<int>, n: int, d: int)
    returns (acts: seq<Action>, t: State, n': int)
    requires Reached(cfg, req, before, s) && Progress(cfg, req, s, from, when) && !HighRiskPath(cfg, req.path)
    requires InWindow(s.store, CounterKey(cfg, req, Ten), n, d)
    ensures Reached(cfg, req, acts, t) && Progress(cfg, req, t, |when|, when) && t.store.now == s.store.now
    ensures InWindow(t.store, CounterKey(cfg, req, Ten), n', d)
    decreases |when| - from
  {
    acts, t, n' := before, s, n;
    if from < |when| {
      var m;
      acts, m, n' := Finish(cfg, req, before, s, from, when[from], n, d);
      FinishProgress(cfg, req, s, m, from, when);
      acts, t, n' := FinishMany(cfg, req, acts, m, from + 1, when, n', d);
    }
  }

  lemma FinishProgress(cfg: Config, req: Request, s: State, t: State, from: nat, when: seq<int>)
    requires Progress(cfg, req, s, from, when) && from < |when| && Escaped(cfg, req, t, from, when[from])
    requires |t.flights| == |s.flights| && t.flights == s.flights[from := t.flights[from]]
    requires s.store.hits <= t.store.hits
    ensures Progress(cfg, req, t, from + 1, when)
  {
    forall r | 0 <= r < from
      ensures Escaped(cfg, req, t, r, when[r])
    {
      StillEscaped(cfg, req, s, t, r, when[r]);
    }
    forall r | from < r < |when|
      ensures Waiting(cfg, req, t, r, when[r])
    {
      StillWaiting(cfg, req, s, t, r, when[r]);
    }
  }

  // ---------- The run ----------

  function Times(n: nat, at: int): (ts: seq<int>)
    ensures |ts| == n && forall i :: 0 <= i < n ==> ts[i] == at
  {
    seq(n, _ => at)
  }

  lemma Wait(cfg: Config, req: Request, before: seq<Action>, s: State, d: nat) returns (acts: seq<Action>, t: State)
    requires Reached(cfg, req, before, s)
    ensures Reached(cfg, req, acts, t) && t == s.(store := Advance(s.store, d))
  {
    ExecOneMore(cfg, Start(0), before, s, Tick(d));
    StepKeepsStore(cfg, s, Tick(d));
    acts, t := before + [Tick(d)], Step(cfg, s, Tick(d));
  }

  // More requests join behind those there are.
  lemma JoinProgress(cfg: Config, req: Request, s: State, t: State, from: nat, when: seq<int>, more: nat)
    requires Progress(cfg, req, s, from, when) && Later(s, t) && |t.flights| == |when| + more
    requires forall r :: |when| <= r < |t.flights| ==> Waiting(cfg, req, t, r, s.store.now)
    ensures Progress(cfg, req, t, from, when + Times(more, s.store.now))
  {
    var later := when + Times(more, s.store.now);
    forall r | 0 <= r < from
      ensures Escaped(cfg, req, t, r, later[r])
    {
      StillEscaped(cfg, req, s, t, r, when[r]);
    }
    forall r | from <= r < |later|
      ensures Waiting(cfg, req, t, r, later[r])
    {
      if r < |when| {
        StillWaiting(cfg, req, s, t, r, when[r]);
      }
    }
  }

  // A request opens a window on a closed counter.
  lemma OpenWindow(cfg: Config, req: Request, before: seq<Action>, s: State, when: seq<int>)
    returns (acts: seq<Action>, t: State)
    requires Reached(cfg, req, before, s) && Admitted(req) && !Live(s.store, CounterKey(cfg, req, Ten))
    requires cfg.rateEscalationThreshold >= 1 && Progress(cfg, req, s, |when|, when)
    ensures Reached(cfg, req, acts, t) && t.store.now == s.store.now
    ensures Progress(cfg, req, t, |when|, when + [s.store.now])
    ensures InWindow(t.store, CounterKey(cfg, req, Ten), 1, s.store.now + TEN_SECONDS)
  {
    acts, t := Join(cfg, req, before, s, 0, s.store.now + TEN_SECONDS);
    JoinProgress(cfg, req, s, t, |when|, when, 1);
    assert Times(1, s.store.now) == [s.store.now];
  }

  // The rest of a window's share joins at one instant, and all who wait are let through.
  lemma FillWindow(cfg: Config, req: Request, before: seq<Action>, s: State, from: nat, when: seq<int>, d: int)
    returns (acts: seq<Action>, t: State, n: int)
    requires Reached(cfg, req, before, s) && Admitted(req) && !HighRiskPath(cfg, req.path)
    requires cfg.rateEscalationThreshold >= 1 && Progress(cfg, req, s, from, when)
    requires InWindow(s.store, CounterKey(cfg, req, Ten), 1, d)
    ensures Reached(cfg, req, acts, t) && t.store.now == s.store.now
    ensures var all := when + Times(cfg.rateEscalationThreshold - 1, s.store.now); Progress(cfg, req, t, |all|, all)
    ensures InWindow(t.store, CounterKey(cfg, req, Ten), n, d)
  {
    var more := cfg.rateEscalationThreshold - 1;
    var m;
    acts, m := JoinMany(cfg, req, before, s, 1, d, more);
    JoinProgress(cfg, req, s, m, from, when, more);
    acts, t, n := FinishMany(cfg, req, acts, m, from, when + Times(more, s.store.now), 1 + more, d);
  }

  // The first request at 0, its window's share just before 10s, the next window's share at 10s.
  function Arrivals(threshold: nat): seq<int>
    requires threshold >= 1
  {
    [0] + Times(threshold - 1, TEN_SECONDS - 1) + [TEN_SECONDS] + Times(threshold - 1, TEN_SECONDS)
  }

  lemma TwoWindows(cfg: Config, req: Request) returns (acts: seq<Action>, t: State)
    requires Admitted(req) && !HighRiskPath(cfg, req.path) && cfg.rateEscalationThreshold >= 1
    ensures Reached(cfg, req, acts, t)
    ensures var when := Arrivals(cfg.rateEscalationThreshold); Progress(cfg, req, t, |when|, when)
  {
    var m, n;
    var more := cfg.rateEscalationThreshold - 1;
    assert Reached(cfg, req, [], Start(0));
    acts, m := OpenWindow(cfg, req, [], Start(0), []);
    assert [] + [0] == [0];
    acts, t := Wait(cfg, req, acts, m, TEN_SECONDS - 1);
    WaitProgress(cfg, req, m, t, 0, [0]);
    acts, m, n := FillWindow(cfg, req, acts, t, 0, [0], TEN_SECONDS);
    var first := [0] + Times(more, TEN_SECONDS - 1);
    acts, t := Wait(cfg, req, acts, m, 1);
    WaitProgress(cfg, req, m, t, |first|, first);
    acts, m := OpenWindow(cfg, req, acts, t, first);
    acts, t, n := FillWindow(cfg, req, acts, m, |first|, first + [TEN_SECONDS], TEN_SECONDS + TEN_SECONDS);
  }

  lemma WaitProgress(cfg: Config, req: Request, s: State, t: State, from: nat, when: seq<int>)
    requires Progress(cfg, req, s, from, when) && t.flights == s.flights && t.store.hits == s.store.hits
    ensures Progress(cfg, req, t, from, when)
  {
    forall r | 0 <= r < from
      ensures Escaped(cfg, req, t, r, when[r])
    {
      StillEscaped(cfg, req, s, t, r, when[r]);
    }
    forall r | from <= r < |when|
      ensures Waiting(cfg, req, t, r, when[r])
    {
      StillWaiting(cfg, req, s, t, r, when[r]);
    }
  }

  function OneTo(n: nat): (s: set<nat>)
    ensures |s| == n && forall r :: r in s <==> 1 <= r <= n
  {
    if n == 0 then {} else OneTo(n - 1) + {n}
  }

  // All but the first request, whose call came before 1, escaped in the ten seconds from 1.
  lemma AllButTheFirst(cfg: Config, req: Request, t: State)
    requires cfg.rateEscalationThreshold >= 1
    requires var when := Arrivals(cfg.rateEscalationThreshold); Progress(cfg, req, t, |when|, when)
    ensures var escaped := set r | 0 <= r < |t.flights| && EscapedIn(cfg, t, r, CounterKey(cfg, req, Ten), 1);
            |escaped| >= 2 * cfg.rateEscalationThreshold - 1
  {
    var when, range := Arrivals(cfg.rateEscalationThreshold), OneTo(2 * cfg.rateEscalationThreshold - 1);
    var escaped := set r | 0 <= r < |t.flights| && EscapedIn(cfg, t, r, CounterKey(cfg, req, Ten), 1);
    forall r | r in range
      ensures r in escaped
    {
      assert Escaped(cfg, req, t, r, when[r]);
    }
    SubsetSize(range, escaped);
  }

  // For every positive threshold and every admitted request to an endpoint that is not high-risk, for the shared key
  // and for separate keys: a run in which 2·T - 1 such requests escape scoring within ten seconds.
  lemma EscapeBoundReached(cfg: Config, req: Request) returns (states: seq<State>, acts: seq<Action>)
    requires Admitted(req) && !HighRiskPath(cfg, req.path) && cfg.rateEscalationThreshold >= 1
    ensures IsRun(cfg, states, acts)
    ensures var t, k := states[|acts|], CounterKey(cfg, req, Ten);
            var escaped := set r | 0 <= r < |t.flights| && EscapedIn(cfg, t, r, k, 1);
            |escaped| == 2 * cfg.rateEscalationThreshold - 1
  {
    var t;
    acts, t := TwoWindows(cfg, req);
    states := ExecExtendsRun(cfg, [Start(0)], [], acts, t);
    assert [] + acts == acts;
    BoundedEscape(cfg, states, acts, |acts|, CounterKey(cfg, req, Ten), 1);
    AllButTheFirst(cfg, req, t);
  }
}
