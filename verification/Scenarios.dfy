/**
 Runs that exist: for whole families of requests and configurations, a run in which the behaviour the other theorems
 leave room for takes place. Each is built action by action on an empty Redis.
 */
module Scenarios {
  import opened Wrappers
  import opened RedisStore
  import opened CounterHistory
  import opened Features
  import opened Ensemble
  import opened GatewaySignal
  import opened RedisStateService
  import opened Enforcement
  import opened GateSafety
  import opened Executions
  import opened AuditTrail

  // The sixty-second rate the first request sees: its own second count when the key is shared.
  function FirstRate60s(cfg: Config): int {
    if cfg.shared then 2 else 1
  }

  function FirstSignal(cfg: Config, req: Request): Signal {
    BuildSignal(cfg, req, 1, FirstRate60s(cfg), 1)
  }

  // The only request so far, with its event published, about to be routed.
  ghost predicate AtRouting(cfg: Config, req: Request, s: State) {
    && |s.flights| == 1 && s.topic == [RawEvent(0, req.ip, FirstSignal(cfg, req))] && s.writes == []
    && s.pos == 0 && s.consumer == Ready && s.outcomes == [] && s.audit == []
    && var f := s.flights[0];
       && f.phase == Routing && f.req == req && f.ten.Returned? && f.ten.n == 1
       && f.signal == Some(FirstSignal(cfg, req)) && f.answer.None? && f.forwards == 0 && f.statuses == []
  }

  // Neither the consumer nor the engine has acted.
  ghost predicate RequestOnly(acts: seq<Action>) {
    forall i :: 0 <= i < |acts| ==>
      !acts[i].AskEngine? && !acts[i].Restart? && !acts[i].ConsumerWrite? && !acts[i].Emit?
  }

  // No answer of a server to the consumer, and no restart.
  ghost predicate ConsumerIdle(acts: seq<Action>) {
    forall i :: 0 <= i < |acts| ==> !acts[i].Restart? && !acts[i].ConsumerWrite? && !acts[i].Emit?
  }

  // Any admitted request gets there on an empty system.
  lemma FirstRequest(cfg: Config, req: Request) returns (acts: seq<Action>, t: State)
    requires Admitted(req)
    ensures Exec(cfg, Start(0), acts) == Some(t) && AtRouting(cfg, req, t)
    ensures RequestOnly(acts) && Publish(0, false) in acts
  {
    acts, t := FirstCounts(cfg, req);
    PublishFirst(cfg, req, t);
    ExecOneMore(cfg, Start(0), acts, t, Publish(0, false));
    acts, t := acts + [Publish(0, false)], Step(cfg, t, Publish(0, false));
  }

  lemma PublishFirst(cfg: Config, req: Request, t: State)
    requires AtPublishing(cfg, req, t)
    ensures Enabled(cfg, t, Publish(0, false)) && AtRouting(cfg, req, Step(cfg, t, Publish(0, false)))
  {
  }

  // The only request so far, counted three times and nothing else.
  ghost predicate AtPublishing(cfg: Config, req: Request, t: State) {
    && t == Start(0).(store := t.store, flights := t.flights) && |t.flights| == 1
    && var f := t.flights[0];
       && f == NewFlight(req).(phase := Counting, cleared := f.cleared,
                               ten := f.ten, sixty := f.sixty, streak := f.streak)
       && AllReturned(f) && f.ten.n == 1 && f.sixty.n == FirstRate60s(cfg) && f.streak.n == 1
  }

  lemma FirstCounts(cfg: Config, req: Request) returns (acts: seq<Action>, t: State)
    requires Admitted(req)
    ensures Exec(cfg, Start(0), acts) == Some(t) && AtPublishing(cfg, req, t) && RequestOnly(acts)
  {
    var m;
    acts, m := Admit(cfg, req);
    acts, t := FirstCall(cfg, acts, m, Ten);
    SecondCount(cfg, req, m.store, t.store);
    m := t;
    acts, t := FirstCall(cfg, acts, m, Sixty);
    StreakUntouched(cfg, req, m.store, t.store);
    acts, t := FirstCall(cfg, acts, t, Streak);
  }

  // One more counter call of the only request.
  lemma FirstCall(cfg: Config, before: seq<Action>, m: State, c: Call) returns (acts: seq<Action>, t: State)
    requires Exec(cfg, Start(0), before) == Some(m) && StoreInv(m.store) && RequestOnly(before)
    requires InPhase(m, 0, Counting) && |m.flights| == 1 && CallOf(m.flights[0], c).Idle?
    ensures Countable(m.store, CounterKey(cfg, m.flights[0].req, c))
    ensures Exec(cfg, Start(0), acts) == Some(t) && StoreInv(t.store) && RequestOnly(acts)
    ensures var k, f := CounterKey(cfg, m.flights[0].req, c), m.flights[0];
            && t.store == (if c == Streak then StreakCall(m.store, k, 0)
                           else WindowCall(m.store, k, CounterTtl(c), 0, c))
            && t == m.(store := t.store,
                       flights := [WithCall(f, c, Returned(|m.store.hits|, NextCount(m.store, k)))])
  {
    acts, t := CallAlone(cfg, Start(0), before, m, 0, c);
  }

  lemma Admit(cfg: Config, req: Request) returns (acts: seq<Action>, t: State)
    requires Admitted(req)
    ensures Exec(cfg, Start(0), acts) == Some(t)
    ensures t == Start(0).(flights := [NewFlight(req).(phase := Counting, cleared := Some(0))])
    ensures RequestOnly(acts)
  {
    var s := Start(0);
    assert Exec(cfg, s, []) == Some(s);
    ExecOneMore(cfg, s, [], s, Arrive(req));
    acts, t := [] + [Arrive(req)], Step(cfg, s, Arrive(req));
    ExecOneMore(cfg, s, acts, t, Authenticate(0));
    acts, t := acts + [Authenticate(0)], Step(cfg, t, Authenticate(0));
    ExecOneMore(cfg, s, acts, t, Check(0));
    acts, t := acts + [Check(0)], Step(cfg, t, Check(0));
  }

  // The ten-second call on an empty Redis takes 1; what the other two calls will be handed.
  lemma SecondCount(cfg: Config, req: Request, st: Store, t: Store)
    requires st == Start(0).store && t == WindowCall(st, CounterKey(cfg, req, Ten), TEN_SECONDS, 0, Ten)
    ensures NextCount(st, CounterKey(cfg, req, Ten)) == 1
    ensures Countable(t, CounterKey(cfg, req, Sixty))
    ensures NextCount(t, CounterKey(cfg, req, Sixty)) == FirstRate60s(cfg)
    ensures CounterKey(cfg, req, Streak) !in t.db
  {
    var k := CountKey(req.ip, req.path);
    if !cfg.shared {
      assert (k + ":10")[|k| + 1] == '1' && (k + ":60")[|k| + 1] == '6';
    }
  }

  lemma StreakUntouched(cfg: Config, req: Request, st: Store, t: Store)
    requires CounterKey(cfg, req, Streak) !in st.db && Countable(st, CounterKey(cfg, req, Sixty))
    requires t == WindowCall(st, CounterKey(cfg, req, Sixty), SIXTY_SECONDS, 0, Sixty)
    ensures CounterKey(cfg, req, Streak) !in t.db
  {
  }

  // What executes from the start is a run.
  lemma RunFromStart(cfg: Config, acts: seq<Action>, t: State) returns (states: seq<State>)
    requires Exec(cfg, Start(0), acts) == Some(t)
    ensures IsRun(cfg, states, acts) && states[|acts|] == t
  {
    states := ExecExtendsRun(cfg, [Start(0)], [], acts, t);
    assert [] + acts == acts;
  }

  // ---------- The malformed signal ----------

  // For every request whose signal the engine has no decision on there is a run with servers that never fail and an
  // engine that always answers in time, in which the request is forwarded, its event is delivered and consumed, and
  // nothing is audited. A token from the future is such a request.
  lemma UndecidedRun(cfg: Config, req: Request) returns (states: seq<State>, acts: seq<Action>)
    requires Admitted(req) && cfg.decide(FirstSignal(cfg, req)).None?
    ensures IsRun(cfg, states, acts) && AtLeastOnce(states, acts, |acts|) && Publish(0, false) in acts
    ensures forall i :: 0 <= i < |acts| && acts[i].AskEngine? ==> acts[i].inTime
    ensures var t := states[|acts|];
            && |t.flights| == 1 && t.flights[0].req == req && t.flights[0].forwards == 1
            && t.flights[0].answer == (if Escalates(cfg, req.path, 1) then Some(Unscored) else None)
            && Drained(t) && |t.topic| == 1 && t.outcomes == [Skipped] && t.audit == []
  {
    var m;
    acts, m := UndecidedForwarded(cfg, req);
    ExecOneMore(cfg, Start(0), acts, m, Poll);
    acts := acts + [Poll];
    states := RunFromStart(cfg, acts, Step(cfg, m, Poll));
    assert ConsumerIdle(acts);
  }

  // The request has been forwarded, the consumer has not moved.
  lemma UndecidedForwarded(cfg: Config, req: Request) returns (acts: seq<Action>, t: State)
    requires Admitted(req) && cfg.decide(FirstSignal(cfg, req)).None?
    ensures Exec(cfg, Start(0), acts) == Some(t) && ConsumerIdle(acts) && Publish(0, false) in acts
    ensures forall i :: 0 <= i < |acts| && acts[i].AskEngine? ==> acts[i].inTime
    ensures |t.flights| == 1 && t.flights[0].req == req && t.flights[0].forwards == 1
    ensures t.flights[0].answer == if Escalates(cfg, req.path, 1) then Some(Unscored) else None
    ensures t.topic == [RawEvent(0, req.ip, FirstSignal(cfg, req))] && t.audit == []
    ensures t.pos == 0 && t.consumer == Ready && t.outcomes == []
  {
    acts, t := FirstRequest(cfg, req);
    ExecOneMore(cfg, Start(0), acts, t, Route(0));
    acts, t := acts + [Route(0)], Step(cfg, t, Route(0));
    if Escalates(cfg, req.path, 1) {
      ExecOneMore(cfg, Start(0), acts, t, AskEngine(0, true));
      acts, t := acts + [AskEngine(0, true)], Step(cfg, t, AskEngine(0, true));
    }
  }

  // With the engine's own decision function: any authenticated request to a high-risk endpoint whose token was issued
  // in the gateway's future can be forwarded UNSCORED and, with its event delivered, stay out of the audit.
  lemma FutureTokenRun(cfg: Config, a: Artifacts, lg: real -> real, req: Request)
    returns (states: seq<State>, acts: seq<Action>)
    requires RunsEngine(cfg, a, lg) && HighRiskPath(cfg, req.path)
    requires ClaimsOf(req).Some? && ClaimsOf(req).value.age < 0.0
    ensures IsRun(cfg, states, acts) && AtLeastOnce(states, acts, |acts|) && Publish(0, false) in acts
    ensures forall i :: 0 <= i < |acts| && acts[i].AskEngine? ==> acts[i].inTime
    ensures var t := states[|acts|];
            && |t.flights| == 1 && t.flights[0].req == req && t.flights[0].forwards == 1
            && t.flights[0].answer == Some(Unscored) && Drained(t) && !HasAudit(t, 0)
  {
    FutureTokenUndecided(cfg, a, lg, req, 1, FirstRate60s(cfg), 1);
    states, acts := UndecidedRun(cfg, req);
  }

  // ---------- Restarts ----------

  // For every request whose signal the engine decides there is a run in which no server fails and no event comes again,
  // and yet its delivered event is neither audited nor skipped: the consumer is restarted at its own position while the
  // event is in work.
  lemma DroppedRun(cfg: Config, req: Request) returns (states: seq<State>, acts: seq<Action>)
    requires Admitted(req) && cfg.decide(FirstSignal(cfg, req)).Some?
    ensures IsRun(cfg, states, acts) && NoRedeliveryIn(states, acts, 0, |acts|) && Publish(0, false) in acts
    ensures forall x :: !FailedBefore(states, acts, |acts|, x)
    ensures var t := states[|acts|];
            t.consumer == Ready && t.pos == |t.topic| == 1 && t.outcomes == [Dropped] && t.audit == []
  {
    var m;
    acts, m := FirstPolled(cfg, req);
    states, acts := RestartedRun(cfg, acts, m);
  }

  lemma FirstPolled(cfg: Config, req: Request) returns (acts: seq<Action>, t: State)
    requires Admitted(req) && cfg.decide(FirstSignal(cfg, req)).Some?
    ensures Exec(cfg, Start(0), acts) == Some(t) && ConsumerIdle(acts) && Publish(0, false) in acts
    ensures t.pos == |t.topic| == 1 && !t.consumer.Ready? && t.outcomes == [] && t.audit == []
  {
    acts, t := FirstRequest(cfg, req);
    ExecOneMore(cfg, Start(0), acts, t, Poll);
    acts, t := acts + [Poll], Step(cfg, t, Poll);
  }

  // The same for an event that is still waiting when the consumer is restarted at the end of the topic.
  lemma MissedRun(cfg: Config, req: Request) returns (states: seq<State>, acts: seq<Action>)
    requires Admitted(req)
    ensures IsRun(cfg, states, acts) && NoRedeliveryIn(states, acts, 0, |acts|) && Publish(0, false) in acts
    ensures forall x :: !FailedBefore(states, acts, |acts|, x)
    ensures var t := states[|acts|];
            t.consumer == Ready && t.pos == |t.topic| == 1 && t.outcomes == [Missed] && t.audit == []
  {
    var m;
    acts, m := FirstRequest(cfg, req);
    states, acts := RestartedRun(cfg, acts, m);
    assert PassedOver(1) == [Missed];
  }

  lemma RestartedRun(cfg: Config, before: seq<Action>, m: State) returns (states: seq<State>, acts: seq<Action>)
    requires Exec(cfg, Start(0), before) == Some(m) && ConsumerIdle(before) && |m.topic| == 1 && m.pos <= 1
    ensures IsRun(cfg, states, acts) && acts == before + [Restart(1)] && states[|acts|] == Step(cfg, m, Restart(1))
    ensures NoRedeliveryIn(states, acts, 0, |acts|) && forall x :: !FailedBefore(states, acts, |acts|, x)
  {
    ExecOneMore(cfg, Start(0), before, m, Restart(1));
    acts := before + [Restart(1)];
    var prefix := RunFromStart(cfg, before, m);
    states := ExecExtendsRun(cfg, prefix, before, [Restart(1)], Step(cfg, m, Restart(1)));
    assert states[|before|] == prefix[|before|];
  }

  // ---------- The default high-risk list ----------

  const DEFAULT_HIGH_RISK := ["/api/auth/login", "/api/checkout/**"]

  // Entries are compared as plain prefixes, so the second one matches only paths that spell out the stars.
  lemma DefaultListExactly(cfg: Config, path: string)
    requires cfg.highRiskEndpoints == DEFAULT_HIGH_RISK
    ensures HighRiskPath(cfg, path) <==> "/api/auth/login" <= path || "/api/checkout/**" <= path
    ensures path == "/api/checkout" || path == "/api/checkout/pay" ==> !HighRiskPath(cfg, path)
  {
    assert DEFAULT_HIGH_RISK[0] in cfg.highRiskEndpoints && DEFAULT_HIGH_RISK[1] in cfg.highRiskEndpoints;
    if path == "/api/checkout" || path == "/api/checkout/pay" {
      assert path[5] == 'c' && "/api/auth/login"[5] == 'a';
      assert |path| > 14 ==> path[14] == 'p';
      assert "/api/checkout/**"[14] == '*';
    }
  }

  // The paths the list does not match, /api/checkout and everything below it included as long as it does not spell out
  // the stars.
  predicate Unlisted(path: string) {
    !("/api/auth/login" <= path) && !("/api/checkout/**" <= path)
  }

  // In every run with that list, a request to such a path counted at most T times is never put to the engine; once it
  // is finished after its check it has been forwarded unscored.
  lemma UnlistedUnscored(cfg: Config, states: seq<State>, acts: seq<Action>, i: nat, r: nat)
    requires cfg.highRiskEndpoints == DEFAULT_HIGH_RISK
    requires IsRun(cfg, states, acts) && i < |states| && r < |states[i].flights|
    requires Unlisted(states[i].flights[r].req.path)
    requires states[i].flights[r].ten.Returned? && states[i].flights[r].ten.n <= cfg.rateEscalationThreshold
    ensures var f := states[i].flights[r];
            f.answer.None? && f.phase != Scoring && (f.phase.Done? ==> f.forwards == 1)
  {
    DefaultListExactly(cfg, states[i].flights[r].req.path);
    RunKeepsFlights(cfg, states, acts, i);
    assert FlightOk(cfg, states[i].flights[r]);
  }

  // And there is such a run for every admitted request to such a path, whenever the threshold is positive.
  lemma UnlistedRun(cfg: Config, req: Request) returns (states: seq<State>, acts: seq<Action>)
    requires cfg.highRiskEndpoints == DEFAULT_HIGH_RISK && cfg.rateEscalationThreshold >= 1
    requires Admitted(req) && Unlisted(req.path)
    ensures IsRun(cfg, states, acts)
    ensures var t := states[|acts|];
            |t.flights| == 1 && t.flights[0].req == req && t.flights[0].forwards == 1 && t.flights[0].answer.None?
  {
    DefaultListExactly(cfg, req.path);
    var t;
    acts, t := FirstRequest(cfg, req);
    ExecOneMore(cfg, Start(0), acts, t, Route(0));
    acts, t := acts + [Route(0)], Step(cfg, t, Route(0));
    states := RunFromStart(cfg, acts, t);
  }

  // ---------- Expiry moving back ----------

  // Whenever the two TTLs differ and some request of a known ip escalates and is decided BLOCK, there is a run whose
  // last action moves the expiry of a block back: the writer with the longer TTL first, the other at once after it.
  // With ExpiryNeverDecreases, the expiry can move back if and only if the TTLs differ.
  lemma ExpiryMovesBackRun(cfg: Config, req: Request) returns (states: seq<State>, acts: seq<Action>)
    requires cfg.blocklistTtl != cfg.consumerTtl
    requires Admitted(req) && req.ip != UNKNOWN_IP && Escalates(cfg, req.path, 1)
    requires cfg.decide(FirstSignal(cfg, req)) == Some(Block)
    ensures IsRun(cfg, states, acts) && |acts| > 0
    ensures var s, t, k := states[|acts| - 1], states[|acts|], BlockKey(req.ip);
            && k in s.store.db && k in t.store.db
            && s.store.db[k].deadline.Some? && t.store.db[k].deadline.Some?
            && t.store.db[k].deadline.value < s.store.db[k].deadline.value
  {
    var before, m, last;
    before, m, last := ReadyToShorten(cfg, req);
    ExecOneMore(cfg, Start(0), before, m, last);
    acts := before + [last];
    var longer := RunFromStart(cfg, before, m);
    states := longer + [Step(cfg, m, last)];
    forall i | 0 <= i < |acts|
      ensures IsStep(cfg, states[i], acts[i], states[i + 1])
    {
      assert i < |before| ==> IsStep(cfg, longer[i], before[i], longer[i + 1]);
    }
  }

  // The longer TTL has just been written and the other writer is about to write.
  lemma ReadyToShorten(cfg: Config, req: Request) returns (acts: seq<Action>, m: State, last: Action)
    requires cfg.blocklistTtl != cfg.consumerTtl
    requires Admitted(req) && req.ip != UNKNOWN_IP && Escalates(cfg, req.path, 1)
    requires cfg.decide(FirstSignal(cfg, req)) == Some(Block)
    ensures Exec(cfg, Start(0), acts) == Some(m) && Enabled(cfg, m, last)
    ensures var k, t := BlockKey(req.ip), Step(cfg, m, last);
            && k in m.store.db && k in t.store.db
            && m.store.db[k].deadline.Some? && t.store.db[k].deadline.Some?
            && t.store.db[k].deadline.value < m.store.db[k].deadline.value
  {
    acts, m := BothReady(cfg, req);
    var gateway, consumer := WriteBlock(0), ConsumerWrite(true, true);
    var first := if cfg.blocklistTtl > cfg.consumerTtl then gateway else consumer;
    last := if cfg.blocklistTtl > cfg.consumerTtl then consumer else gateway;
    ExecOneMore(cfg, Start(0), acts, m, first);
    acts, m := acts + [first], Step(cfg, m, first);
  }

  // Both writers hold the same BLOCK decision.
  lemma BothReady(cfg: Config, req: Request) returns (acts: seq<Action>, m: State)
    requires Admitted(req) && req.ip != UNKNOWN_IP && Escalates(cfg, req.path, 1)
    requires cfg.decide(FirstSignal(cfg, req)) == Some(Block)
    ensures Exec(cfg, Start(0), acts) == Some(m)
    ensures InPhase(m, 0, Blocking) && m.flights[0].req == req && m.flights[0].signal == Some(FirstSignal(cfg, req))
    ensures m.consumer == Writing(RawEvent(0, req.ip, FirstSignal(cfg, req)))
  {
    var s := Start(0);
    acts, m := FirstRequest(cfg, req);
    ExecOneMore(cfg, s, acts, m, Route(0));
    acts, m := acts + [Route(0)], Step(cfg, m, Route(0));
    ExecOneMore(cfg, s, acts, m, AskEngine(0, true));
    acts, m := acts + [AskEngine(0, true)], Step(cfg, m, AskEngine(0, true));
    ExecOneMore(cfg, s, acts, m, Poll);
    acts, m := acts + [Poll], Step(cfg, m, Poll);
  }
}
