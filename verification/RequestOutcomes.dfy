/**
 What becomes of each request, over whole runs and in terms of the request, the log of writes and the history of INCRs:
 when it is rejected, when its check passes, what the engine answers it, when it leads to a write, and which numbers the
 models are given for it.
 */
module RequestOutcomes {
  import opened Wrappers
  import opened RedisStore
  import opened Features
  import opened Ensemble
  import opened GatewaySignal
  import opened Enforcement
  import opened GateSafety
  import opened CounterTheorems
  import opened BlockTheorems
  import opened AuditTrail

  // ---------- The blocklist check ----------

  ghost predicate LastWrite(writes: seq<Write>, ip: string, y: nat) {
    y < |writes| && writes[y].ip == ip && forall z :: y < z < |writes| ==> writes[z].ip != ip
  }

  // The last write of the ip is younger than the lifetime its writer gave it.
  ghost predicate StillBlocks(cfg: Config, s: State, ip: string, y: nat) {
    && LastWrite(s.writes, ip, y)
    && var lifetime := if s.writes[y].writer == Gateway then cfg.blocklistTtl else cfg.consumerTtl;
       s.store.now < s.writes[y].time + 1000 * lifetime
  }

  // A blocklist key names the last write of its ip.
  ghost predicate NamesLast(s: State, ip: string) {
    BlockKey(ip) in s.store.db ==> LastWrite(s.writes, ip, s.store.db[BlockKey(ip)].inc)
  }

  lemma StepNamesLast(cfg: Config, s: State, a: Action, ip: string)
    requires Enabled(cfg, s, a) && NamesLast(s, ip)
    ensures NamesLast(Step(cfg, s, a), ip)
  {
    if Commits(a) {
      CommitEffect(cfg, s, a);
      BlockKeyInjective(WriteSource(s, a).ip, ip);
    } else {
      BlockFrame(cfg, s, a, BlockKey(ip));
    }
  }

  lemma {:induction false} RunNamesLast(cfg: Config, states: seq<State>, acts: seq<Action>, i: nat, ip: string)
    requires IsRun(cfg, states, acts) && i < |states|
    ensures NamesLast(states[i], ip)
  {
    if i > 0 {
      RunNamesLast(cfg, states, acts, i - 1, ip);
      assert IsStep(cfg, states[i - 1], acts[i - 1], states[i]);
      StepNamesLast(cfg, states[i - 1], acts[i - 1], ip);
    }
  }

  // An ip is blocked if and only if its last write is younger than the lifetime its writer gave it.
  lemma BlockedExactly(cfg: Config, states: seq<State>, acts: seq<Action>, i: nat, ip: string)
    requires IsRun(cfg, states, acts) && i < |states|
    ensures Live(states[i].store, BlockKey(ip)) <==> exists y: nat :: StillBlocks(cfg, states[i], ip, y)
  {
    var s, k := states[i], BlockKey(ip);
    RunNamesLast(cfg, states, acts, i, ip);
    RunKeepsBlocks(cfg, states, acts, i);
    if k in s.store.db {
      assert BlockOk(cfg, s, k);
      if Live(s.store, k) {
        assert StillBlocks(cfg, s, ip, s.store.db[k].inc);
      }
    }
    if y: nat :| StillBlocks(cfg, s, ip, y) {
      assert WriteOk(cfg, s, y);
      assert s.store.db[k].inc == y;
    }
  }

  // A checked request is answered 403 if and only if the ip is blocked in that sense; otherwise it goes on to be
  // counted.
  lemma CheckExactly(cfg: Config, states: seq<State>, acts: seq<Action>, j: nat, r: nat)
    requires IsRun(cfg, states, acts) && j < |acts| && acts[j] == Check(r)
    ensures r < |states[j].flights| && r < |states[j + 1].flights|
    ensures var f, g := states[j].flights[r], states[j + 1].flights[r];
            if exists y: nat :: StillBlocks(cfg, states[j], f.req.ip, y)
            then g.phase == Done && g.statuses == [403] && g.forwards == 0
            else g == f.(phase := Counting, cleared := Some(states[j].store.now)) && g.statuses == []
  {
    assert IsStep(cfg, states[j], acts[j], states[j + 1]);
    BlockedExactly(cfg, states, acts, j, states[j].flights[r].req.ip);
    RunKeepsFlights(cfg, states, acts, j);
    assert FlightOk(cfg, states[j].flights[r]);
  }

  // A block ends: once the larger lifetime has passed since every write of the ip, a checked request goes on.
  lemma UnblockedGoesOn(cfg: Config, states: seq<State>, acts: seq<Action>, j: nat, r: nat)
    requires IsRun(cfg, states, acts) && j < |acts| && acts[j] == Check(r) && r < |states[j].flights|
    requires forall w :: w in states[j].writes && w.ip == states[j].flights[r].req.ip ==>
               w.time + 1000 * Max(cfg.blocklistTtl, cfg.consumerTtl) <= states[j].store.now
    ensures r < |states[j + 1].flights| && states[j + 1].flights[r].phase == Counting
    ensures states[j + 1].flights[r].statuses == []
  {
    CheckExactly(cfg, states, acts, j, r);
  }

  // ---------- How a request ends ----------

  // On a public path, or with a valid token.
  ghost predicate MayEnter(req: Request) {
    req.path in {"/api/auth/login", "/api/auth/register", "/actuator/health"} || req.token.Some?
  }

  // A finished request: 401 if and only if it may not enter; 403 if and only if it may but its check did not pass, or
  // the engine decided BLOCK; forwarded if and only if it was not rejected. A checked one was put to the engine if and
  // only if its path starts with a high-risk entry or its count is above the threshold.
  lemma FinishedExactly(cfg: Config, states: seq<State>, acts: seq<Action>, i: nat, r: nat)
    requires IsRun(cfg, states, acts) && i < |states| && InPhase(states[i], r, Done)
    ensures var f := states[i].flights[r];
            && (f.statuses == [401] <==> !MayEnter(f.req))
            && (f.statuses == [403] <==> MayEnter(f.req) && (f.cleared.None? || f.answer == Some(Scored(Block))))
            && (f.forwards == 1 <==> f.statuses == []) && f.forwards + |f.statuses| == 1
            && (f.cleared.Some? ==>
                  && f.ten.Returned?
                  && (f.answer.Some? <==>
                        (exists e :: e in cfg.highRiskEndpoints && e <= f.req.path)
                        || f.ten.n > cfg.rateEscalationThreshold))
  {
    RunKeepsFlights(cfg, states, acts, i);
    assert FlightOk(cfg, states[i].flights[r]);
  }

  // ---------- The engine's answer ----------

  // A decision that comes in time is the answer, whatever it is; anything else is UNSCORED.
  ghost predicate AnswersAs(answer: Answer, decision: Option<Verdict>, inTime: bool) {
    if inTime && decision.Some? then answer == Scored(decision.value) else answer == Unscored
  }

  ghost predicate AskedOnce(cfg: Config, s: State, asked: seq<Action>, r: nat) {
    && (r < |s.flights| && s.flights[r].answer.Some? <==> exists inTime :: AskEngine(r, inTime) in asked)
    && (forall inTime :: AskEngine(r, inTime) in asked ==>
          && s.flights[r].signal.Some?
          && AnswersAs(s.flights[r].answer.value, cfg.decide(s.flights[r].signal.value), inTime))
  }

  // A request has an answer if and only if the engine was asked for it, and the answer is the decision on its signal
  // when that came in time.
  lemma {:induction false} AnsweredExactly(cfg: Config, states: seq<State>, acts: seq<Action>, i: nat, r: nat)
    requires IsRun(cfg, states, acts) && i < |states|
    ensures AskedOnce(cfg, states[i], acts[..i], r)
  {
    if i > 0 {
      AnsweredExactly(cfg, states, acts, i - 1, r);
      RunKeepsFlights(cfg, states, acts, i - 1);
      assert IsStep(cfg, states[i - 1], acts[i - 1], states[i]);
      assert acts[..i] == acts[..i - 1] + [acts[i - 1]];
      if acts[i - 1].AskEngine? && acts[i - 1].rid == r {
        AskStep(cfg, states[i - 1], acts[i - 1].inTime, r);
      } else {
        AnswerKept(cfg, states[i - 1], acts[i - 1], r);
      }
    }
  }

  lemma AskStep(cfg: Config, s: State, inTime: bool, r: nat)
    requires FlightsOk(cfg, s) && Enabled(cfg, s, AskEngine(r, inTime))
    ensures s.flights[r].answer.None?
    ensures var t := Step(cfg, s, AskEngine(r, inTime));
            && r < |t.flights| && t.flights[r].signal.Some? && t.flights[r].answer.Some?
            && AnswersAs(t.flights[r].answer.value, cfg.decide(t.flights[r].signal.value), inTime)
  {
    assert FlightOk(cfg, s.flights[r]);
  }

  lemma AnswerKept(cfg: Config, s: State, a: Action, r: nat)
    requires FlightsOk(cfg, s) && Enabled(cfg, s, a) && !(a.AskEngine? && a.rid == r)
    ensures var t := Step(cfg, s, a);
            && (r < |t.flights| && t.flights[r].answer.Some? <==> r < |s.flights| && s.flights[r].answer.Some?)
            && (r < |s.flights| && s.flights[r].answer.Some? ==>
                  t.flights[r].answer == s.flights[r].answer && t.flights[r].signal == s.flights[r].signal)
  {
    FlightFrame(cfg, s, a);
    if r < |s.flights| {
      assert FlightOk(cfg, s.flights[r]);
    }
  }

  // ---------- The gateway's write ----------

  ghost predicate GatewayWrote(s: State, r: nat) {
    exists y :: 0 <= y < |s.writes| && s.writes[y].writer == Gateway && s.writes[y].rid == r
  }

  // Once it has decided to reject, the gateway has written.
  ghost predicate WroteBeforeRejecting(s: State, r: nat) {
    DecidedToReject(s, r) ==> GatewayWrote(s, r)
  }

  ghost predicate DecidedToReject(s: State, r: nat) {
    && r < |s.flights| && (s.flights[r].phase.Rejecting? || s.flights[r].phase.Done?)
    && s.flights[r].answer == Some(Scored(Block))
  }

  lemma {:induction false} RunWritesFirst(cfg: Config, states: seq<State>, acts: seq<Action>, i: nat, r: nat)
    requires IsRun(cfg, states, acts) && i < |states|
    ensures WroteBeforeRejecting(states[i], r)
  {
    if i > 0 {
      RunWritesFirst(cfg, states, acts, i - 1, r);
      RunWriteFirstStep(cfg, states, acts, i - 1, r);
    }
  }

  lemma RunWriteFirstStep(cfg: Config, states: seq<State>, acts: seq<Action>, i: nat, r: nat)
    requires IsRun(cfg, states, acts) && i < |acts| && WroteBeforeRejecting(states[i], r)
    ensures WroteBeforeRejecting(states[i + 1], r)
  {
    RunKeepsFlights(cfg, states, acts, i);
    assert IsStep(cfg, states[i], acts[i], states[i + 1]);
    WriteFirstStep(cfg, states[i], acts[i], r);
  }

  lemma WriteFirstStep(cfg: Config, s: State, a: Action, r: nat)
    requires FlightsOk(cfg, s) && Enabled(cfg, s, a) && WroteBeforeRejecting(s, r)
    ensures WroteBeforeRejecting(Step(cfg, s, a), r)
  {
    var t := Step(cfg, s, a);
    LogGrows(cfg, s, a);
    if GatewayWrote(s, r) {
      var y :| 0 <= y < |s.writes| && s.writes[y].writer == Gateway && s.writes[y].rid == r;
      assert t.writes[y] == s.writes[y];
    }
    if a == WriteBlock(r) {
      CommitEffect(cfg, s, a);
      assert t.writes[|s.writes|] == WriteSource(s, a);
    } else {
      RejectingFrom(cfg, s, a, r);
    }
  }

  lemma RejectingFrom(cfg: Config, s: State, a: Action, r: nat)
    requires FlightsOk(cfg, s) && Enabled(cfg, s, a) && a != WriteBlock(r)
    ensures DecidedToReject(Step(cfg, s, a), r) ==> DecidedToReject(s, r)
  {
    FlightFrame(cfg, s, a);
    if r < |s.flights| {
      assert FlightOk(cfg, s.flights[r]);
    }
  }

  // The gateway has written the block for a finished request if and only if the engine answered it BLOCK.
  lemma GatewayWroteExactly(cfg: Config, states: seq<State>, acts: seq<Action>, i: nat, r: nat)
    requires IsRun(cfg, states, acts) && i < |states| && InPhase(states[i], r, Done)
    ensures GatewayWrote(states[i], r) <==> states[i].flights[r].answer == Some(Scored(Block))
  {
    RunWritesFirst(cfg, states, acts, i, r);
    RunKeepsBlocks(cfg, states, acts, i);
    if GatewayWrote(states[i], r) {
      var y :| 0 <= y < |states[i].writes| && states[i].writes[y].writer == Gateway && states[i].writes[y].rid == r;
      assert WriteOk(cfg, states[i], y);
    }
  }

  // ---------- What the models are given ----------

  // The value of an INCR at its place in the vector; the streak narrowed to 32 bits.
  ghost predicate Carries(v: seq<real>, h: Hit)
    requires |v| == 12
  {
    match h.call
    case Ten => v[0] == h.n as real
    case Sixty => v[1] == h.n as real
    case Streak =>
      var m := v[3].Floor;
      v[3] == m as real && -0x8000_0000 <= m < 0x8000_0000 && (h.n - m) % 0x1_0000_0000 == 0
  }

  // The places the request itself fills.
  ghost predicate FillsFrom(cfg: Config, lg: real -> real, v: seq<real>, req: Request)
    requires |v| == 12
  {
    var public := req.path in {"/api/auth/login", "/api/auth/register", "/actuator/health"};
    var body := if req.verb in {"POST", "PUT", "PATCH"} then req.body else "";
    var fields := match cfg.parse(body) case Some(entries) => |entries| case None => 0;
    && v[2] == 1.0 && v[8] == 0.0 && v[10] == 0.0
    && v[4] == Entropy.Entropy(lg, body) && Distance(v[5], fields, 8)
    && v[7] == (if public || req.token.None? then 0.0 else req.token.value.age)
    && v[9] == (if req.automationUa then 1.0 else 0.0) && v[11] == (if req.offHours then 1.0 else 0.0)
  }

  // The vector the models get for a request, in every run: the three counts are those its own INCRs handed out, each at
  // its place, and the rest comes from the request.
  lemma VectorOfRequest(cfg: Config, lg: real -> real, states: seq<State>, acts: seq<Action>, i: nat, r: nat)
    requires IsRun(cfg, states, acts) && i < |states| && r < |states[i].flights| && states[i].flights[r].signal.Some?
    ensures var s, v := states[i], ExtractFeatures(lg, states[i].flights[r].signal.value);
            && |v| == 12 && FillsFrom(cfg, lg, v, s.flights[r].req)
            && (forall x :: 0 <= x < |s.store.hits| && s.store.hits[x].rid == r ==> Carries(v, s.store.hits[x]))
            && Sent(s, r, Ten) && Sent(s, r, Sixty) && Sent(s, r, Streak)
  {
    var s, f := states[i], states[i].flights[r];
    SignalFromCounts(cfg, states, acts, i, r);
    RunKeepsDebts(cfg, states, acts, i);
    forall x | 0 <= x < |s.store.hits| && s.store.hits[x].rid == r
      ensures Carries(ExtractFeatures(lg, f.signal.value), s.store.hits[x])
    {
      CarriesOwn(cfg, lg, s, r, x);
    }
    SentCall(cfg, s, r, Ten);
    SentCall(cfg, s, r, Sixty);
    SentCall(cfg, s, r, Streak);
  }

  lemma CarriesOwn(cfg: Config, lg: real -> real, s: State, r: nat, x: nat)
    requires CallsOk(cfg, s) && r < |s.flights| && x < |s.store.hits| && s.store.hits[x].rid == r
    requires AllReturned(s.flights[r]) && s.flights[r].signal == Some(SignalOf(cfg, s.flights[r]))
    ensures Carries(ExtractFeatures(lg, s.flights[r].signal.value), s.store.hits[x])
  {
    var n := s.flights[r].streak.n;
    assert HitOwned(s, x) && CallOk(cfg, s, r, s.store.hits[x].call);
    ToInt32Exactly(n, ToInt32(n));
  }

  ghost predicate Sent(s: State, r: nat, c: Call) {
    exists x :: 0 <= x < |s.store.hits| && s.store.hits[x].rid == r && s.store.hits[x].call == c
  }

  lemma SentCall(cfg: Config, s: State, r: nat, c: Call)
    requires CallsOk(cfg, s) && r < |s.flights| && CallOf(s.flights[r], c).Returned?
    ensures Sent(s, r, c)
  {
    assert CallOk(cfg, s, r, c);
  }
}
