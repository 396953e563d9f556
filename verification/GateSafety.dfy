/**
 What every run keeps true of each single request: it ends in at most one of 401, 403 or one forward, and only
 requests that passed every gate on the way are forwarded.
 */
module GateSafety {
  import opened Wrappers
  import opened RedisStore
  import opened Ensemble
  import opened GatewaySignal
  import opened Enforcement

  predicate PastAuthentication(f: Flight) {
    f.forwards > 0 || !(f.phase.Arrived? || f.phase.Done? || f.phase.Aborted?)
  }

  predicate PastPublish(f: Flight) {
    f.forwards > 0 || f.phase.Routing? || f.phase.Scoring? || f.phase.Blocking? || f.phase.Rejecting?
  }

  predicate Untouched(f: Flight) {
    f.ten.Idle? && f.sixty.Idle? && f.streak.Idle? && f.publishes == 0 && f.signal.None? && f.answer.None?
  }

  // Responses: none while in flight or abandoned, exactly one when done.
  ghost predicate ResponseOk(f: Flight) {
    && f.forwards + |f.statuses| == (if f.phase.Done? then 1 else 0)
    && (f.statuses != [] ==>
          || (f.statuses == [401] && !Admitted(f.req) && f.cleared.None?)
          || (f.statuses == [403] && Admitted(f.req) && f.cleared.None?)
          || (f.statuses == [403] && Admitted(f.req) && f.answer == Some(Scored(Block))))
  }

  // Before the blocklist check passes a request leaves no trace.
  ghost predicate ProgressOk(f: Flight) {
    && (PastAuthentication(f) ==> Admitted(f.req))
    && (f.cleared.None? ==>
          && Untouched(f) && f.forwards == 0
          && (f.phase.Arrived? || f.phase.Checking? || f.phase.Done? || f.phase.Aborted?))
    && (f.cleared.Some? ==> !f.phase.Arrived? && !f.phase.Checking?)
    && (f.phase.Counting? ==> f.signal.None?)
  }

  // One publish attempt, of the signal built from the three counts.
  ghost predicate SignalOk(cfg: Config, f: Flight) {
    && f.publishes == (if f.signal.Some? then 1 else 0)
    && (PastPublish(f) ==> f.signal.Some?)
    && (f.signal.Some? ==> AllReturned(f) && f.signal.value == SignalOf(cfg, f))
    && (f.answer.Some? ==> f.signal.Some?)
  }

  // The engine is asked when and only when the request escalates; BLOCK is never forwarded.
  ghost predicate AnswerOk(cfg: Config, f: Flight)
    requires f.signal.Some? ==> AllReturned(f)
    requires f.answer.Some? || PastPublish(f) ==> f.signal.Some?
  {
    && (f.phase.Counting? || f.phase.Routing? || f.phase.Scoring? ==> f.answer.None?)
    && (f.answer.Some? ==> Escalates(cfg, f.req.path, f.ten.n))
    && (f.phase.Scoring? || f.phase.Blocking? || f.phase.Rejecting? ==> Escalates(cfg, f.req.path, f.ten.n))
    && (f.phase.Blocking? || f.phase.Rejecting? ==> f.answer == Some(Scored(Block)))
    && (f.answer.Some? && f.answer.value.Scored? ==> cfg.decide(f.signal.value) == Some(f.answer.value.v))
    && (f.forwards > 0 ==> f.answer != Some(Scored(Block)) && (Escalates(cfg, f.req.path, f.ten.n) ==> f.answer.Some?))
  }

  ghost predicate FlightOk(cfg: Config, f: Flight) {
    ResponseOk(f) && ProgressOk(f) && SignalOk(cfg, f) && AnswerOk(cfg, f)
  }

  ghost predicate FlightsOk(cfg: Config, s: State) {
    forall r :: 0 <= r < |s.flights| ==> FlightOk(cfg, s.flights[r])
  }

  // The request an action belongs to.
  function OwnerOf(a: Action): Option<nat> {
    match a
    case Authenticate(r) => Some(r)
    case Check(r) => Some(r)
    case Increment(r, _) => Some(r)
    case SetExpiry(r, _) => Some(r)
    case Publish(r, _) => Some(r)
    case Route(r) => Some(r)
    case AskEngine(r, _) => Some(r)
    case WriteBlock(r) => Some(r)
    case Reject(r) => Some(r)
    case Abandon(r) => Some(r)
    case _ => None
  }

  predicate ActsOn(a: Action, r: nat) {
    OwnerOf(a) == Some(r)
  }

  // An action changes its own request only; Arrive adds one at the end.
  lemma FlightFrame(cfg: Config, s: State, a: Action)
    requires Enabled(cfg, s, a)
    ensures var t := Step(cfg, s, a);
            match OwnerOf(a)
            case Some(r) => r < |s.flights| == |t.flights| && t.flights == s.flights[r := t.flights[r]]
            case None => t.flights == s.flights + if a.Arrive? then [NewFlight(a.req)] else []
  {
  }

  lemma OwnStepKeepsProgress(cfg: Config, s: State, a: Action, r: nat)
    requires Enabled(cfg, s, a) && ActsOn(a, r) && r < |s.flights| && FlightOk(cfg, s.flights[r])
    ensures r < |Step(cfg, s, a).flights|
    ensures ProgressOk(Step(cfg, s, a).flights[r])
  {
  }

  lemma OwnStepKeepsResponse(cfg: Config, s: State, a: Action, r: nat)
    requires Enabled(cfg, s, a) && ActsOn(a, r) && r < |s.flights| && FlightOk(cfg, s.flights[r])
    ensures r < |Step(cfg, s, a).flights|
    ensures ResponseOk(Step(cfg, s, a).flights[r])
  {
  }

  lemma OwnStepKeepsAnswer(cfg: Config, s: State, a: Action, r: nat)
    requires Enabled(cfg, s, a) && ActsOn(a, r) && r < |s.flights| && FlightOk(cfg, s.flights[r])
    ensures r < |Step(cfg, s, a).flights|
    ensures SignalOk(cfg, Step(cfg, s, a).flights[r]) && AnswerOk(cfg, Step(cfg, s, a).flights[r])
  {
  }

  lemma OwnStepKeepsFlight(cfg: Config, s: State, a: Action, r: nat)
    requires Enabled(cfg, s, a) && ActsOn(a, r) && r < |s.flights| && FlightOk(cfg, s.flights[r])
    ensures r < |Step(cfg, s, a).flights| && FlightOk(cfg, Step(cfg, s, a).flights[r])
  {
    OwnStepKeepsResponse(cfg, s, a, r);
    OwnStepKeepsProgress(cfg, s, a, r);
    OwnStepKeepsAnswer(cfg, s, a, r);
  }

  lemma StepKeepsFlights(cfg: Config, s: State, a: Action)
    requires FlightsOk(cfg, s) && Enabled(cfg, s, a)
    ensures FlightsOk(cfg, Step(cfg, s, a))
  {
    FlightFrame(cfg, s, a);
    if OwnerOf(a).Some? {
      OwnStepKeepsFlight(cfg, s, a, OwnerOf(a).value);
    }
  }

  lemma {:induction false} RunKeepsFlights(cfg: Config, states: seq<State>, acts: seq<Action>, i: nat)
    requires IsRun(cfg, states, acts) && i < |states|
    ensures FlightsOk(cfg, states[i])
  {
    if i > 0 {
      RunKeepsFlights(cfg, states, acts, i - 1);
      assert IsStep(cfg, states[i - 1], acts[i - 1], states[i]);
      StepKeepsFlights(cfg, states[i - 1], acts[i - 1]);
    }
  }

  // ---------- How requests move along a run ----------

  lemma StepKeepsRequest(cfg: Config, s: State, a: Action, r: nat)
    requires Enabled(cfg, s, a) && r < |s.flights|
    ensures var t := Step(cfg, s, a);
            && |s.flights| <= |t.flights| && t.flights[r].req == s.flights[r].req
            && (s.flights[r].phase == Done ==> t.flights[r] == s.flights[r])
            && (s.flights[r].signal.Some? && FlightOk(cfg, s.flights[r]) ==> t.flights[r].signal == s.flights[r].signal)
            && t.store.now >= s.store.now
  {
  }

  // Requests are never removed or exchanged, what is done stays as it is, and signals never change.
  lemma {:induction false} RequestsPersist(cfg: Config, states: seq<State>, acts: seq<Action>, i: nat, j: nat, r: nat)
    requires IsRun(cfg, states, acts) && i <= j < |states| && r < |states[i].flights|
    ensures r < |states[j].flights| && states[j].flights[r].req == states[i].flights[r].req
    ensures states[i].flights[r].phase == Done ==> states[j].flights[r] == states[i].flights[r]
    ensures states[i].flights[r].signal.Some? ==> states[j].flights[r].signal == states[i].flights[r].signal
    ensures states[i].store.now <= states[j].store.now
    decreases j
  {
    if i < j {
      RequestsPersist(cfg, states, acts, i, j - 1, r);
      RunKeepsFlights(cfg, states, acts, j - 1);
      assert IsStep(cfg, states[j - 1], acts[j - 1], states[j]);
      StepKeepsRequest(cfg, states[j - 1], acts[j - 1], r);
    }
  }

  // The request's own blocklist check, at which it found no live block.
  ghost predicate ClearCheck(states: seq<State>, acts: seq<Action>, j: nat, r: nat) {
    && j < |acts| && j < |states| && acts[j] == Check(r) && r < |states[j].flights|
    && !Live(states[j].store, BlockKey(states[j].flights[r].req.ip))
  }

  lemma {:induction false} ClearedByCheck(cfg: Config, states: seq<State>, acts: seq<Action>, i: nat, r: nat)
    requires IsRun(cfg, states, acts) && i < |states| && r < |states[i].flights|
    requires states[i].flights[r].cleared.Some?
    ensures exists j :: 0 <= j < i && ClearCheck(states, acts, j, r)
  {
    assert i > 0;
    assert IsStep(cfg, states[i - 1], acts[i - 1], states[i]);
    if r < |states[i - 1].flights| && states[i - 1].flights[r].cleared.Some? {
      ClearedByCheck(cfg, states, acts, i - 1, r);
    } else {
      assert ClearCheck(states, acts, i - 1, r);
    }
  }

  // Gate safety. At most one response, of the three kinds; a forwarded request was public or authenticated, had a
  // check that found no live block, attempted exactly one publish, and if it is high-risk or above the threshold
  // the engine was asked and did not say BLOCK. Before the check passes nothing is counted or published; a finished
  // request, forwarded or blocked by the engine, was published once if and only if its check passed.
  lemma GateSafety(cfg: Config, states: seq<State>, acts: seq<Action>, i: nat, r: nat)
    requires IsRun(cfg, states, acts) && i < |states| && r < |states[i].flights|
    ensures var f := states[i].flights[r];
            && f.forwards + |f.statuses| <= 1
            && (f.statuses != [] ==> f.statuses == [401] || f.statuses == [403])
            && (f.statuses == [401] ==> !Admitted(f.req))
            && f.publishes <= 1 && (f.phase.Done? ==> (f.publishes == 1 <==> f.cleared.Some?))
            && (f.cleared.Some? ==> exists j :: 0 <= j < i && ClearCheck(states, acts, j, r))
            && (f.statuses != [] && f.answer != Some(Scored(Block)) ==> Untouched(f))
            && (f.forwards == 1 ==>
                  && Admitted(f.req) && f.cleared.Some? && AllReturned(f)
                  && (Escalates(cfg, f.req.path, f.ten.n) ==> f.answer.Some? && f.answer != Some(Scored(Block)))
                  && (!Escalates(cfg, f.req.path, f.ten.n) ==> f.answer.None?))
  {
    RunKeepsFlights(cfg, states, acts, i);
    var f := states[i].flights[r];
    assert FlightOk(cfg, f);
    if f.cleared.Some? {
      ClearedByCheck(cfg, states, acts, i, r);
    }
  }

  // ---------- Every request finishes ----------

  function Owed(c: CallState): nat {
    match c case Idle => 2 case Owing(_, _) => 1 case Returned(_, _) => 0
  }

  function Remaining(f: Flight): nat {
    match f.phase
    case Arrived => 13
    case Checking => 12
    case Counting => 5 + Owed(f.ten) + Owed(f.sixty) + Owed(f.streak)
    case Routing => 4
    case Scoring => 3
    case Blocking => 2
    case Rejecting => 1
    case Done => 0
    case Aborted => 0
  }

  function ActionsOf(acts: seq<Action>, r: nat): nat {
    if acts == [] then 0
    else ActionsOf(acts[..|acts| - 1], r) + if ActsOn(acts[|acts| - 1], r) then 1 else 0
  }

  lemma OwnActionUsesRemaining(cfg: Config, s: State, a: Action, r: nat)
    requires Enabled(cfg, s, a) && ActsOn(a, r) && r < |s.flights| && FlightOk(cfg, s.flights[r])
    ensures r < |Step(cfg, s, a).flights| && Remaining(Step(cfg, s, a).flights[r]) < Remaining(s.flights[r])
  {
  }

  // A request's own actions use up its remaining steps; nobody else's do.
  lemma StepUsesRemaining(cfg: Config, s: State, a: Action, r: nat)
    requires FlightsOk(cfg, s) && Enabled(cfg, s, a) && r < |s.flights|
    ensures var t := Step(cfg, s, a);
            if ActsOn(a, r) then Remaining(t.flights[r]) < Remaining(s.flights[r]) else t.flights[r] == s.flights[r]
  {
    FlightFrame(cfg, s, a);
    if ActsOn(a, r) {
      assert FlightOk(cfg, s.flights[r]);
      OwnActionUsesRemaining(cfg, s, a, r);
    }
  }

  // A request takes at most thirteen actions, whatever else happens in between.
  lemma {:induction false} BoundedWork(cfg: Config, states: seq<State>, acts: seq<Action>, i: nat, r: nat)
    requires IsRun(cfg, states, acts) && i < |states|
    ensures ActionsOf(acts[..i], r) + (if r < |states[i].flights| then Remaining(states[i].flights[r]) else 13) <= 13
  {
    if i > 0 {
      BoundedWork(cfg, states, acts, i - 1, r);
      RunKeepsFlights(cfg, states, acts, i - 1);
      assert IsStep(cfg, states[i - 1], acts[i - 1], states[i]);
      assert acts[..i][..i - 1] == acts[..i - 1];
      if r < |states[i - 1].flights| {
        StepUsesRemaining(cfg, states[i - 1], acts[i - 1], r);
      }
    }
  }
}
