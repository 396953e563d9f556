/**
 Which requests are audited, over whole runs: the exact conditions for an event to be published, for the consumer
 to skip it, and for a request to get its audit event and its block.
 */
module AuditTrail {
  import opened Wrappers
  import opened Ensemble
  import opened GatewaySignal
  import opened Enforcement
  import opened RedisStore
  import opened CounterHistory
  import opened CounterTheorems
  import opened GateSafety
  import opened BlockTheorems
  import opened Pipeline

  // ---------- Published ----------

  ghost predicate InTopic(s: State, r: nat) {
    exists x :: 0 <= x < |s.topic| && s.topic[x].rid == r
  }

  // A request's event is in the topic if and only if its publish was not lost.
  lemma {:induction false} PublishedExactly(cfg: Config, states: seq<State>, acts: seq<Action>, i: nat, r: nat)
    requires IsRun(cfg, states, acts) && i < |states|
    ensures InTopic(states[i], r) <==> Publish(r, false) in acts[..i]
  {
    if i > 0 {
      PublishedExactly(cfg, states, acts, i - 1, r);
      assert acts[..i] == acts[..i - 1] + [acts[i - 1]];
      assert IsStep(cfg, states[i - 1], acts[i - 1], states[i]);
      TopicChange(cfg, states[i - 1], acts[i - 1], r);
    }
  }

  lemma TopicChange(cfg: Config, s: State, a: Action, r: nat)
    requires Enabled(cfg, s, a)
    ensures InTopic(Step(cfg, s, a), r) <==> InTopic(s, r) || a == Publish(r, false)
  {
    var t := Step(cfg, s, a);
    if InTopic(s, r) {
      var x :| 0 <= x < |s.topic| && s.topic[x].rid == r;
      assert t.topic[x] == s.topic[x];
    }
    if a.Publish? && !a.lost {
      assert t.topic[|s.topic|].rid == a.rid;
    }
  }

  // ---------- How each event ended ----------

  // A server reported an error while the consumer was at event x.
  ghost predicate FailedAt(s: State, a: Action, x: nat) {
    s.pos == x + 1 && ((a.ConsumerWrite? && !a.acknowledged) || (a.Emit? && !a.acknowledged))
  }

  // The consumer was restarted behind event x while it was in work.
  ghost predicate DroppedAt(s: State, a: Action, x: nat) {
    s.pos == x + 1 && !s.consumer.Ready? && a.Restart? && x < a.position
  }

  // The consumer was restarted behind event x before it was polled.
  ghost predicate MissedAt(s: State, a: Action, x: nat) {
    a.Restart? && s.pos <= x < a.position
  }

  ghost predicate FailedBefore(states: seq<State>, acts: seq<Action>, i: nat, x: nat) {
    i <= |acts| <= |states| && exists m :: 0 <= m < i && FailedAt(states[m], acts[m], x)
  }

  ghost predicate DroppedBefore(states: seq<State>, acts: seq<Action>, i: nat, x: nat) {
    i <= |acts| <= |states| && exists m :: 0 <= m < i && DroppedAt(states[m], acts[m], x)
  }

  ghost predicate MissedBefore(states: seq<State>, acts: seq<Action>, i: nat, x: nat) {
    i <= |acts| <= |states| && exists m :: 0 <= m < i && MissedAt(states[m], acts[m], x)
  }

  ghost predicate NoCauseAt(s: State, a: Action, x: nat) {
    !FailedAt(s, a, x) && !DroppedAt(s, a, x) && !MissedAt(s, a, x)
  }

  // One action ends the events it gives an outcome, each for the cause it is, and no others.
  lemma StepEnds(cfg: Config, s: State, a: Action, x: nat)
    requires PositionOk(cfg, s) && Enabled(cfg, s, a) && NoRedelivery(s, a)
    ensures var t := Step(cfg, s, a);
            if |s.outcomes| <= x < |t.outcomes| then
              && x < |s.topic|
              && (t.outcomes[x] == Missed <==> MissedAt(s, a, x))
              && (t.outcomes[x] == Dropped <==> DroppedAt(s, a, x))
              && (t.outcomes[x] == Skipped <==>
                    FailedAt(s, a, x) || (cfg.decide(s.topic[x].signal).None? && !MissedAt(s, a, x)))
            else NoCauseAt(s, a, x)
  {
    if a.Restart? {
      RestartEnds(cfg, s, a.position, x);
    }
  }

  lemma RestartEnds(cfg: Config, s: State, p: nat, x: nat)
    requires PositionOk(cfg, s) && s.pos <= p <= |s.topic|
    ensures |OutcomesAt(s, p)| == p
    ensures |s.outcomes| <= x < p ==>
              && (OutcomesAt(s, p)[x] == Missed <==> s.pos <= x)
              && (OutcomesAt(s, p)[x] == Dropped <==> s.pos == x + 1 && !s.consumer.Ready?)
              && OutcomesAt(s, p)[x] != Skipped
  {
  }

  // An event without an outcome has met no cause.
  lemma {:induction false} NoCauseYet(cfg: Config, states: seq<State>, acts: seq<Action>, i: nat, m: nat, x: nat)
    requires IsRun(cfg, states, acts) && m < i < |states| && NoRedeliveryIn(states, acts, 0, i)
    requires |states[i].outcomes| <= x
    ensures NoCauseAt(states[m], acts[m], x)
  {
    Conservation(cfg, states, acts, i - 1);
    assert IsStep(cfg, states[i - 1], acts[i - 1], states[i]);
    OutcomesGrow(cfg, states[i - 1], acts[i - 1]);
    if m == i - 1 {
      StepEnds(cfg, states[m], acts[m], x);
    } else {
      NoCauseYet(cfg, states, acts, i - 1, m, x);
    }
  }

  ghost predicate EndedFor(cfg: Config, states: seq<State>, acts: seq<Action>, i: nat, x: nat)
    requires i < |states| && x < |states[i].outcomes| && x < |states[i].topic|
  {
    var end := states[i].outcomes[x];
    && (end == Missed <==> MissedBefore(states, acts, i, x))
    && (end == Dropped <==> DroppedBefore(states, acts, i, x))
    && (end == Skipped <==>
          || FailedBefore(states, acts, i, x)
          || (cfg.decide(states[i].topic[x].signal).None? && !MissedBefore(states, acts, i, x)))
  }

  // Without redelivery: an event was missed, dropped or skipped if and only if what each of these words says happened
  // to it, a skip being an error of a server or a signal the engine has no decision on; all others were audited.
  lemma {:induction false} OutcomeExactly(cfg: Config, states: seq<State>, acts: seq<Action>, i: nat, x: nat)
    requires IsRun(cfg, states, acts) && i < |states| && NoRedeliveryIn(states, acts, 0, i)
    requires x < |states[i].outcomes|
    ensures x < |states[i].topic| && EndedFor(cfg, states, acts, i, x)
  {
    Conservation(cfg, states, acts, i - 1);
    assert IsStep(cfg, states[i - 1], acts[i - 1], states[i]);
    if x < |states[i - 1].outcomes| {
      OutcomeExactly(cfg, states, acts, i - 1, x);
      OldOutcomeKept(cfg, states, acts, i - 1, x);
    } else {
      NewOutcome(cfg, states, acts, i - 1, x);
    }
  }

  lemma OldOutcomeKept(cfg: Config, states: seq<State>, acts: seq<Action>, i: nat, x: nat)
    requires IsRun(cfg, states, acts) && i < |acts| && NoRedelivery(states[i], acts[i]) && PositionOk(cfg, states[i])
    requires x < |states[i].outcomes| && x < |states[i + 1].outcomes| && EndedFor(cfg, states, acts, i, x)
    ensures x < |states[i + 1].topic| && EndedFor(cfg, states, acts, i + 1, x)
  {
    var s, a, t := states[i], acts[i], states[i + 1];
    assert IsStep(cfg, s, a, t);
    PositionStep(cfg, s, a);
    StepEnds(cfg, s, a, x);
    OutcomesGrow(cfg, s, a);
    assert t.outcomes[x] == s.outcomes[x] && t.topic[x] == s.topic[x];
    CausesStep(states, acts, i, x);
  }

  lemma NewOutcome(cfg: Config, states: seq<State>, acts: seq<Action>, i: nat, x: nat)
    requires IsRun(cfg, states, acts) && i < |acts| && NoRedeliveryIn(states, acts, 0, i + 1)
    requires PositionOk(cfg, states[i]) && |states[i].outcomes| <= x < |states[i + 1].outcomes|
    ensures x < |states[i + 1].topic| && EndedFor(cfg, states, acts, i + 1, x)
  {
    var s, a, t := states[i], acts[i], states[i + 1];
    assert IsStep(cfg, s, a, t);
    PositionStep(cfg, s, a);
    StepEnds(cfg, s, a, x);
    assert t.topic[x] == s.topic[x];
    forall m | 0 <= m < i
      ensures NoCauseAt(states[m], acts[m], x)
    {
      NoCauseYet(cfg, states, acts, i, m, x);
    }
    CausesStep(states, acts, i, x);
  }

  lemma CausesStep(states: seq<State>, acts: seq<Action>, i: nat, x: nat)
    requires i < |acts| <= |states|
    ensures MissedBefore(states, acts, i + 1, x) <==>
              MissedBefore(states, acts, i, x) || MissedAt(states[i], acts[i], x)
    ensures DroppedBefore(states, acts, i + 1, x) <==>
              DroppedBefore(states, acts, i, x) || DroppedAt(states[i], acts[i], x)
    ensures FailedBefore(states, acts, i + 1, x) <==>
              FailedBefore(states, acts, i, x) || FailedAt(states[i], acts[i], x)
  {
  }

  // ---------- Audited ----------

  ghost predicate HasAudit(s: State, r: nat) {
    exists y :: 0 <= y < |s.audit| && s.audit[y].rid == r
  }

  // Event x is the request's, it is done with, the engine decides its signal, no server failed for it, and no restart
  // went past it.
  ghost predicate Processed(cfg: Config, states: seq<State>, acts: seq<Action>, i: nat, x: nat, r: nat)
    requires i < |states|
  {
    && x < |states[i].outcomes| && x < |states[i].topic| && states[i].topic[x].rid == r
    && cfg.decide(states[i].topic[x].signal).Some? && !FailedBefore(states, acts, i, x)
    && !DroppedBefore(states, acts, i, x) && !MissedBefore(states, acts, i, x)
  }

  // Without redelivery, a request has an audit event if and only if its event was processed.
  lemma AuditedExactly(cfg: Config, states: seq<State>, acts: seq<Action>, i: nat, r: nat)
    requires IsRun(cfg, states, acts) && i < |states| && NoRedeliveryIn(states, acts, 0, i)
    ensures HasAudit(states[i], r) <==> exists x: nat :: Processed(cfg, states, acts, i, x, r)
  {
    var s := states[i];
    Conservation(cfg, states, acts, i);
    AuditInOrder(cfg, states, acts, i);
    if HasAudit(s, r) {
      var y :| 0 <= y < |s.audit| && s.audit[y].rid == r;
      var x := EmittedFrom(s.outcomes, y);
      OutcomeExactly(cfg, states, acts, i, x);
      assert OutcomeOk(cfg, s, x);
      assert Processed(cfg, states, acts, i, x, r);
    }
    if x: nat :| Processed(cfg, states, acts, i, x, r) {
      OutcomeExactly(cfg, states, acts, i, x);
      assert s.outcomes[x].Audited? && OutcomeOk(cfg, s, x);
    }
  }

  lemma {:induction false} EmittedFrom(outcomes: seq<Outcome>, y: nat) returns (x: nat)
    requires y < |Emitted(outcomes)|
    ensures x < |outcomes| && outcomes[x] == Audited(Emitted(outcomes)[y])
  {
    var rest := outcomes[..|outcomes| - 1];
    if y < |Emitted(rest)| {
      x := EmittedFrom(rest, y);
    } else {
      x := |rest|;
    }
  }

  // The servers answer every write and send without an error, and a restart never goes past an event that is not done
  // with. Redelivery is allowed.
  ghost predicate AtLeastOnce(states: seq<State>, acts: seq<Action>, i: nat) {
    i <= |acts| <= |states| && forall m :: 0 <= m < i ==> ReliableStep(states[m], acts[m])
  }

  ghost predicate ReliableStep(s: State, a: Action) {
    && (a.ConsumerWrite? ==> a.acknowledged) && (a.Emit? ==> a.acknowledged)
    && (a.Restart? ==> a.position <= |s.outcomes|)
  }

  // The consumer has dealt with the whole topic.
  ghost predicate Drained(s: State) {
    |s.outcomes| == |s.topic|
  }

  ghost predicate DecidedOutcome(cfg: Config, s: State, x: nat)
    requires x < |s.outcomes| && x < |s.topic|
  {
    if cfg.decide(s.topic[x].signal).Some? then s.outcomes[x].Audited? else s.outcomes[x] == Skipped
  }

  lemma {:induction false} OnlyUndecidedSkipped(cfg: Config, states: seq<State>, acts: seq<Action>, i: nat, x: nat)
    requires IsRun(cfg, states, acts) && i < |states| && AtLeastOnce(states, acts, i) && x < |states[i].outcomes|
    ensures x < |states[i].topic| && DecidedOutcome(cfg, states[i], x)
  {
    var s, a := states[i - 1], acts[i - 1];
    Conservation(cfg, states, acts, i - 1);
    assert IsStep(cfg, s, a, states[i]) && ReliableStep(s, a);
    PositionStep(cfg, s, a);
    if x < |s.outcomes| {
      OnlyUndecidedSkipped(cfg, states, acts, i - 1, x);
    }
    ReliableStepDecides(cfg, s, a, x);
  }

  lemma ReliableStepDecides(cfg: Config, s: State, a: Action, x: nat)
    requires PositionOk(cfg, s) && Enabled(cfg, s, a) && ReliableStep(s, a) && x < |Step(cfg, s, a).outcomes|
    requires x < |s.outcomes| ==> DecidedOutcome(cfg, s, x)
    ensures x < |Step(cfg, s, a).topic| && DecidedOutcome(cfg, Step(cfg, s, a), x)
  {
  }

  // With servers that report no error and restarts that pass over nothing, when the topic is dealt with: a request is
  // audited if and only if its publish was not lost and the engine has a decision on its signal. UNSCORED or not makes
  // no difference.
  lemma AuditedWhenReliable(cfg: Config, states: seq<State>, acts: seq<Action>, i: nat, r: nat)
    requires IsRun(cfg, states, acts) && i < |states| && AtLeastOnce(states, acts, i) && Drained(states[i])
    ensures HasAudit(states[i], r) <==>
              && Publish(r, false) in acts[..i]
              && r < |states[i].flights| && states[i].flights[r].signal.Some?
              && cfg.decide(states[i].flights[r].signal.value).Some?
  {
    var s := states[i];
    Conservation(cfg, states, acts, i);
    PublishedExactly(cfg, states, acts, i, r);
    RunKeepsBlocks(cfg, states, acts, i);
    if HasAudit(s, r) {
      var y :| 0 <= y < |s.audit| && s.audit[y].rid == r;
      assert FromTopic(cfg, s, s.audit[y]);
      var x :| 0 <= x < |s.topic| && cfg.decide(s.topic[x].signal).Some? && s.audit[y] == AuditOf(cfg, s.topic[x]);
      assert EventOk(s, s.topic[x]);
    }
    if InTopic(s, r) {
      var x :| 0 <= x < |s.topic| && s.topic[x].rid == r;
      OnlyUndecidedSkipped(cfg, states, acts, i, x);
      assert EventOk(s, s.topic[x]) && OutcomeOk(cfg, s, x);
    }
  }

  ghost predicate ConsumerWrote(s: State, r: nat) {
    exists y :: 0 <= y < |s.writes| && s.writes[y].writer == StreamConsumer && s.writes[y].rid == r
  }

  // Likewise the asynchronous path has caught up: it has written the block for a request, whatever the request was
  // answered, if and only if the publish was not lost, the decision on its signal is BLOCK and its ip is known.
  lemma CaughtUpExactly(cfg: Config, states: seq<State>, acts: seq<Action>, i: nat, r: nat)
    requires IsRun(cfg, states, acts) && i < |states| && AtLeastOnce(states, acts, i) && Drained(states[i])
    ensures ConsumerWrote(states[i], r) <==>
              && Publish(r, false) in acts[..i]
              && r < |states[i].flights| && states[i].flights[r].signal.Some?
              && cfg.decide(states[i].flights[r].signal.value) == Some(Block)
              && states[i].flights[r].req.ip != "unknown"
  {
    var s := states[i];
    RunKeepsBlocks(cfg, states, acts, i);
    PublishedExactly(cfg, states, acts, i, r);
    AuditedWhenReliable(cfg, states, acts, i, r);
    if ConsumerWrote(s, r) {
      var y :| 0 <= y < |s.writes| && s.writes[y].writer == StreamConsumer && s.writes[y].rid == r;
      assert WriteOk(cfg, s, y);
      var ev := RawEvent(r, s.writes[y].ip, s.writes[y].signal);
      assert ev in s.topic;
      assert InTopic(s, r);
    }
    if HasAudit(s, r) && cfg.decide(s.flights[r].signal.value) == Some(Block) && s.flights[r].req.ip != UNKNOWN_IP {
      var y :| 0 <= y < |s.audit| && s.audit[y].rid == r;
      assert AuditOk(cfg, s, s.audit[y]);
      var w :| w in s.writes && w.writer == StreamConsumer && w.rid == r && w.signal == s.flights[r].signal.value;
    }
  }

  // ---------- The malformed signal ----------

  // A token dated after the gateway's clock gives a negative session age, and the engine has no decision on that.
  lemma FutureTokenUndecided(cfg: Config, a: Artifacts, lg: real -> real, req: Request, n10: int, n60: int, streak: int)
    requires RunsEngine(cfg, a, lg) && n10 >= 1 && n60 >= 1 && streak >= 1
    ensures cfg.decide(BuildSignal(cfg, req, n10, n60, streak)).None? <==>
              ToInt32(streak) < 0 || (ClaimsOf(req).Some? && ClaimsOf(req).value.age < 0.0)
  {
    SignalWellFormed(cfg, req, n10, n60, streak);
    var sig := BuildSignal(cfg, req, n10, n60, streak);
    assert cfg.decide(sig) == EngineDecision(a, lg, sig);
  }

  // The audit condition in terms of the request, with the engine deciding: the publish was not lost, the streak
  // survives its narrowing to 32 bits non-negative, and the token is not from the future.
  lemma AuditedByRequest(cfg: Config, a: Artifacts, lg: real -> real,
                         states: seq<State>, acts: seq<Action>, i: nat, r: nat)
    requires RunsEngine(cfg, a, lg)
    requires IsRun(cfg, states, acts) && i < |states| && AtLeastOnce(states, acts, i) && Drained(states[i])
    ensures HasAudit(states[i], r) <==>
              && Publish(r, false) in acts[..i]
              && r < |states[i].flights|
              && var f := states[i].flights[r];
                 && f.streak.Returned? && ToInt32(f.streak.n) >= 0
                 && (ClaimsOf(f.req).Some? ==> ClaimsOf(f.req).value.age >= 0.0)
  {
    var s := states[i];
    AuditedWhenReliable(cfg, states, acts, i, r);
    PublishedExactly(cfg, states, acts, i, r);
    if InTopic(s, r) {
      RunKeepsBlocks(cfg, states, acts, i);
      var x :| 0 <= x < |s.topic| && s.topic[x].rid == r;
      assert EventOk(s, s.topic[x]);
      SignalFromCounts(cfg, states, acts, i, r);
      var f := s.flights[r];
      FutureTokenUndecided(cfg, a, lg, f.req, f.ten.n, f.sixty.n, f.streak.n);
    }
  }

  // A built signal is that of the request's three counts, each at least 1.
  lemma SignalFromCounts(cfg: Config, states: seq<State>, acts: seq<Action>, i: nat, r: nat)
    requires IsRun(cfg, states, acts) && i < |states| && r < |states[i].flights| && states[i].flights[r].signal.Some?
    ensures var f := states[i].flights[r];
            && AllReturned(f) && f.signal.value == SignalOf(cfg, f)
            && f.ten.n >= 1 && f.sixty.n >= 1 && f.streak.n >= 1
  {
    var s := states[i];
    RunKeepsStore(cfg, states, acts, i);
    RunKeepsDebts(cfg, states, acts, i);
    RunKeepsFlights(cfg, states, acts, i);
    assert FlightOk(cfg, s.flights[r]);
    CountPositive(cfg, s, r, Ten);
    CountPositive(cfg, s, r, Sixty);
    CountPositive(cfg, s, r, Streak);
  }

  lemma CountPositive(cfg: Config, s: State, r: nat, c: Call)
    requires StoreInv(s.store) && CallsOk(cfg, s) && r < |s.flights| && CallOf(s.flights[r], c).Returned?
    ensures CallOf(s.flights[r], c).n >= 1
  {
    assert CallOk(cfg, s, r, c);
    assert HitOk(s.store, CallOf(s.flights[r], c).at);
  }

  // In every run, redelivery and failures included, a request whose signal the engine has no decision on is never
  // scored, never blocked for, and never audited; once finished it has been forwarded.
  lemma UndecidedBypass(cfg: Config, states: seq<State>, acts: seq<Action>, i: nat, r: nat)
    requires IsRun(cfg, states, acts) && i < |states| && r < |states[i].flights|
    requires states[i].flights[r].signal.Some? && cfg.decide(states[i].flights[r].signal.value).None?
    ensures var s, f := states[i], states[i].flights[r];
            && (f.answer.Some? ==> f.answer == Some(Unscored))
            && (f.phase.Done? ==> f.forwards == 1 && f.statuses == [])
            && (forall y :: 0 <= y < |s.writes| ==> s.writes[y].rid != r)
            && !HasAudit(s, r)
  {
    var s := states[i];
    RunKeepsFlights(cfg, states, acts, i);
    RunKeepsBlocks(cfg, states, acts, i);
    assert FlightOk(cfg, s.flights[r]);
    forall y | 0 <= y < |s.writes|
      ensures s.writes[y].rid != r
    {
      assert WriteOk(cfg, s, y);
    }
    forall y | 0 <= y < |s.audit|
      ensures s.audit[y].rid != r
    {
      assert AuditOk(cfg, s, s.audit[y]);
    }
  }
}
