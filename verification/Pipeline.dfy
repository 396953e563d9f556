/**
 The stream consumer over whole runs: what it has done with each event, whatever restarts do, and the order of the
 audit when no event comes again.
 */
module Pipeline {
  import opened Wrappers
  import opened Ensemble
  import opened GatewaySignal
  import opened Enforcement
  import opened BlockTheorems

  // The audit events among the outcomes, in order.
  function Emitted(outcomes: seq<Outcome>): seq<AuditEvent> {
    if outcomes == [] then []
    else
      var rest := Emitted(outcomes[..|outcomes| - 1]);
      match outcomes[|outcomes| - 1] case Audited(e) => rest + [e] case _ => rest
  }

  // An audited event has left its own audit event.
  ghost predicate OutcomeOk(cfg: Config, s: State, x: nat)
    requires x < |s.outcomes| && x < |s.topic|
  {
    s.outcomes[x].Audited? ==>
      && cfg.decide(s.topic[x].signal).Some? && s.outcomes[x].event == AuditOf(cfg, s.topic[x])
      && s.outcomes[x].event in s.audit
  }

  // An audit event is that of an event in the topic.
  ghost predicate FromTopic(cfg: Config, s: State, e: AuditEvent) {
    exists x :: 0 <= x < |s.topic| && cfg.decide(s.topic[x].signal).Some? && e == AuditOf(cfg, s.topic[x])
  }

  // One outcome for each event before the consumer's position, except the one in work.
  ghost predicate PositionOk(cfg: Config, s: State) {
    && s.pos <= |s.topic|
    && |s.outcomes| + (if s.consumer.Ready? then 0 else 1) == s.pos
    && (!s.consumer.Ready? ==>
          s.consumer.ev == s.topic[s.pos - 1] && cfg.decide(s.consumer.ev.signal).Some?)
  }

  ghost predicate PipelineOk(cfg: Config, s: State) {
    && PositionOk(cfg, s)
    && (forall x :: 0 <= x < |s.outcomes| ==> OutcomeOk(cfg, s, x))
    && (forall y :: 0 <= y < |s.audit| ==> FromTopic(cfg, s, s.audit[y]))
  }

  lemma PositionStep(cfg: Config, s: State, a: Action)
    requires PositionOk(cfg, s) && Enabled(cfg, s, a)
    ensures PositionOk(cfg, Step(cfg, s, a)) && s.topic <= Step(cfg, s, a).topic
  {
  }

  // What an action adds to the audit: the event in work, when its send is accepted.
  lemma AuditStep(cfg: Config, s: State, a: Action)
    requires PositionOk(cfg, s) && Enabled(cfg, s, a)
    ensures Step(cfg, s, a).audit
         == s.audit + if a == Emit(true) then [AuditOf(cfg, s.topic[s.pos - 1])] else []
  {
  }

  // An outcome is kept, or it is the new one.
  lemma OutcomeStep(cfg: Config, s: State, a: Action, x: nat)
    requires PositionOk(cfg, s) && Enabled(cfg, s, a) && x < |Step(cfg, s, a).outcomes|
    ensures var t := Step(cfg, s, a);
            || (x < |s.outcomes| && t.outcomes[x] == s.outcomes[x])
            || (x >= |s.outcomes| && !t.outcomes[x].Audited?)
            || (x == |s.outcomes| == s.pos - 1 && a == Emit(true) && t.outcomes[x] == Audited(AuditOf(cfg, s.topic[x])))
  {
  }

  lemma StepKeepsPipeline(cfg: Config, s: State, a: Action)
    requires PipelineOk(cfg, s) && Enabled(cfg, s, a)
    ensures PipelineOk(cfg, Step(cfg, s, a))
  {
    var t := Step(cfg, s, a);
    PositionStep(cfg, s, a);
    AuditStep(cfg, s, a);
    forall x | 0 <= x < |t.outcomes|
      ensures OutcomeOk(cfg, t, x)
    {
      OutcomeStep(cfg, s, a, x);
      assert x < |s.outcomes| ==> OutcomeOk(cfg, s, x);
      assert a == Emit(true) ==> t.audit[|s.audit|] == AuditOf(cfg, s.topic[s.pos - 1]);
    }
    forall y | 0 <= y < |t.audit|
      ensures FromTopic(cfg, t, t.audit[y])
    {
      if y < |s.audit| {
        assert FromTopic(cfg, s, s.audit[y]);
        var x :| 0 <= x < |s.topic| && cfg.decide(s.topic[x].signal).Some? && s.audit[y] == AuditOf(cfg, s.topic[x]);
        assert t.topic[x] == s.topic[x];
      } else {
        assert t.topic[s.pos - 1] == s.topic[s.pos - 1];
      }
    }
  }

  // In every run, wherever the consumer is restarted: each event before its position has one outcome or is the one in
  // work, an audited event has left its own audit event, and every audit event is that of some event in the topic.
  lemma {:induction false} Conservation(cfg: Config, states: seq<State>, acts: seq<Action>, i: nat)
    requires IsRun(cfg, states, acts) && i < |states|
    ensures PipelineOk(cfg, states[i])
  {
    if i > 0 {
      Conservation(cfg, states, acts, i - 1);
      assert IsStep(cfg, states[i - 1], acts[i - 1], states[i]);
      StepKeepsPipeline(cfg, states[i - 1], acts[i - 1]);
    }
  }

  // Without redelivery the audit is in the order of the topic and holds each event at most once: it is the audit events
  // among the outcomes. Events may be missing from it; their outcomes say why.
  lemma {:induction false} AuditInOrder(cfg: Config, states: seq<State>, acts: seq<Action>, i: nat)
    requires IsRun(cfg, states, acts) && i < |states| && NoRedeliveryIn(states, acts, 0, i)
    ensures states[i].audit == Emitted(states[i].outcomes)
  {
    if i > 0 {
      AuditInOrder(cfg, states, acts, i - 1);
      Conservation(cfg, states, acts, i - 1);
      assert IsStep(cfg, states[i - 1], acts[i - 1], states[i]);
      InOrderStep(cfg, states[i - 1], acts[i - 1]);
    }
  }

  lemma InOrderStep(cfg: Config, s: State, a: Action)
    requires PositionOk(cfg, s) && Enabled(cfg, s, a) && NoRedelivery(s, a) && s.audit == Emitted(s.outcomes)
    ensures Step(cfg, s, a).audit == Emitted(Step(cfg, s, a).outcomes)
  {
    var outcomes := Step(cfg, s, a).outcomes;
    OutcomesGrow(cfg, s, a);
    AuditStep(cfg, s, a);
    if a == Emit(true) {
      assert outcomes[..|s.outcomes|] == s.outcomes;
    } else {
      NothingMoreEmitted(s.outcomes, outcomes);
    }
  }

  lemma OutcomesGrow(cfg: Config, s: State, a: Action)
    requires PositionOk(cfg, s) && Enabled(cfg, s, a) && NoRedelivery(s, a)
    ensures var t := Step(cfg, s, a);
            && s.outcomes <= t.outcomes
            && (a == Emit(true) ==> t.outcomes == s.outcomes + [Audited(AuditOf(cfg, s.topic[s.pos - 1]))])
            && (a != Emit(true) ==> forall x :: |s.outcomes| <= x < |t.outcomes| ==> !t.outcomes[x].Audited?)
  {
    var t := Step(cfg, s, a);
    if a.Restart? {
      assert s.outcomes == t.outcomes[..|s.outcomes|];
    }
  }

  lemma {:induction false} NothingMoreEmitted(outcomes: seq<Outcome>, more: seq<Outcome>)
    requires outcomes <= more && forall x :: |outcomes| <= x < |more| ==> !more[x].Audited?
    ensures Emitted(more) == Emitted(outcomes)
    decreases |more|
  {
    if |outcomes| < |more| {
      NothingMoreEmitted(outcomes, more[..|more| - 1]);
    } else {
      assert more == outcomes;
    }
  }

  // Restarts or not, two audit events of one request are the same event.
  lemma DuplicatesAgree(cfg: Config, states: seq<State>, acts: seq<Action>, i: nat, x: nat, y: nat)
    requires IsRun(cfg, states, acts) && i < |states| && x < |states[i].audit| && y < |states[i].audit|
    requires states[i].audit[x].rid == states[i].audit[y].rid
    ensures states[i].audit[x] == states[i].audit[y]
  {
    RunKeepsBlocks(cfg, states, acts, i);
    assert AuditOk(cfg, states[i], states[i].audit[x]) && AuditOk(cfg, states[i], states[i].audit[y]);
  }

  // A BLOCK for a known ip is emitted only after its blocklist write was committed.
  lemma WriteBeforeAudit(cfg: Config, states: seq<State>, acts: seq<Action>, i: nat)
    requires IsRun(cfg, states, acts) && i < |acts| && acts[i].Emit?
    ensures states[i].consumer.Emitting?
    ensures var ev := states[i].consumer.ev;
            cfg.decide(ev.signal) == Some(Block) && ev.ip != UNKNOWN_IP ==> WrittenFor(states[i], ev.rid, ev.signal)
  {
    assert IsStep(cfg, states[i], acts[i], states[i + 1]);
    RunKeepsBlocks(cfg, states, acts, i);
  }
}
