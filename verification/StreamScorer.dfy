/**
 The stream consumer as the loop it is, on real mutable objects, proved to be an execution of the enforcement loop.
 */
module StreamScorer {
  import opened Wrappers
  import opened RedisStore
  import opened Ensemble
  import opened GatewaySignal
  import opened Enforcement
  import opened Executions
  import opened Pipeline

  // How the servers treat one message: whether the blocklist write is committed, whether the consumer learns of it,
  // and whether the audit event is accepted. An error answer is an exception in the consumer.
  datatype Fate = Fate(committed: bool, acknowledged: bool, emitted: bool)

  // Every event since s was audited or skipped, and the audit got the audited ones in order.
  ghost predicate DealtWith(s: State, t: State) {
    && s.outcomes <= t.outcomes && t.audit == s.audit + Emitted(t.outcomes[|s.outcomes|..])
    && forall x :: |s.outcomes| <= x < |t.outcomes| ==> t.outcomes[x].Audited? || t.outcomes[x] == Skipped
  }

  lemma DealtWithMore(s: State, m: State, t: State, o: Outcome)
    requires DealtWith(s, m) && (o.Audited? || o == Skipped) && t.outcomes == m.outcomes + [o]
    requires t.audit == m.audit + if o.Audited? then [o.event] else []
    ensures DealtWith(s, t)
  {
    var more := t.outcomes[|s.outcomes|..];
    assert more[..|more| - 1] == m.outcomes[|s.outcomes|..];
  }

  predicate ConsumerAction(a: Action) {
    a.Poll? || a.ConsumerWrite? || a.Emit?
  }

  // From s the consumer comes to t by its own actions, without a restart.
  ghost predicate ConsumerExec(cfg: Config, s: State, acts: seq<Action>, t: State) {
    && Exec(cfg, s, acts) == Some(t) && PipelineOk(cfg, t)
    && t.topic == s.topic && t.flights == s.flights && DealtWith(s, t)
    && forall i :: 0 <= i < |acts| ==> ConsumerAction(acts[i])
  }

  lemma OneMoreAction(cfg: Config, s: State, before: seq<Action>, m: State, a: Action)
    requires ConsumerExec(cfg, s, before, m) && Enabled(cfg, m, a) && ConsumerAction(a)
    ensures ConsumerExec(cfg, s, before + [a], Step(cfg, m, a))
  {
    ExecOneMore(cfg, s, before, m, a);
    StepKeepsPipeline(cfg, m, a);
    DealtWithStep(cfg, s, m, a);
  }

  lemma DealtWithStep(cfg: Config, s: State, m: State, a: Action)
    requires DealtWith(s, m) && PipelineOk(cfg, m) && Enabled(cfg, m, a) && ConsumerAction(a)
    ensures var t := Step(cfg, m, a); DealtWith(s, t) && t.topic == m.topic && t.flights == m.flights
  {
    var t := Step(cfg, m, a);
    ConsumerEffect(cfg, m, a);
    if t.outcomes != m.outcomes {
      DealtWithMore(s, m, t, t.outcomes[|m.outcomes|]);
    }
  }

  // A consumer action leaves the outcomes and the audit alone or ends one event.
  lemma ConsumerEffect(cfg: Config, m: State, a: Action)
    requires Enabled(cfg, m, a) && ConsumerAction(a)
    ensures var t := Step(cfg, m, a);
            && t.topic == m.topic && t.flights == m.flights
            && ((t.outcomes == m.outcomes && t.audit == m.audit)
                || (t.outcomes == m.outcomes + [Skipped] && t.audit == m.audit)
                || (exists e :: t.outcomes == m.outcomes + [Audited(e)] && t.audit == m.audit + [e]))
  {
  }

  class ThreatConsumer {
    const redis: Redis
    const properties: Config
    var position: nat
    var outcomes: seq<Outcome>
    var audit: seq<AuditEvent>
    var writes: nat

    constructor (redis: Redis, properties: Config, position: nat, writes: nat)
      ensures this.redis == redis && this.properties == properties && outcomes == [] && audit == []
      ensures this.position == position && this.writes == writes
    {
      this.redis, this.properties, this.position, this.writes := redis, properties, position, writes;
      outcomes, audit := [], [];
    }

    ghost predicate Mirrors(s: State)
      reads this, redis
    {
      && redis.View() == s.store && position == s.pos && writes == |s.writes|
      && outcomes == s.outcomes && audit == s.audit
    }

    ghost predicate Consuming(s: State, acts: seq<Action>, t: State)
      reads this, redis
    {
      Mirrors(t) && ConsumerExec(properties, s, acts, t)
    }

    // Score one message, write the blocklist, then emit the audit event; an exception skips the rest.
    method ProcessMessage(ev: RawEvent, fate: Fate, ghost s: State, ghost before: seq<Action>, ghost m: State)
      returns (ghost acts: seq<Action>, ghost t: State)
      requires Consuming(s, before, m) && m.consumer == Ready && m.pos < |m.topic| && ev == m.topic[m.pos]
      requires fate.acknowledged ==> fate.committed
      modifies this, redis
      ensures Consuming(s, acts, t) && t.consumer == Ready && t.pos == m.pos + 1
    {
      var decision := properties.decide(ev.signal);
      OneMoreAction(properties, s, before, m, Poll);
      acts, t := before + [Poll], Step(properties, m, Poll);
      position := position + 1;
      if decision.None? {
        outcomes := outcomes + [Skipped];
        return;
      }
      if decision.value == Block && ev.ip != UNKNOWN_IP {
        acts, t := WriteBlocklist(ev, fate, s, acts, t);
        if !fate.acknowledged {
          return;
        }
      }
      acts, t := EmitAudit(ev, decision.value, fate, s, acts, t);
    }

    method WriteBlocklist(ev: RawEvent, fate: Fate, ghost s: State, ghost before: seq<Action>, ghost m: State)
      returns (ghost acts: seq<Action>, ghost t: State)
      requires Consuming(s, before, m) && m.consumer == Writing(ev) && (fate.acknowledged ==> fate.committed)
      modifies this, redis
      ensures Consuming(s, acts, t) && t.pos == m.pos
      ensures t.consumer == if fate.acknowledged then Emitting(ev) else Ready
    {
      ghost var a := ConsumerWrite(fate.committed, fate.acknowledged);
      OneMoreAction(properties, s, before, m, a);
      acts, t := before + [a], Step(properties, m, a);
      if fate.committed {
        redis.Set(BlockKey(ev.ip), BLOCK_REASON, properties.consumerTtl * SECOND, writes);
        writes := writes + 1;
      }
      if !fate.acknowledged {
        outcomes := outcomes + [Skipped];
      }
    }

    method EmitAudit(ev: RawEvent, decision: Verdict, fate: Fate,
                     ghost s: State, ghost before: seq<Action>, ghost m: State)
      returns (ghost acts: seq<Action>, ghost t: State)
      requires Consuming(s, before, m) && m.consumer == Emitting(ev) && properties.decide(ev.signal) == Some(decision)
      modifies this
      ensures Consuming(s, acts, t) && t.pos == m.pos && t.consumer == Ready
    {
      ghost var a := Emit(fate.emitted);
      OneMoreAction(properties, s, before, m, a);
      acts, t := before + [a], Step(properties, m, a);
      if fate.emitted {
        var event := AuditEvent(ev.rid, ev.ip, decision);
        audit := audit + [event];
        outcomes := outcomes + [Audited(event)];
      } else {
        outcomes := outcomes + [Skipped];
      }
    }

    // All messages waiting in the topic, one after the other: each leaves exactly one outcome.
    method ConsumeLoop(messages: seq<RawEvent>, fates: seq<Fate>, ghost s: State)
      returns (ghost acts: seq<Action>, ghost t: State)
      requires Mirrors(s) && PipelineOk(properties, s) && s.consumer == Ready
      requires messages == s.topic[s.pos..] && |fates| == |messages|
      requires forall i :: 0 <= i < |fates| ==> fates[i].acknowledged ==> fates[i].committed
      modifies this, redis
      ensures Consuming(s, acts, t) && t.consumer == Ready && t.pos == |s.topic|
      ensures |outcomes| == |s.topic| && DealtWith(s, t)
    {
      acts, t := [], s;
      for i := 0 to |messages|
        invariant Consuming(s, acts, t) && t.consumer == Ready && t.pos == s.pos + i
      {
        acts, t := ProcessMessage(messages[i], fates[i], s, acts, t);
      }
    }
  }
}
