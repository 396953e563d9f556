/**
 The blocklist over whole runs: where a block comes from, how long it lasts with two independent writers, and why
 it cannot keep itself alive.
 */
module BlockTheorems {
  import opened Wrappers
  import opened RedisStore
  import opened Features
  import opened Ensemble
  import opened GatewaySignal
  import opened Enforcement
  import opened GateSafety

  function MinTtl(cfg: Config): int {
    Min(TtlOf(cfg, Gateway), TtlOf(cfg, StreamConsumer))
  }

  function MaxTtl(cfg: Config): int {
    Max(TtlOf(cfg, Gateway), TtlOf(cfg, StreamConsumer))
  }

  // The request `r` of `ip` built this signal.
  ghost predicate BuiltBy(s: State, r: nat, ip: string, sig: Signal) {
    r < |s.flights| && s.flights[r].req.ip == ip && s.flights[r].signal == Some(sig)
  }

  ghost predicate EventOk(s: State, ev: RawEvent) {
    BuiltBy(s, ev.rid, ev.ip, ev.signal)
  }

  // A write was for a BLOCK decision on a signal of the same ip, and the key still lasts as long as any writer
  // would have made it last.
  ghost predicate WriteOk(cfg: Config, s: State, i: nat)
    requires i < |s.writes|
  {
    var w := s.writes[i];
    && BuiltBy(s, w.rid, w.ip, w.signal) && cfg.decide(w.signal) == Some(Block)
    && (w.writer == Gateway ==> s.flights[w.rid].answer == Some(Scored(Block)))
    && (w.writer == StreamConsumer ==> w.ip != UNKNOWN_IP && RawEvent(w.rid, w.ip, w.signal) in s.topic)
    && w.time <= s.store.now
    && BlockKey(w.ip) in s.store.db && s.store.db[BlockKey(w.ip)].deadline.Some?
    && w.time + MinTtl(cfg) <= s.store.db[BlockKey(w.ip)].deadline.value
  }

  // A blocklist key carries the deadline of the write it names.
  ghost predicate BlockOk(cfg: Config, s: State, k: string)
    requires k in s.store.db
  {
    var e := s.store.db[k];
    && e.inc < |s.writes|
    && BlockKey(s.writes[e.inc].ip) == k
    && e.deadline == Some(s.writes[e.inc].time + TtlOf(cfg, s.writes[e.inc].writer))
  }

  // The stream consumer wrote the block for this event.
  ghost predicate WrittenFor(s: State, rid: nat, sig: Signal) {
    exists w :: w in s.writes && w.writer == StreamConsumer && w.rid == rid && w.signal == sig
  }

  ghost predicate ConsumerOk(cfg: Config, s: State) {
    match s.consumer
    case Ready => true
    case Writing(ev) => ev in s.topic && EventOk(s, ev) && cfg.decide(ev.signal) == Some(Block) && ev.ip != UNKNOWN_IP
    case Emitting(ev) =>
      && ev in s.topic && EventOk(s, ev)
      && (cfg.decide(ev.signal) == Some(Block) && ev.ip != UNKNOWN_IP ==> WrittenFor(s, ev.rid, ev.signal))
  }

  // An audit event reports the decision on its request's signal; a BLOCK for a known ip came after its write.
  ghost predicate AuditOk(cfg: Config, s: State, a: AuditEvent) {
    && a.rid < |s.flights| && s.flights[a.rid].signal.Some? && s.flights[a.rid].req.ip == a.ip
    && cfg.decide(s.flights[a.rid].signal.value) == Some(a.decision)
    && (a.decision == Block && a.ip != UNKNOWN_IP ==> WrittenFor(s, a.rid, s.flights[a.rid].signal.value))
  }

  ghost predicate BlocksOk(cfg: Config, s: State) {
    && (forall i :: 0 <= i < |s.writes| ==> WriteOk(cfg, s, i))
    && (forall k :: k in s.store.db && IsBlockKey(k) ==> BlockOk(cfg, s, k))
    && (forall i :: 0 <= i < |s.topic| ==> EventOk(s, s.topic[i]))
    && ConsumerOk(cfg, s)
    && (forall i :: 0 <= i < |s.audit| ==> AuditOk(cfg, s, s.audit[i]))
  }

  // Flights keep their request, signal and answer, the clock does not go back, and topic and log only grow.
  ghost predicate Grown(s: State, t: State) {
    && |s.flights| <= |t.flights| && s.store.now <= t.store.now && s.writes <= t.writes && s.topic <= t.topic
    && (forall r :: 0 <= r < |s.flights| ==> FlightGrown(s.flights[r], t.flights[r]))
  }

  ghost predicate FlightGrown(f: Flight, g: Flight) {
    && g.req == f.req
    && (f.signal.Some? ==> g.signal == f.signal)
    && (f.answer.Some? ==> g.answer == f.answer)
  }

  lemma GrownTransitive(s: State, t: State, u: State)
    requires Grown(s, t) && Grown(t, u)
    ensures Grown(s, u)
  {
    forall r | 0 <= r < |s.flights|
      ensures FlightGrown(s.flights[r], u.flights[r])
    {
      assert FlightGrown(s.flights[r], t.flights[r]) && FlightGrown(t.flights[r], u.flights[r]);
    }
  }

  lemma OwnFlightGrows(cfg: Config, s: State, a: Action, r: nat)
    requires Enabled(cfg, s, a) && ActsOn(a, r) && r < |s.flights| && FlightOk(cfg, s.flights[r])
    ensures r < |Step(cfg, s, a).flights| && FlightGrown(s.flights[r], Step(cfg, s, a).flights[r])
  {
  }

  lemma LogGrows(cfg: Config, s: State, a: Action)
    requires Enabled(cfg, s, a)
    ensures s.store.now <= Step(cfg, s, a).store.now && s.writes <= Step(cfg, s, a).writes
    ensures s.topic <= Step(cfg, s, a).topic
  {
  }

  lemma StepGrows(cfg: Config, s: State, a: Action)
    requires FlightsOk(cfg, s) && Enabled(cfg, s, a)
    ensures Grown(s, Step(cfg, s, a))
  {
    FlightFrame(cfg, s, a);
    LogGrows(cfg, s, a);
    if OwnerOf(a).Some? {
      assert FlightOk(cfg, s.flights[OwnerOf(a).value]);
      OwnFlightGrows(cfg, s, a, OwnerOf(a).value);
    }
  }

  lemma WrittenForGrows(s: State, t: State, rid: nat, sig: Signal)
    requires Grown(s, t) && WrittenFor(s, rid, sig)
    ensures WrittenFor(t, rid, sig)
  {
    var w :| w in s.writes && w.writer == StreamConsumer && w.rid == rid && w.signal == sig;
    assert w in t.writes;
  }

  // A step touches a blocklist key only by committing a write.
  predicate Commits(a: Action) {
    a.WriteBlock? || (a.ConsumerWrite? && a.committed)
  }

  // The event or request a write is for.
  function WriteSource(s: State, a: Action): Write
    requires (a.WriteBlock? && a.rid < |s.flights| && s.flights[a.rid].signal.Some?)
          || (a.ConsumerWrite? && s.consumer.Writing?)
  {
    if a.WriteBlock?
    then Write(s.flights[a.rid].req.ip, Gateway, a.rid, s.flights[a.rid].signal.value, s.store.now)
    else Write(s.consumer.ev.ip, StreamConsumer, s.consumer.ev.rid, s.consumer.ev.signal, s.store.now)
  }

  lemma CommitEffect(cfg: Config, s: State, a: Action)
    requires Enabled(cfg, s, a) && Commits(a)
    ensures var t, w := Step(cfg, s, a), WriteSource(s, a);
            && t.writes == s.writes + [w] && t.store.now == s.store.now
            && t.store.db == s.store.db[BlockKey(w.ip) :=
                 Entry(Text(BLOCK_REASON), Some(s.store.now + TtlOf(cfg, w.writer)), |s.writes|)]
  {
  }

  lemma BlockFrame(cfg: Config, s: State, a: Action, k: string)
    requires Enabled(cfg, s, a) && !Commits(a) && IsBlockKey(k)
    ensures var t := Step(cfg, s, a);
            && t.writes == s.writes && (k in t.store.db <==> k in s.store.db)
            && (k in s.store.db ==> t.store.db[k] == s.store.db[k])
  {
  }

  lemma OldWriteKept(cfg: Config, s: State, a: Action, i: nat)
    requires BlocksOk(cfg, s) && FlightsOk(cfg, s) && Enabled(cfg, s, a) && i < |s.writes|
    ensures i < |Step(cfg, s, a).writes| && WriteOk(cfg, Step(cfg, s, a), i)
  {
    var w := s.writes[i];
    StepGrows(cfg, s, a);
    assert WriteOk(cfg, s, i) && FlightGrown(s.flights[w.rid], Step(cfg, s, a).flights[w.rid]);
    if Commits(a) {
      CommitEffect(cfg, s, a);
    } else {
      BlockFrame(cfg, s, a, BlockKey(w.ip));
    }
  }

  lemma NewWriteOk(cfg: Config, s: State, a: Action)
    requires BlocksOk(cfg, s) && FlightsOk(cfg, s) && Enabled(cfg, s, a) && Commits(a)
    ensures |Step(cfg, s, a).writes| == |s.writes| + 1 && WriteOk(cfg, Step(cfg, s, a), |s.writes|)
  {
    if a.WriteBlock? {
      assert FlightOk(cfg, s.flights[a.rid]);
    }
  }

  lemma StepKeepsWrite(cfg: Config, s: State, a: Action, i: nat)
    requires BlocksOk(cfg, s) && FlightsOk(cfg, s) && Enabled(cfg, s, a) && i < |Step(cfg, s, a).writes|
    ensures WriteOk(cfg, Step(cfg, s, a), i)
  {
    if i < |s.writes| {
      OldWriteKept(cfg, s, a, i);
    } else {
      assert Commits(a) by {
        if !Commits(a) {
          BlockFrame(cfg, s, a, BlockKey(""));
        }
      }
      NewWriteOk(cfg, s, a);
    }
  }

  lemma StepKeepsBlock(cfg: Config, s: State, a: Action, k: string)
    requires BlocksOk(cfg, s) && Enabled(cfg, s, a) && IsBlockKey(k) && k in Step(cfg, s, a).store.db
    ensures BlockOk(cfg, Step(cfg, s, a), k)
  {
    assert k in s.store.db ==> BlockOk(cfg, s, k);
    if Commits(a) {
      CommitEffect(cfg, s, a);
    } else {
      BlockFrame(cfg, s, a, k);
    }
  }

  lemma TopicStep(cfg: Config, s: State, a: Action)
    requires BlocksOk(cfg, s) && FlightsOk(cfg, s) && Enabled(cfg, s, a)
    ensures forall i :: 0 <= i < |Step(cfg, s, a).topic| ==> EventOk(Step(cfg, s, a), Step(cfg, s, a).topic[i])
  {
    var t := Step(cfg, s, a);
    StepGrows(cfg, s, a);
    forall i | 0 <= i < |t.topic|
      ensures EventOk(t, t.topic[i])
    {
      if i < |s.topic| {
        assert EventOk(s, s.topic[i]) && FlightGrown(s.flights[s.topic[i].rid], t.flights[s.topic[i].rid]);
      }
    }
  }

  lemma AuditGrows(cfg: Config, s: State, t: State, e: AuditEvent)
    requires AuditOk(cfg, s, e) && Grown(s, t)
    ensures AuditOk(cfg, t, e)
  {
    assert FlightGrown(s.flights[e.rid], t.flights[e.rid]);
    if e.decision == Block && e.ip != UNKNOWN_IP {
      WrittenForGrows(s, t, e.rid, s.flights[e.rid].signal.value);
    }
  }

  lemma AuditStep(cfg: Config, s: State, a: Action)
    requires BlocksOk(cfg, s) && FlightsOk(cfg, s) && Enabled(cfg, s, a)
    ensures forall i :: 0 <= i < |Step(cfg, s, a).audit| ==> AuditOk(cfg, Step(cfg, s, a), Step(cfg, s, a).audit[i])
  {
    var t := Step(cfg, s, a);
    StepGrows(cfg, s, a);
    forall i | 0 <= i < |t.audit|
      ensures AuditOk(cfg, t, t.audit[i])
    {
      if i < |s.audit| {
        AuditGrows(cfg, s, t, s.audit[i]);
      } else {
        assert t.audit[i] == AuditOf(cfg, s.consumer.ev);
        AuditGrows(cfg, s, t, t.audit[i]);
      }
    }
  }

  lemma EventGrows(s: State, t: State, ev: RawEvent)
    requires ev in s.topic && EventOk(s, ev) && Grown(s, t)
    ensures ev in t.topic && EventOk(t, ev)
  {
    assert FlightGrown(s.flights[ev.rid], t.flights[ev.rid]);
  }

  // What the consumer holds after a step: what it held, the event just polled, or the event just written.
  lemma ConsumerCases(cfg: Config, s: State, a: Action)
    requires Enabled(cfg, s, a)
    ensures var c := Step(cfg, s, a).consumer;
            || c == s.consumer || c.Ready?
            || (a.Poll? && c.ev == s.topic[s.pos] && cfg.decide(c.ev.signal).Some?
                && (c.Writing? <==> cfg.decide(c.ev.signal) == Some(Block) && c.ev.ip != UNKNOWN_IP))
            || (a.ConsumerWrite? && Commits(a) && s.consumer.Writing? && c == Emitting(s.consumer.ev))
  {
  }

  lemma ConsumerStep(cfg: Config, s: State, a: Action)
    requires BlocksOk(cfg, s) && FlightsOk(cfg, s) && Enabled(cfg, s, a)
    ensures ConsumerOk(cfg, Step(cfg, s, a))
  {
    var t := Step(cfg, s, a);
    StepGrows(cfg, s, a);
    ConsumerCases(cfg, s, a);
    if !t.consumer.Ready? {
      var ev := t.consumer.ev;
      if a.Poll? && ev == s.topic[s.pos] {
        assert EventOk(s, s.topic[s.pos]) && ev in s.topic;
      }
      EventGrows(s, t, ev);
      if a.ConsumerWrite? {
        CommitEffect(cfg, s, a);
        assert WriteSource(s, a) in t.writes;
        assert WrittenFor(t, ev.rid, ev.signal);
      } else if s.consumer.Emitting? && cfg.decide(ev.signal) == Some(Block) && ev.ip != UNKNOWN_IP {
        WrittenForGrows(s, t, ev.rid, ev.signal);
      }
    }
  }

  lemma {:induction false} RunKeepsBlocks(cfg: Config, states: seq<State>, acts: seq<Action>, i: nat)
    requires IsRun(cfg, states, acts) && i < |states|
    ensures BlocksOk(cfg, states[i])
  {
    if i > 0 {
      RunKeepsBlocks(cfg, states, acts, i - 1);
      RunKeepsFlights(cfg, states, acts, i - 1);
      assert IsStep(cfg, states[i - 1], acts[i - 1], states[i]);
      forall x | 0 <= x < |states[i].writes|
        ensures WriteOk(cfg, states[i], x)
      {
        StepKeepsWrite(cfg, states[i - 1], acts[i - 1], x);
      }
      forall k | k in states[i].store.db && IsBlockKey(k)
        ensures BlockOk(cfg, states[i], k)
      {
        StepKeepsBlock(cfg, states[i - 1], acts[i - 1], k);
      }
      TopicStep(cfg, states[i - 1], acts[i - 1]);
      ConsumerStep(cfg, states[i - 1], acts[i - 1]);
      AuditStep(cfg, states[i - 1], acts[i - 1]);
    }
  }

  lemma RunStepGrows(cfg: Config, states: seq<State>, acts: seq<Action>, i: nat)
    requires IsRun(cfg, states, acts) && i < |acts|
    ensures Grown(states[i], states[i + 1])
  {
    RunKeepsFlights(cfg, states, acts, i);
    assert IsStep(cfg, states[i], acts[i], states[i + 1]);
    StepGrows(cfg, states[i], acts[i]);
  }

  lemma {:induction false} RunGrows(cfg: Config, states: seq<State>, acts: seq<Action>, i: nat, j: nat)
    requires IsRun(cfg, states, acts) && i <= j < |states|
    ensures Grown(states[i], states[j])
    decreases j
  {
    if i < j {
      RunGrows(cfg, states, acts, i, j - 1);
      RunStepGrows(cfg, states, acts, j - 1);
      GrownTransitive(states[i], states[j - 1], states[j]);
    }
  }

  // ---------- Provenance ----------

  // A live block traces to a write no older than the larger TTL, for a signal of a request of the same ip that the
  // model decided to BLOCK. Whatever the engine client answered UNSCORED for never blocks by itself.
  lemma BlockProvenance(cfg: Config, states: seq<State>, acts: seq<Action>, i: nat, ip: string)
    requires IsRun(cfg, states, acts) && i < |states| && Live(states[i].store, BlockKey(ip))
    ensures exists w :: w in states[i].writes && Explains(cfg, states[i], ip, w)
  {
    var s := states[i];
    RunKeepsBlocks(cfg, states, acts, i);
    var k := BlockKey(ip);
    assert BlockOk(cfg, s, k) && WriteOk(cfg, s, s.store.db[k].inc);
    var w := s.writes[s.store.db[k].inc];
    BlockKeyInjective(w.ip, ip);
    assert w in s.writes && Explains(cfg, s, ip, w);
  }

  ghost predicate Explains(cfg: Config, s: State, ip: string, w: Write) {
    && w.ip == ip && BuiltBy(s, w.rid, ip, w.signal) && cfg.decide(w.signal) == Some(Block)
    && w.time <= s.store.now < w.time + MaxTtl(cfg)
    && (w.writer == Gateway ==> w.rid < |s.flights| && s.flights[w.rid].answer == Some(Scored(Block)))
    && (w.writer == StreamConsumer ==> ip != UNKNOWN_IP && RawEvent(w.rid, ip, w.signal) in s.topic)
  }

  // With the engine deciding, every live block needed both models: a signal of that ip that was at least 10/13
  // probable and anomalous past four sevenths of the training range.
  lemma BlockNeededBothModels(cfg: Config, a: Artifacts, lg: real -> real,
                              states: seq<State>, acts: seq<Action>, i: nat, ip: string)
    requires RunsEngine(cfg, a, lg)
    requires IsRun(cfg, states, acts) && i < |states| && Live(states[i].store, BlockKey(ip))
    ensures exists w :: w in states[i].writes && Explains(cfg, states[i], ip, w) && BothModels(a, lg, w.signal)
  {
    BlockProvenance(cfg, states, acts, i, ip);
    var w :| w in states[i].writes && Explains(cfg, states[i], ip, w);
    assert cfg.decide(w.signal) == EngineDecision(a, lg, w.signal);
    var x := ExtractFeatures(lg, w.signal);
    BlockNeedsBoth(a, a.forest(x), a.xgb(x));
  }

  ghost predicate BothModels(a: Artifacts, lg: real -> real, sig: Signal) {
    var x := ExtractFeatures(lg, sig);
    a.xgb(x) >= 10.0 / 13.0 && a.forest(x) <= a.isoMax - (4.0 / 7.0) * IsoSpan(a)
  }

  // Once the larger TTL has passed since the last write for an ip, the ip is no longer blocked.
  lemma BlockEnds(cfg: Config, states: seq<State>, acts: seq<Action>, i: nat, ip: string)
    requires IsRun(cfg, states, acts) && i < |states|
    requires forall w :: w in states[i].writes && w.ip == ip ==> w.time + MaxTtl(cfg) <= states[i].store.now
    ensures !Live(states[i].store, BlockKey(ip))
  {
    if Live(states[i].store, BlockKey(ip)) {
      BlockProvenance(cfg, states, acts, i, ip);
    }
  }

  // ---------- Persistence ----------

  // The action at i commits a blocklist write for ip.
  ghost predicate CommitsFor(states: seq<State>, acts: seq<Action>, i: nat, ip: string) {
    && i < |acts| && i + 1 < |states| && |states[i].writes| < |states[i + 1].writes|
    && states[i + 1].writes[|states[i].writes|].ip == ip
  }

  lemma WritesAreCommits(cfg: Config, states: seq<State>, acts: seq<Action>, i: nat, ip: string)
    requires IsRun(cfg, states, acts) && CommitsFor(states, acts, i, ip)
    ensures states[i + 1].writes[|states[i].writes|].time == states[i].store.now
  {
    assert IsStep(cfg, states[i], acts[i], states[i + 1]);
    if Commits(acts[i]) {
      CommitEffect(cfg, states[i], acts[i]);
    } else {
      BlockFrame(cfg, states[i], acts[i], BlockKey(ip));
    }
  }

  // From a committed write until the smaller TTL has passed the ip is blocked, whichever writer wrote and whatever
  // either of them writes afterwards.
  lemma BlockPersists(cfg: Config, states: seq<State>, acts: seq<Action>, i: nat, j: nat, ip: string)
    requires IsRun(cfg, states, acts) && CommitsFor(states, acts, i, ip) && i < j < |states|
    requires states[j].store.now < states[i].store.now + MinTtl(cfg)
    ensures Live(states[j].store, BlockKey(ip))
  {
    WritesAreCommits(cfg, states, acts, i, ip);
    RunGrows(cfg, states, acts, i + 1, j);
    RunKeepsBlocks(cfg, states, acts, j);
    assert states[j].writes[|states[i].writes|] == states[i + 1].writes[|states[i].writes|];
    assert WriteOk(cfg, states[j], |states[i].writes|);
  }

  // A request whose blocklist check falls in that time is answered 403, and for the rest of the run it is never
  // forwarded, counted or published.
  lemma BlockedRequestsRejected(cfg: Config, states: seq<State>, acts: seq<Action>, i: nat, j: nat, m: nat, r: nat)
    requires IsRun(cfg, states, acts) && i < j < m < |states|
    requires acts[j] == Check(r) && r < |states[j].flights|
    requires CommitsFor(states, acts, i, states[j].flights[r].req.ip)
    requires states[j].store.now < states[i].store.now + MinTtl(cfg)
    ensures r < |states[m].flights|
    ensures var f := states[m].flights[r];
            f.phase == Done && f.statuses == [403] && f.forwards == 0 && Untouched(f)
  {
    BlockPersists(cfg, states, acts, i, j, states[j].flights[r].req.ip);
    RunKeepsFlights(cfg, states, acts, j);
    assert IsStep(cfg, states[j], acts[j], states[j + 1]);
    assert FlightOk(cfg, states[j].flights[r]);
    RequestsPersist(cfg, states, acts, j + 1, m, r);
  }

  // ---------- The expiry time ----------

  // A commit moves the expiry of an existing block back exactly when the other writer made the last write, has the
  // longer TTL, and less time has passed since than the two TTLs differ by.
  lemma ExpiryMovesBackWhen(cfg: Config, states: seq<State>, acts: seq<Action>, i: nat)
    requires IsRun(cfg, states, acts) && i < |acts| && Commits(acts[i])
    ensures var s, t := states[i], states[i + 1];
            && |s.writes| < |t.writes|
            && var w, k := t.writes[|s.writes|], BlockKey(t.writes[|s.writes|].ip);
               k in s.store.db ==>
                 && s.store.db[k].deadline.Some? && s.store.db[k].inc < |s.writes|
                 && k in t.store.db && t.store.db[k].deadline.Some?
                 && var last := s.writes[s.store.db[k].inc];
                    (t.store.db[k].deadline.value < s.store.db[k].deadline.value <==>
                      && last.writer != w.writer
                      && w.time - last.time < TtlOf(cfg, last.writer) - TtlOf(cfg, w.writer))
  {
    var s, t := states[i], states[i + 1];
    assert IsStep(cfg, s, acts[i], t);
    CommitEffect(cfg, s, acts[i]);
    RunKeepsBlocks(cfg, states, acts, i);
    var k := BlockKey(WriteSource(s, acts[i]).ip);
    if k in s.store.db {
      assert BlockOk(cfg, s, k) && WriteOk(cfg, s, s.store.db[k].inc);
    }
  }

  // With equal TTLs that never happens: the expiry time of every blocklist key never decreases along a run, under
  // redelivery too.
  lemma {:induction false} ExpiryNeverDecreases(cfg: Config, states: seq<State>, acts: seq<Action>,
                                                i: nat, j: nat, ip: string)
    requires IsRun(cfg, states, acts) && i <= j < |states| && cfg.blocklistTtl == cfg.consumerTtl
    requires BlockKey(ip) in states[i].store.db
    ensures BlockKey(ip) in states[j].store.db
    ensures states[i].store.db[BlockKey(ip)].deadline.Some? && states[j].store.db[BlockKey(ip)].deadline.Some?
    ensures states[i].store.db[BlockKey(ip)].deadline.value <= states[j].store.db[BlockKey(ip)].deadline.value
    decreases j
  {
    var k := BlockKey(ip);
    if i == j {
      RunKeepsBlocks(cfg, states, acts, i);
      assert BlockOk(cfg, states[i], k);
    } else {
      ExpiryNeverDecreases(cfg, states, acts, i, j - 1, ip);
      ExpiryStep(cfg, states, acts, j - 1, ip);
    }
  }

  lemma ExpiryStep(cfg: Config, states: seq<State>, acts: seq<Action>, i: nat, ip: string)
    requires IsRun(cfg, states, acts) && i < |acts| && cfg.blocklistTtl == cfg.consumerTtl
    requires BlockKey(ip) in states[i].store.db
    ensures BlockKey(ip) in states[i + 1].store.db
    ensures states[i].store.db[BlockKey(ip)].deadline.Some? && states[i + 1].store.db[BlockKey(ip)].deadline.Some?
    ensures states[i].store.db[BlockKey(ip)].deadline.value <= states[i + 1].store.db[BlockKey(ip)].deadline.value
  {
    var s, k := states[i], BlockKey(ip);
    assert IsStep(cfg, s, acts[i], states[i + 1]);
    RunKeepsBlocks(cfg, states, acts, i);
    assert BlockOk(cfg, s, k) && WriteOk(cfg, s, s.store.db[k].inc);
    if Commits(acts[i]) {
      CommitEffect(cfg, s, acts[i]);
    } else {
      BlockFrame(cfg, s, acts[i], k);
    }
  }

  // ---------- Agreement and catch-up ----------

  // The two paths decide one signal alike: what the endpoint answered a request, and what the stream audited it as.
  lemma PathsAgree(cfg: Config, states: seq<State>, acts: seq<Action>, i: nat, x: nat)
    requires IsRun(cfg, states, acts) && i < |states| && x < |states[i].audit|
    ensures var e := states[i].audit[x];
            && e.rid < |states[i].flights| && states[i].flights[e.rid].signal.Some?
            && cfg.decide(states[i].flights[e.rid].signal.value) == Some(e.decision)
            && match states[i].flights[e.rid].answer { case Some(Scored(v)) => v == e.decision case _ => true }
  {
    RunKeepsBlocks(cfg, states, acts, i);
    RunKeepsFlights(cfg, states, acts, i);
    assert AuditOk(cfg, states[i], states[i].audit[x]);
    var f := states[i].flights[states[i].audit[x].rid];
    assert FlightOk(cfg, f) && AnswerOk(cfg, f);
  }

  // The asynchronous path catches up: when the event of a request (let through as UNSCORED, say) has been audited
  // as BLOCK and its ip is known, the stream has written the block, and the ip is blocked for at least the smaller
  // TTL from that write.
  lemma CatchUp(cfg: Config, states: seq<State>, acts: seq<Action>, i: nat, x: nat)
    requires IsRun(cfg, states, acts) && i < |states| && x < |states[i].audit|
    requires states[i].audit[x].decision == Block && states[i].audit[x].ip != UNKNOWN_IP
    ensures exists w :: w in states[i].writes && CaughtUp(cfg, states[i], states[i].audit[x], w)
  {
    var s, e := states[i], states[i].audit[x];
    RunKeepsBlocks(cfg, states, acts, i);
    assert AuditOk(cfg, s, e);
    var w :| w in s.writes && w.writer == StreamConsumer && w.rid == e.rid
          && w.signal == s.flights[e.rid].signal.value;
    var y :| 0 <= y < |s.writes| && s.writes[y] == w;
    assert WriteOk(cfg, s, y);
    assert CaughtUp(cfg, s, e, w);
  }

  ghost predicate CaughtUp(cfg: Config, s: State, e: AuditEvent, w: Write) {
    && w.writer == StreamConsumer && w.rid == e.rid && w.ip == e.ip && w.time <= s.store.now
    && (s.store.now < w.time + MinTtl(cfg) ==> Live(s.store, BlockKey(e.ip)))
  }
}
