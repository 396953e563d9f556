/**
 A block does not feed itself: while an ip is blocked its new requests leave no trace, and the writes that can
 still happen are bounded by the work that was in flight or queued when the block started.
 */
module BlockDecay {
  import opened RedisStore
  import opened GatewaySignal
  import opened Enforcement
  import opened GateSafety
  import opened BlockTheorems

  // How many blocklist writes a request past its check can still lead to: its own, and its event's.
  function FlightWeight(f: Flight, ip: string): nat {
    if f.req.ip != ip then 0
    else match f.phase
         case Counting => 2
         case Routing => 1
         case Scoring => 1
         case Blocking => 1
         case _ => 0
  }

  function FlightsWeight(flights: seq<Flight>, ip: string): nat {
    if flights == [] then 0
    else FlightsWeight(flights[..|flights| - 1], ip) + FlightWeight(flights[|flights| - 1], ip)
  }

  function EventWeight(ev: RawEvent, ip: string): nat {
    if ev.ip == ip then 1 else 0
  }

  function EventsWeight(events: seq<RawEvent>, ip: string): nat {
    if events == [] then 0 else EventWeight(events[0], ip) + EventsWeight(events[1..], ip)
  }

  function ConsumerWeight(c: Consumer, ip: string): nat {
    if c.Writing? then EventWeight(c.ev, ip) else 0
  }

  // The work in the system that can still write a block for this ip.
  function Pending(s: State, ip: string): nat
    requires s.pos <= |s.topic|
  {
    FlightsWeight(s.flights, ip) + EventsWeight(s.topic[s.pos..], ip) + ConsumerWeight(s.consumer, ip)
  }

  function WritesFor(writes: seq<Write>, ip: string): nat {
    if writes == [] then 0
    else WritesFor(writes[..|writes| - 1], ip) + if writes[|writes| - 1].ip == ip then 1 else 0
  }

  // ---------- Sums under one change ----------

  lemma {:induction false} FlightsWeightUpdate(flights: seq<Flight>, r: nat, f: Flight, ip: string)
    requires r < |flights|
    ensures FlightsWeight(flights[r := f], ip) + FlightWeight(flights[r], ip)
         == FlightsWeight(flights, ip) + FlightWeight(f, ip)
  {
    var rest := flights[..|flights| - 1];
    var t := flights[r := f];
    if r < |rest| {
      FlightsWeightUpdate(rest, r, f, ip);
      assert t[..|t| - 1] == rest[r := f];
    } else {
      assert t[..|t| - 1] == rest;
    }
  }

  lemma {:induction false} EventsWeightAppend(events: seq<RawEvent>, ev: RawEvent, ip: string)
    ensures EventsWeight(events + [ev], ip) == EventsWeight(events, ip) + EventWeight(ev, ip)
  {
    if events == [] {
      assert EventsWeight([ev][1..], ip) == 0;
    } else {
      EventsWeightAppend(events[1..], ev, ip);
      assert (events + [ev])[1..] == events[1..] + [ev];
    }
  }

  lemma {:induction false} EventsWeightSuffix(events: seq<RawEvent>, n: nat, ip: string)
    requires n <= |events|
    ensures EventsWeight(events[n..], ip) <= EventsWeight(events, ip)
  {
    if n > 0 {
      EventsWeightSuffix(events[1..], n - 1, ip);
      assert events[1..][n - 1..] == events[n..];
    } else {
      assert events[n..] == events;
    }
  }

  // ---------- One step ----------

  lemma PositionInTopic(cfg: Config, s: State, a: Action)
    requires s.pos <= |s.topic| && Enabled(cfg, s, a)
    ensures Step(cfg, s, a).pos <= |Step(cfg, s, a).topic|
  {
  }

  lemma FlightStepWeight(cfg: Config, s: State, a: Action, r: nat, ip: string)
    requires Enabled(cfg, s, a) && ActsOn(a, r) && r < |s.flights|
    ensures var t := Step(cfg, s, a);
            && |t.flights| == |s.flights|
            && FlightsWeight(t.flights, ip) + FlightWeight(s.flights[r], ip)
            == FlightsWeight(s.flights, ip) + FlightWeight(t.flights[r], ip)
  {
    FlightFrame(cfg, s, a);
    FlightsWeightUpdate(s.flights, r, Step(cfg, s, a).flights[r], ip);
  }

  lemma WritesForCommit(cfg: Config, s: State, a: Action, ip: string)
    requires Enabled(cfg, s, a)
    ensures WritesFor(Step(cfg, s, a).writes, ip)
         == WritesFor(s.writes, ip) + if Commits(a) && WriteSource(s, a).ip == ip then 1 else 0
  {
    if Commits(a) {
      CommitEffect(cfg, s, a);
      assert Step(cfg, s, a).writes[..|s.writes|] == s.writes;
    }
  }

  // What a request's action does to the queue, and how it pays for that out of the request's own weight.
  lemma QueueChange(cfg: Config, s: State, a: Action, r: nat)
    requires Enabled(cfg, s, a) && ActsOn(a, r) && r < |s.flights|
    ensures var t := Step(cfg, s, a);
            && t.pos == s.pos && t.consumer == s.consumer
            && (if a.Publish? && !a.lost then |t.topic| == |s.topic| + 1 && t.topic[..|s.topic|] == s.topic
                  && t.topic[|s.topic|].ip == s.flights[r].req.ip
                else t.topic == s.topic)
  {
  }

  lemma WeightPays(cfg: Config, s: State, a: Action, r: nat, ip: string)
    requires Enabled(cfg, s, a) && ActsOn(a, r) && r < |s.flights| && Live(s.store, BlockKey(ip))
    ensures var t := Step(cfg, s, a);
            r < |t.flights|
            && FlightWeight(t.flights[r], ip)
               + (if s.flights[r].req.ip == ip && ((a.Publish? && !a.lost) || a.WriteBlock?) then 1 else 0)
               <= FlightWeight(s.flights[r], ip)
  {
  }

  lemma RequestStepDecays(cfg: Config, s: State, a: Action, r: nat, ip: string)
    requires Enabled(cfg, s, a) && s.pos <= |s.topic| && Live(s.store, BlockKey(ip)) && ActsOn(a, r)
    ensures var t := Step(cfg, s, a);
            && t.pos <= |t.topic|
            && Pending(t, ip) + WritesFor(t.writes, ip) <= Pending(s, ip) + WritesFor(s.writes, ip)
  {
    var t := Step(cfg, s, a);
    WritesForCommit(cfg, s, a, ip);
    FlightStepWeight(cfg, s, a, r, ip);
    QueueChange(cfg, s, a, r);
    WeightPays(cfg, s, a, r, ip);
    if a.Publish? && !a.lost {
      var ev := t.topic[|s.topic|];
      EventsWeightAppend(s.topic[s.pos..], ev, ip);
      assert t.topic[t.pos..] == s.topic[s.pos..] + [ev];
    }
  }

  // While the ip is blocked, pending work and committed writes together never grow.
  lemma StepDecays(cfg: Config, s: State, a: Action, ip: string)
    requires Enabled(cfg, s, a) && s.pos <= |s.topic| && NoRedelivery(s, a) && Live(s.store, BlockKey(ip))
    ensures var t := Step(cfg, s, a);
            && t.pos <= |t.topic|
            && Pending(t, ip) + WritesFor(t.writes, ip) <= Pending(s, ip) + WritesFor(s.writes, ip)
  {
    if OwnerOf(a).Some? {
      RequestStepDecays(cfg, s, a, OwnerOf(a).value, ip);
    } else {
      OtherStepDecays(cfg, s, a, ip);
    }
  }

  lemma OtherStepDecays(cfg: Config, s: State, a: Action, ip: string)
    requires Enabled(cfg, s, a) && s.pos <= |s.topic| && NoRedelivery(s, a) && OwnerOf(a).None?
    ensures var t := Step(cfg, s, a);
            && t.pos <= |t.topic|
            && Pending(t, ip) + WritesFor(t.writes, ip) <= Pending(s, ip) + WritesFor(s.writes, ip)
  {
    var t := Step(cfg, s, a);
    WritesForCommit(cfg, s, a, ip);
    if a.Arrive? {
      assert t.flights[..|s.flights|] == s.flights;
    } else if a.Poll? {
      assert s.topic[s.pos..][1..] == t.topic[t.pos..];
    } else if a.Restart? {
      EventsWeightSuffix(s.topic[s.pos..], a.position - s.pos, ip);
      assert s.topic[s.pos..][a.position - s.pos..] == t.topic[t.pos..];
    }
  }

  // ---------- Whole blocked periods ----------

  ghost predicate BlockedThroughout(states: seq<State>, i: nat, j: nat, ip: string) {
    i <= j < |states| && forall m :: i <= m < j ==> Live(states[m].store, BlockKey(ip))
  }

  lemma {:induction false} RunKeepsPosition(cfg: Config, states: seq<State>, acts: seq<Action>, i: nat)
    requires IsRun(cfg, states, acts) && i < |states|
    ensures states[i].pos <= |states[i].topic|
  {
    if i > 0 {
      RunKeepsPosition(cfg, states, acts, i - 1);
      assert IsStep(cfg, states[i - 1], acts[i - 1], states[i]);
      PositionInTopic(cfg, states[i - 1], acts[i - 1]);
    }
  }

  lemma {:induction false} PeriodDecays(cfg: Config, states: seq<State>, acts: seq<Action>, i: nat, j: nat, ip: string)
    requires IsRun(cfg, states, acts) && NoRedeliveryIn(states, acts, i, j) && BlockedThroughout(states, i, j, ip)
    ensures states[i].pos <= |states[i].topic| && states[j].pos <= |states[j].topic|
    ensures Pending(states[j], ip) + WritesFor(states[j].writes, ip)
         <= Pending(states[i], ip) + WritesFor(states[i].writes, ip)
    decreases j
  {
    RunKeepsPosition(cfg, states, acts, i);
    if i < j {
      PeriodDecays(cfg, states, acts, i, j - 1, ip);
      RunStepDecays(cfg, states, acts, j - 1, ip);
    }
  }

  lemma RunStepDecays(cfg: Config, states: seq<State>, acts: seq<Action>, i: nat, ip: string)
    requires IsRun(cfg, states, acts) && i < |acts| && NoRedelivery(states[i], acts[i])
    requires states[i].pos <= |states[i].topic| && Live(states[i].store, BlockKey(ip))
    ensures states[i + 1].pos <= |states[i + 1].topic|
    ensures Pending(states[i + 1], ip) + WritesFor(states[i + 1].writes, ip)
         <= Pending(states[i], ip) + WritesFor(states[i].writes, ip)
  {
    assert IsStep(cfg, states[i], acts[i], states[i + 1]);
    StepDecays(cfg, states[i], acts[i], ip);
  }

  // Through a blocked period in which no event comes again, an ip gets at most as many further writes as it had work
  // pending at the start.
  lemma BlockedWritesBounded(cfg: Config, states: seq<State>, acts: seq<Action>, i: nat, j: nat, ip: string)
    requires IsRun(cfg, states, acts) && NoRedeliveryIn(states, acts, i, j) && BlockedThroughout(states, i, j, ip)
    ensures states[i].pos <= |states[i].topic|
    ensures WritesFor(states[j].writes, ip) <= WritesFor(states[i].writes, ip) + Pending(states[i], ip)
  {
    PeriodDecays(cfg, states, acts, i, j, ip);
  }

  ghost predicate Inert(f: Flight) {
    && Untouched(f) && f.cleared.None? && f.forwards == 0
    && (f.phase.Arrived? || f.phase.Checking? || f.phase.Done? || f.phase.Aborted?)
    && (f.phase.Done? ==> f.statuses == [401] || f.statuses == [403])
  }

  // Requests that arrive during the period add no counters, no events and no writes: the ones that have got
  // anywhere were rejected.
  lemma {:induction false} NewRequestsInert(cfg: Config, states: seq<State>, acts: seq<Action>,
                                            i: nat, j: nat, r: nat, ip: string)
    requires IsRun(cfg, states, acts) && BlockedThroughout(states, i, j, ip)
    requires |states[i].flights| <= r < |states[j].flights| && states[j].flights[r].req.ip == ip
    ensures Inert(states[j].flights[r])
    decreases j
  {
    assert i < j;
    var s, a := states[j - 1], acts[j - 1];
    assert IsStep(cfg, s, a, states[j]);
    if r < |s.flights| {
      StepKeepsRequest(cfg, s, a, r);
      NewRequestsInert(cfg, states, acts, i, j - 1, r, ip);
      RunKeepsFlights(cfg, states, acts, j);
      InertStep(cfg, s, a, r);
    } else {
      ArrivalInert(cfg, s, a, r);
    }
  }

  lemma ArrivalInert(cfg: Config, s: State, a: Action, r: nat)
    requires Enabled(cfg, s, a) && |s.flights| <= r < |Step(cfg, s, a).flights|
    ensures Inert(Step(cfg, s, a).flights[r])
  {
  }

  lemma InertStep(cfg: Config, s: State, a: Action, r: nat)
    requires Enabled(cfg, s, a) && r < |s.flights| && Inert(s.flights[r])
    requires Live(s.store, BlockKey(s.flights[r].req.ip))
    requires r < |Step(cfg, s, a).flights| && FlightOk(cfg, Step(cfg, s, a).flights[r])
    ensures Inert(Step(cfg, s, a).flights[r])
  {
  }

  // ---------- How long a block can last ----------

  ghost predicate WritesBy(writes: seq<Write>, ip: string, limit: int) {
    forall w :: w in writes && w.ip == ip ==> w.time <= limit
  }

  // The writes of an ip are no later than the start of the period and the larger TTL for each further write.
  lemma {:induction false} PeriodWritesBy(cfg: Config, states: seq<State>, acts: seq<Action>,
                                          i: nat, j: nat, ip: string)
    returns (limit: int)
    requires IsRun(cfg, states, acts) && BlockedThroughout(states, i, j, ip)
    ensures WritesBy(states[j].writes, ip, limit)
    ensures limit == states[i].store.now
                     + (WritesFor(states[j].writes, ip) - WritesFor(states[i].writes, ip)) * MaxTtl(cfg)
    decreases j
  {
    var start, before := states[i].store.now, WritesFor(states[i].writes, ip);
    if i == j {
      WritesSoFar(cfg, states, acts, i, ip);
      limit := start;
    } else {
      var last := PeriodWritesBy(cfg, states, acts, i, j - 1, ip);
      limit := RunStepWritesBy(cfg, states, acts, j - 1, ip, last);
      Accumulate(start, WritesFor(states[j - 1].writes, ip) - before, last,
                 WritesFor(states[j].writes, ip) - before, limit, MaxTtl(cfg));
    }
  }

  lemma Accumulate(start: int, n: int, limit: int, n': int, limit': int, ttl: int)
    requires limit == start + n * ttl
    requires (n' == n && limit' == limit) || (n' == n + 1 && limit' == limit + ttl)
    ensures limit' == start + n' * ttl
  {
  }

  lemma WritesSoFar(cfg: Config, states: seq<State>, acts: seq<Action>, i: nat, ip: string)
    requires IsRun(cfg, states, acts) && i < |states|
    ensures WritesBy(states[i].writes, ip, states[i].store.now)
  {
    RunKeepsBlocks(cfg, states, acts, i);
    forall w | w in states[i].writes
      ensures w.time <= states[i].store.now
    {
      var y :| 0 <= y < |states[i].writes| && states[i].writes[y] == w;
      assert WriteOk(cfg, states[i], y);
    }
  }

  // A live block bounds the present time by its write.
  lemma LiveBy(cfg: Config, states: seq<State>, acts: seq<Action>, i: nat, ip: string, limit: int)
    requires IsRun(cfg, states, acts) && i < |states| && Live(states[i].store, BlockKey(ip))
    requires WritesBy(states[i].writes, ip, limit)
    ensures states[i].store.now < limit + MaxTtl(cfg)
  {
    BlockProvenance(cfg, states, acts, i, ip);
    var w :| w in states[i].writes && Explains(cfg, states[i], ip, w);
  }

  // An action writes for the blocked ip less than the larger TTL after the writes so far, or not at all.
  lemma RunStepWritesBy(cfg: Config, states: seq<State>, acts: seq<Action>, i: nat, ip: string, limit: int)
    returns (later: int)
    requires IsRun(cfg, states, acts) && i < |acts| && Live(states[i].store, BlockKey(ip))
    requires WritesBy(states[i].writes, ip, limit)
    ensures WritesBy(states[i + 1].writes, ip, later)
    ensures var n, n' := WritesFor(states[i].writes, ip), WritesFor(states[i + 1].writes, ip);
            (n' == n && later == limit) || (n' == n + 1 && later == limit + MaxTtl(cfg))
  {
    var s, a := states[i], acts[i];
    LiveBy(cfg, states, acts, i, ip, limit);
    assert IsStep(cfg, s, a, states[i + 1]);
    WritesForCommit(cfg, s, a, ip);
    later := limit;
    if Commits(a) {
      CommitEffect(cfg, s, a);
      later := if WriteSource(s, a).ip == ip then limit + MaxTtl(cfg) else limit;
    } else {
      assert states[i + 1].writes == s.writes;
    }
  }

  // A block does not feed itself: a blocked period lasts less than the larger TTL for each piece of work pending at its
  // start and once more.
  lemma BlockedPeriodBounded(cfg: Config, states: seq<State>, acts: seq<Action>, i: nat, j: nat, ip: string)
    requires IsRun(cfg, states, acts) && NoRedeliveryIn(states, acts, i, j)
    requires BlockedThroughout(states, i, j, ip) && Live(states[j].store, BlockKey(ip))
    ensures states[i].pos <= |states[i].topic|
    ensures states[j].store.now < states[i].store.now + (Pending(states[i], ip) + 1) * MaxTtl(cfg)
  {
    var limit := PeriodWritesBy(cfg, states, acts, i, j, ip);
    LiveBy(cfg, states, acts, j, ip, limit);
    BlockedWritesBounded(cfg, states, acts, i, j, ip);
    LessTimes(WritesFor(states[j].writes, ip) - WritesFor(states[i].writes, ip), Pending(states[i], ip), MaxTtl(cfg));
  }

  lemma LessTimes(x: int, y: int, z: nat)
    requires x <= y
    ensures x * z + z <= (y + 1) * z
  {
  }

  // If an ip is still blocked at the end of the period, a write committed less than the larger TTL ago did it: the
  // block ends no later than its last write's time plus the larger TTL.
  lemma BlockedOnlyByRecentWrite(cfg: Config, states: seq<State>, acts: seq<Action>, i: nat, j: nat, ip: string)
    requires IsRun(cfg, states, acts) && NoRedeliveryIn(states, acts, i, j)
    requires BlockedThroughout(states, i, j, ip) && Live(states[j].store, BlockKey(ip))
    requires states[i].pos <= |states[i].topic| && Pending(states[i], ip) == 0
    ensures exists w :: w in states[i].writes && w.ip == ip && states[j].store.now < w.time + MaxTtl(cfg)
  {
    BlockProvenance(cfg, states, acts, j, ip);
    var w :| w in states[j].writes && Explains(cfg, states[j], ip, w);
    BlockedWritesBounded(cfg, states, acts, i, j, ip);
    RunGrows(cfg, states, acts, i, j);
    SameCountSameWrites(states[i].writes, states[j].writes, ip, w);
  }

  lemma {:induction false} SameCountSameWrites(a: seq<Write>, b: seq<Write>, ip: string, w: Write)
    requires a <= b && WritesFor(b, ip) <= WritesFor(a, ip) && w in b && w.ip == ip
    ensures w in a
    decreases |b|
  {
    if |a| < |b| {
      var c := b[..|b| - 1];
      MoreWrites(a, c, ip);
      assert b[|b| - 1].ip != ip;
      assert b == c + [b[|b| - 1]];
      SameCountSameWrites(a, c, ip, w);
    } else {
      assert a == b;
    }
  }

  lemma {:induction false} MoreWrites(a: seq<Write>, b: seq<Write>, ip: string)
    requires a <= b
    ensures WritesFor(a, ip) <= WritesFor(b, ip)
    decreases |b|
  {
    if |a| < |b| {
      MoreWrites(a, b[..|b| - 1], ip);
    } else {
      assert a == b;
    }
  }
}
