/**
 The enforcement loop as one transition system: any number of requests in flight in any number of gateways,
 the shared Redis, the request topic, and the stream consumer. Each action is one atomic effect, so a run may
 interleave requests between any two Redis commands. A request may be abandoned between any two of its actions,
 and the consumer may be restarted at any position of the topic: an earlier one (redelivery), its own, or a later one
 (a group without a committed offset joins at the end).
 */
module Enforcement {
  import opened Wrappers
  import opened RedisStore
  import opened Features
  import opened Ensemble
  import opened GatewaySignal

  // A counter call: not sent, INCR done with its EXPIRE still owed, or finished. `at` is the position of its
  // INCR in the history and `n` the value it was handed.
  datatype CallState = Idle | Owing(at: nat, n: int) | Returned(at: nat, n: int)

  datatype Phase = Arrived | Checking | Counting | Routing | Scoring | Blocking | Rejecting | Done | Aborted

  // The engine client's answer; UNSCORED stands for a timeout, an open breaker or an error.
  datatype Answer = Scored(v: Verdict) | Unscored

  // One request. The fields after `streak` record what has happened to it: when its blocklist check passed, the
  // signal it built, its publish attempts, the engine's answer, how often it was forwarded, and its rejections.
  datatype Flight = Flight(
    req: Request, phase: Phase, ten: CallState, sixty: CallState, streak: CallState,
    cleared: Option<int>, signal: Option<Signal>, publishes: nat, answer: Option<Answer>,
    forwards: nat, statuses: seq<int>)

  datatype RawEvent = RawEvent(rid: nat, ip: string, signal: Signal)

  datatype AuditEvent = AuditEvent(rid: nat, ip: string, decision: Verdict)

  datatype Writer = Gateway | StreamConsumer

  // One committed blocklist write.
  datatype Write = Write(ip: string, writer: Writer, rid: nat, signal: Signal, time: int)

  datatype Consumer = Ready | Writing(ev: RawEvent) | Emitting(ev: RawEvent)

  // How the consumer left one event: audited, skipped with a logged exception, cut off by a restart while it was in
  // work, or passed over by a restart at a later position.
  datatype Outcome = Audited(event: AuditEvent) | Skipped | Dropped | Missed

  datatype State = State(
    store: Store, flights: seq<Flight>, topic: seq<RawEvent>, writes: seq<Write>,
    pos: nat, consumer: Consumer, outcomes: seq<Outcome>, audit: seq<AuditEvent>)

  datatype Action =
    | Tick(d: nat)
    | Arrive(req: Request)
    | Authenticate(rid: nat)
    | Check(rid: nat)
    | Increment(rid: nat, call: Call)
    | SetExpiry(rid: nat, call: Call)
    | Publish(rid: nat, lost: bool)
    | Route(rid: nat)
    | AskEngine(rid: nat, inTime: bool)
    | WriteBlock(rid: nat)
    | Reject(rid: nat)
    | Abandon(rid: nat)
    | ResetStreak(identity: string)
    | Poll
    | ConsumerWrite(committed: bool, acknowledged: bool)
    | Emit(acknowledged: bool)
    | Restart(position: nat)

  function CallOf(f: Flight, call: Call): CallState {
    match call case Ten => f.ten case Sixty => f.sixty case Streak => f.streak
  }

  function WithCall(f: Flight, call: Call, c: CallState): Flight {
    match call case Ten => f.(ten := c) case Sixty => f.(sixty := c) case Streak => f.(streak := c)
  }

  predicate AllReturned(f: Flight) {
    f.ten.Returned? && f.sixty.Returned? && f.streak.Returned?
  }

  function NewFlight(req: Request): Flight {
    Flight(req, Arrived, Idle, Idle, Idle, None, None, 0, None, 0, [])
  }

  // A window call owes an EXPIRE only when it was handed 1; a streak call always does.
  function AfterIncr(call: Call, at: nat, n: int): CallState {
    if call == Streak || n == 1 then Owing(at, n) else Returned(at, n)
  }

  function SignalOf(cfg: Config, f: Flight): Signal
    requires AllReturned(f)
  {
    BuildSignal(cfg, f.req, f.ten.n, f.sixty.n, f.streak.n)
  }

  function Forwarded(f: Flight): Flight {
    f.(phase := Done, forwards := f.forwards + 1)
  }

  function Rejected(f: Flight, status: int): Flight {
    f.(phase := Done, statuses := f.statuses + [status])
  }

  function TtlOf(cfg: Config, writer: Writer): int {
    (if writer == Gateway then cfg.blocklistTtl else cfg.consumerTtl) * SECOND
  }

  function EngineAnswer(cfg: Config, sig: Signal, inTime: bool): Answer {
    match cfg.decide(sig)
    case Some(v) => if inTime then Scored(v) else Unscored
    case None => Unscored
  }

  predicate InPhase(s: State, rid: nat, phase: Phase) {
    rid < |s.flights| && s.flights[rid].phase == phase
  }

  predicate Enabled(cfg: Config, s: State, a: Action) {
    match a
    case Tick(_) => true
    case Arrive(_) => true
    case Authenticate(r) => InPhase(s, r, Arrived)
    case Check(r) => InPhase(s, r, Checking)
    case Increment(r, c) =>
      && InPhase(s, r, Counting) && CallOf(s.flights[r], c).Idle?
      && Countable(s.store, CounterKey(cfg, s.flights[r].req, c))
    case SetExpiry(r, c) => InPhase(s, r, Counting) && CallOf(s.flights[r], c).Owing?
    case Publish(r, _) => InPhase(s, r, Counting) && AllReturned(s.flights[r])
    case Route(r) => InPhase(s, r, Routing) && s.flights[r].ten.Returned?
    case AskEngine(r, _) => InPhase(s, r, Scoring) && s.flights[r].signal.Some?
    case WriteBlock(r) => InPhase(s, r, Blocking) && s.flights[r].signal.Some?
    case Reject(r) => InPhase(s, r, Rejecting)
    case Abandon(r) => r < |s.flights| && s.flights[r].phase != Done && s.flights[r].phase != Aborted
    case ResetStreak(_) => true
    case Poll => s.consumer == Ready && s.pos < |s.topic|
    case ConsumerWrite(committed, acknowledged) => s.consumer.Writing? && (acknowledged ==> committed)
    case Emit(_) => s.consumer.Emitting? && cfg.decide(s.consumer.ev.signal).Some?
    case Restart(p) => p <= |s.topic|
  }

  function SetFlight(s: State, rid: nat, f: Flight): State
    requires rid < |s.flights|
  {
    s.(flights := s.flights[rid := f])
  }

  // A committed write: the blocklist key with its TTL, and its line in the log.
  function CommitBlock(cfg: Config, s: State, ip: string, writer: Writer, rid: nat, sig: Signal): State {
    s.(store := SetEx(s.store, BlockKey(ip), BLOCK_REASON, TtlOf(cfg, writer), |s.writes|),
       writes := s.writes + [Write(ip, writer, rid, sig, s.store.now)])
  }

  function AuditOf(cfg: Config, ev: RawEvent): AuditEvent
    requires cfg.decide(ev.signal).Some?
  {
    AuditEvent(ev.rid, ev.ip, cfg.decide(ev.signal).value)
  }

  function PassedOver(n: nat): (r: seq<Outcome>)
    ensures |r| == n && forall i :: 0 <= i < n ==> r[i] == Missed
  {
    seq(n, _ => Missed)
  }

  // The outcomes of the events before position `p` when the consumer is restarted there; later ones are to come again.
  function OutcomesAt(s: State, p: nat): seq<Outcome> {
    var settled := if s.consumer.Ready? then s.outcomes else s.outcomes + [Dropped];
    if p <= |settled| then settled[..p] else settled + PassedOver(p - |settled|)
  }

  function Step(cfg: Config, s: State, a: Action): State
    requires Enabled(cfg, s, a)
  {
    match a
    case Tick(d) => s.(store := Advance(s.store, d))
    case Arrive(req) => s.(flights := s.flights + [NewFlight(req)])
    case Authenticate(r) =>
      var f := s.flights[r];
      SetFlight(s, r, if Admitted(f.req) then f.(phase := Checking) else Rejected(f, 401))
    case Check(r) =>
      var f := s.flights[r];
      SetFlight(s, r, if Live(s.store, BlockKey(f.req.ip)) then Rejected(f, 403)
                      else f.(phase := Counting, cleared := Some(s.store.now)))
    case Increment(r, c) =>
      var f := s.flights[r];
      var k := CounterKey(cfg, f.req, c);
      SetFlight(s.(store := Incr(s.store, k, r, c)), r,
                WithCall(f, c, AfterIncr(c, |s.store.hits|, NextCount(s.store, k))))
    case SetExpiry(r, c) =>
      var f := s.flights[r];
      SetFlight(s.(store := Expire(s.store, CounterKey(cfg, f.req, c), CounterTtl(c))), r,
                WithCall(f, c, Returned(CallOf(f, c).at, CallOf(f, c).n)))
    case Publish(r, lost) =>
      var f := s.flights[r];
      var sig := SignalOf(cfg, f);
      SetFlight(s.(topic := if lost then s.topic else s.topic + [RawEvent(r, f.req.ip, sig)]), r,
                f.(phase := Routing, signal := Some(sig), publishes := f.publishes + 1))
    case Route(r) =>
      var f := s.flights[r];
      SetFlight(s, r, if Escalates(cfg, f.req.path, f.ten.n) then f.(phase := Scoring) else Forwarded(f))
    case AskEngine(r, inTime) =>
      var f := s.flights[r];
      var answer := EngineAnswer(cfg, f.signal.value, inTime);
      var g := f.(answer := Some(answer));
      SetFlight(s, r, if answer == Scored(Block) then g.(phase := Blocking) else Forwarded(g))
    case WriteBlock(r) =>
      var f := s.flights[r];
      SetFlight(CommitBlock(cfg, s, f.req.ip, Gateway, r, f.signal.value), r, f.(phase := Rejecting))
    case Reject(r) => SetFlight(s, r, Rejected(s.flights[r], 403))
    case Abandon(r) => SetFlight(s, r, s.flights[r].(phase := Aborted))
    case ResetStreak(identity) => s.(store := Delete(s.store, StreakKey(identity)))
    case Poll =>
      var ev := s.topic[s.pos];
      var t := s.(pos := s.pos + 1);
      (match cfg.decide(ev.signal)
       case None => t.(outcomes := t.outcomes + [Skipped])
       case Some(v) => t.(consumer := if v == Block && ev.ip != UNKNOWN_IP then Writing(ev) else Emitting(ev)))
    case ConsumerWrite(committed, acknowledged) =>
      var ev := s.consumer.ev;
      var t := if committed then CommitBlock(cfg, s, ev.ip, StreamConsumer, ev.rid, ev.signal) else s;
      if acknowledged then t.(consumer := Emitting(ev))
      else t.(consumer := Ready, outcomes := t.outcomes + [Skipped])
    case Emit(acknowledged) =>
      var event := AuditOf(cfg, s.consumer.ev);
      if acknowledged
      then s.(consumer := Ready, outcomes := s.outcomes + [Audited(event)], audit := s.audit + [event])
      else s.(consumer := Ready, outcomes := s.outcomes + [Skipped])
    case Restart(p) => s.(consumer := Ready, pos := p, outcomes := OutcomesAt(s, p))
  }

  function Start(now: int): State {
    State(Store(now, map[], []), [], [], [], 0, Ready, [], [])
  }

  // A run: states[i] goes to states[i + 1] by acts[i].
  ghost predicate IsRun(cfg: Config, states: seq<State>, acts: seq<Action>) {
    && |states| == |acts| + 1
    && (exists now :: states[0] == Start(now))
    && (forall i :: 0 <= i < |acts| ==> IsStep(cfg, states[i], acts[i], states[i + 1]))
  }

  ghost predicate IsStep(cfg: Config, s: State, a: Action, t: State) {
    Enabled(cfg, s, a) && t == Step(cfg, s, a)
  }

  // No event comes again: restarts go to the consumer's own position or a later one.
  predicate NoRedelivery(s: State, a: Action) {
    a.Restart? ==> s.pos <= a.position
  }

  ghost predicate NoRedeliveryIn(states: seq<State>, acts: seq<Action>, i: nat, j: nat) {
    j < |states| == |acts| + 1 && forall m :: i <= m < j ==> NoRedelivery(states[m], acts[m])
  }
}
