/**
 The gateway filter as the sequence of effects it is, on real mutable objects. Each method carries the transition
 system's state along and is proved to leave the objects exactly where the corresponding actions leave it: one
 request handled without interference is an execution of the enforcement loop.
 */
module ZeroTrustFilter {
  import opened Wrappers
  import opened RedisStore
  import opened CounterHistory
  import opened Features
  import opened Ensemble
  import opened GatewaySignal
  import opened RedisStateService
  import opened Enforcement
  import opened GateSafety
  import opened Executions

  class RequestTopic {
    var log: seq<RawEvent>

    constructor ()
      ensures log == []
    {
      log := [];
    }
  }

  class KafkaRequestPublisher {
    const topic: RequestTopic

    constructor (topic: RequestTopic)
      ensures this.topic == topic
    {
      this.topic := topic;
    }

    // One attempt; a failed send or an unserialisable envelope is logged and dropped.
    method PublishAsync(requestId: nat, clientIp: string, signal: Signal, lost: bool)
      modifies topic
      ensures topic.log == old(topic.log) + if lost then [] else [RawEvent(requestId, clientIp, signal)]
    {
      if !lost {
        topic.log := topic.log + [RawEvent(requestId, clientIp, signal)];
      }
    }
  }

  class ThreatEngineClient {
    const properties: Config

    constructor (properties: Config)
      ensures this.properties == properties
    {
      this.properties := properties;
    }

    // Any failure, and any answer that is not in time, fails open as UNSCORED.
    method Score(signal: Signal, inTime: bool) returns (answer: Answer)
      ensures answer == EngineAnswer(properties, signal, inTime)
      ensures answer.Scored? <==> inTime && properties.decide(signal).Some?
      ensures answer.Scored? ==> properties.decide(signal) == Some(answer.v)
    {
      var response := properties.decide(signal);
      if response.None? || !inTime {
        return Unscored;
      }
      answer := Scored(response.value);
    }
  }

  // The response side of one exchange: rejections written, times forwarded, the risk tag.
  class Exchange {
    var statuses: seq<int>
    var forwards: nat
    var riskLevel: Option<Answer>

    constructor ()
      ensures statuses == [] && forwards == 0 && riskLevel == None
    {
      statuses, forwards, riskLevel := [], 0, None;
    }

    method Reject(status: int)
      modifies this
      ensures statuses == old(statuses) + [status] && forwards == old(forwards) && riskLevel == old(riskLevel)
    {
      statuses := statuses + [status];
    }

    method Forward(tag: Option<Answer>)
      modifies this
      ensures forwards == old(forwards) + 1 && statuses == old(statuses) && riskLevel == tag
    {
      forwards, riskLevel := forwards + 1, tag;
    }
  }

  class Filter {
    const redisState: Service
    const kafkaPublisher: KafkaRequestPublisher
    const threatEngineClient: ThreatEngineClient
    const properties: Config

    constructor (redisState: Service, publisher: KafkaRequestPublisher, client: ThreatEngineClient, properties: Config)
      requires redisState.properties == properties && client.properties == properties
      ensures Wired() && this.redisState == redisState && this.kafkaPublisher == publisher
      ensures this.properties == properties
    {
      this.redisState, kafkaPublisher, threatEngineClient := redisState, publisher, client;
      this.properties := properties;
    }

    ghost predicate Wired() {
      redisState.properties == properties && threatEngineClient.properties == properties
    }

    // The objects hold what the state says.
    ghost predicate Mirrors(s: State)
      reads redisState.redis, kafkaPublisher.topic
    {
      redisState.redis.View() == s.store && kafkaPublisher.topic.log == s.topic
    }

    // The exchange holds the request's responses, tagged with the engine's answer when it was asked.
    ghost predicate Answers(exchange: Exchange, f: Flight)
      reads exchange
    {
      && exchange.statuses == f.statuses && exchange.forwards == f.forwards
      && exchange.riskLevel == if f.forwards > 0 then f.answer else None
    }

    // The request `id` has come to state `t` by `acts`, and the objects hold what `t` says.
    ghost predicate Running(exchange: Exchange, req: Request, id: nat, lost: bool, inTime: bool,
                            s: State, acts: seq<Action>, t: State)
      reads exchange, redisState.redis, kafkaPublisher.topic
    {
      && Wired() && Mirrors(t)
      && Exec(properties, s, acts) == Some(t) && Follows(acts, id, lost, inTime)
      && |t.flights| == id + 1 && t.flights[id].req == req && Answers(exchange, t.flights[id])
    }

    // Handles one request from its arrival. `id` is the request's place, `writeId` that of its block write, if any;
    // `lost` and `inTime` are what Kafka and the engine do.
    method Handle(exchange: Exchange, req: Request, id: nat, writeId: nat, lost: bool, inTime: bool, ghost s: State)
      returns (ghost acts: seq<Action>, ghost t: State)
      requires Wired() && Mirrors(s) && StoreInv(s.store) && id == |s.flights| && writeId == |s.writes|
      requires Answers(exchange, NewFlight(req))
      modifies exchange, redisState.redis, kafkaPublisher.topic
      ensures Running(exchange, req, id, lost, inTime, s, acts, t) && InPhase(t, id, Done)
    {
      acts := [];
      ExecOneMore(properties, s, acts, s, Arrive(req));
      acts, t := acts + [Arrive(req)], Step(properties, s, Arrive(req));
      ExecOneMore(properties, s, acts, t, Authenticate(id));
      acts, t := acts + [Authenticate(id)], Step(properties, t, Authenticate(id));

      var claims := if req.path in PUBLIC_PATHS then None else req.token;
      if req.path !in PUBLIC_PATHS && claims.None? {
        exchange.Reject(401);
        return;
      }
      acts, t := CheckAndProcess(exchange, req, id, writeId, lost, inTime, s, acts, t);
    }

    method CheckAndProcess(exchange: Exchange, req: Request, id: nat, writeId: nat, lost: bool, inTime: bool,
                           ghost s: State, ghost before: seq<Action>, ghost m: State)
      returns (ghost acts: seq<Action>, ghost t: State)
      requires Running(exchange, req, id, lost, inTime, s, before, m)
      requires StoreInv(m.store) && writeId == |m.writes| && m.flights[id] == NewFlight(req).(phase := Checking)
      modifies exchange, redisState.redis, kafkaPublisher.topic
      ensures Running(exchange, req, id, lost, inTime, s, acts, t) && InPhase(t, id, Done)
    {
      var blocked := redisState.IsBlocked(req.ip);
      ExecOneMore(properties, s, before, m, Check(id));
      acts, t := before + [Check(id)], Step(properties, m, Check(id));
      if blocked {
        exchange.Reject(403);
        return;
      }
      acts, t := ContinuePipeline(exchange, req, id, writeId, lost, inTime, s, acts, t);
    }

    method ContinuePipeline(exchange: Exchange, req: Request, id: nat, writeId: nat, lost: bool, inTime: bool,
                            ghost s: State, ghost before: seq<Action>, ghost m: State)
      returns (ghost acts: seq<Action>, ghost t: State)
      requires Running(exchange, req, id, lost, inTime, s, before, m) && StoreInv(m.store) && writeId == |m.writes|
      requires m.flights[id] == NewFlight(req).(phase := Counting, cleared := m.flights[id].cleared)
      modifies exchange, redisState.redis, kafkaPublisher.topic
      ensures Running(exchange, req, id, lost, inTime, s, acts, t) && InPhase(t, id, Done)
    {
      var rate10s, rate60s, failStreak;
      rate10s, acts, t := CountWindow(exchange, req, id, Ten, TEN_SECONDS, lost, inTime, s, before, m);
      rate60s, acts, t := CountWindow(exchange, req, id, Sixty, SIXTY_SECONDS, lost, inTime, s, acts, t);
      failStreak, acts, t := CountStreak(exchange, req, id, lost, inTime, s, acts, t);
      acts, t := PublishAndRoute(exchange, req, id, writeId, lost, inTime, rate10s, rate60s, failStreak, s, acts, t);
    }

    // The calls of the request still to be made are idle, and nothing else about it or the logs has changed.
    ghost predicate Counted(m: State, t: State, id: nat, call: Call, count: int) {
      && id < |m.flights| && StoreInv(t.store) && t.topic == m.topic && t.writes == m.writes
      && t.flights == m.flights[id := WithCall(m.flights[id], call, Returned(|m.store.hits|, count))]
    }

    method CountWindow(exchange: Exchange, req: Request, id: nat, call: Call, window: int, ghost lost: bool,
                       ghost inTime: bool, ghost s: State, ghost before: seq<Action>, ghost m: State)
      returns (count: int, ghost acts: seq<Action>, ghost t: State)
      requires Running(exchange, req, id, lost, inTime, s, before, m) && StoreInv(m.store)
      requires InPhase(m, id, Counting) && call != Streak && CallOf(m.flights[id], call).Idle?
      requires window == CounterTtl(call)
      modifies redisState.redis
      ensures Running(exchange, req, id, lost, inTime, s, acts, t) && Counted(m, t, id, call, count)
    {
      acts, t := CallAlone(properties, s, before, m, id, call);
      ghost var k := CounterKey(properties, req, call);
      assert k == WindowKey(redisState.properties.shared, req.ip, req.path, call);
      assert t.store == WindowCall(m.store, k, window, id, call);
      CallKeepsRest(m.flights[id], call, Returned(|m.store.hits|, NextCount(m.store, k)));
      CallFollows(before, acts, id, call, lost, inTime);
      count := redisState.IncrementWindowCounter(req.ip, req.path, window, id, call);
    }

    method CountStreak(exchange: Exchange, req: Request, id: nat, ghost lost: bool, ghost inTime: bool,
                       ghost s: State, ghost before: seq<Action>, ghost m: State)
      returns (count: int, ghost acts: seq<Action>, ghost t: State)
      requires Running(exchange, req, id, lost, inTime, s, before, m) && StoreInv(m.store)
      requires InPhase(m, id, Counting) && m.flights[id].streak.Idle?
      modifies redisState.redis
      ensures Running(exchange, req, id, lost, inTime, s, acts, t) && Counted(m, t, id, Streak, count)
    {
      acts, t := CallAlone(properties, s, before, m, id, Streak);
      CallFollows(before, acts, id, Streak, lost, inTime);
      count := redisState.IncrementFailedAuthStreak(Identity(req), id);
    }

    method PublishAndRoute(exchange: Exchange, req: Request, id: nat, writeId: nat, lost: bool, inTime: bool,
                           rate10s: int, rate60s: int, failStreak: int,
                           ghost s: State, ghost before: seq<Action>, ghost m: State)
      returns (ghost acts: seq<Action>, ghost t: State)
      requires Running(exchange, req, id, lost, inTime, s, before, m) && writeId == |m.writes|
      requires InPhase(m, id, Counting) && AllReturned(m.flights[id])
      requires m.flights[id].answer.None? && m.flights[id].forwards == 0
      requires m.flights[id].ten.n == rate10s && m.flights[id].sixty.n == rate60s
      requires m.flights[id].streak.n == failStreak
      modifies exchange, redisState.redis, kafkaPublisher.topic
      ensures Running(exchange, req, id, lost, inTime, s, acts, t) && InPhase(t, id, Done)
    {
      var signal := BuildSignal(properties, req, rate10s, rate60s, failStreak);
      ExecOneMore(properties, s, before, m, Publish(id, lost));
      acts, t := before + [Publish(id, lost)], Step(properties, m, Publish(id, lost));
      kafkaPublisher.PublishAsync(id, req.ip, signal, lost);
      acts, t := RouteRequest(exchange, req, id, writeId, lost, inTime, rate10s, signal, s, acts, t);
    }

    method RouteRequest(exchange: Exchange, req: Request, id: nat, writeId: nat, lost: bool, inTime: bool,
                        rate10s: int, signal: Signal, ghost s: State, ghost before: seq<Action>, ghost m: State)
      returns (ghost acts: seq<Action>, ghost t: State)
      requires Running(exchange, req, id, lost, inTime, s, before, m) && writeId == |m.writes|
      requires InPhase(m, id, Routing) && m.flights[id].ten.Returned? && m.flights[id].ten.n == rate10s
      requires m.flights[id].signal == Some(signal) && m.flights[id].answer.None? && m.flights[id].forwards == 0
      modifies exchange, redisState.redis
      ensures Running(exchange, req, id, lost, inTime, s, acts, t) && InPhase(t, id, Done)
    {
      ExecOneMore(properties, s, before, m, Route(id));
      acts, t := before + [Route(id)], Step(properties, m, Route(id));
      var highRisk := Escalates(properties, req.path, rate10s);
      if !highRisk {
        exchange.Forward(None);
        return;
      }
      acts, t := Escalate(exchange, req, id, writeId, lost, inTime, signal, s, acts, t);
    }

    method Escalate(exchange: Exchange, req: Request, id: nat, writeId: nat, lost: bool, inTime: bool, signal: Signal,
                    ghost s: State, ghost before: seq<Action>, ghost m: State)
      returns (ghost acts: seq<Action>, ghost t: State)
      requires Running(exchange, req, id, lost, inTime, s, before, m) && writeId == |m.writes|
      requires InPhase(m, id, Scoring) && m.flights[id].signal == Some(signal) && m.flights[id].forwards == 0
      modifies exchange, redisState.redis
      ensures Running(exchange, req, id, lost, inTime, s, acts, t) && InPhase(t, id, Done)
    {
      var answer := threatEngineClient.Score(signal, inTime);
      ExecOneMore(properties, s, before, m, AskEngine(id, inTime));
      acts, t := before + [AskEngine(id, inTime)], Step(properties, m, AskEngine(id, inTime));
      if answer == Scored(Block) {
        acts, t := BlockAndReject(exchange, req, id, writeId, lost, inTime, signal, s, acts, t);
      } else {
        exchange.Forward(Some(answer));
      }
    }

    method BlockAndReject(exchange: Exchange, req: Request, id: nat, writeId: nat, ghost lost: bool, ghost inTime: bool,
                          ghost signal: Signal, ghost s: State, ghost before: seq<Action>, ghost m: State)
      returns (ghost acts: seq<Action>, ghost t: State)
      requires Running(exchange, req, id, lost, inTime, s, before, m) && writeId == |m.writes|
      requires InPhase(m, id, Blocking) && m.flights[id].signal == Some(signal) && m.flights[id].forwards == 0
      modifies exchange, redisState.redis
      ensures Running(exchange, req, id, lost, inTime, s, acts, t) && InPhase(t, id, Done)
    {
      acts, t := WriteThenReject(properties, s, before, m, id);
      RejectionFollows(before, id, lost, inTime);
      redisState.BlockImmediately(req.ip, BLOCK_REASON, writeId);
      exchange.Reject(403);
    }
  }

  // All actions are the request's own, it is not abandoned, and the environment behaves as given.
  ghost predicate Follows(acts: seq<Action>, id: nat, lost: bool, inTime: bool) {
    forall i :: 0 <= i < |acts| ==> FollowsOne(acts[i], id, lost, inTime)
  }

  predicate FollowsOne(a: Action, id: nat, lost: bool, inTime: bool) {
    && (a.Arrive? || (ActsOn(a, id) && !a.Abandon?))
    && (a.Publish? ==> a.lost == lost) && (a.AskEngine? ==> a.inTime == inTime)
  }

  lemma WriteThenReject(cfg: Config, s: State, before: seq<Action>, m: State, id: nat)
    returns (acts: seq<Action>, t: State)
    requires Exec(cfg, s, before) == Some(m) && InPhase(m, id, Blocking) && m.flights[id].signal.Some?
    ensures Exec(cfg, s, acts) == Some(t)
    ensures acts == before + [WriteBlock(id)] + [Enforcement.Action.Reject(id)]
    ensures t.flights == m.flights[id := Rejected(m.flights[id], 403)] && t.topic == m.topic
    ensures t.store
         == SetEx(m.store, BlockKey(m.flights[id].req.ip), BLOCK_REASON, cfg.blocklistTtl * SECOND, |m.writes|)
  {
    var reject := Enforcement.Action.Reject(id);
    ExecOneMore(cfg, s, before, m, WriteBlock(id));
    acts, t := before + [WriteBlock(id)], Step(cfg, m, WriteBlock(id));
    ExecOneMore(cfg, s, acts, t, reject);
    acts, t := acts + [reject], Step(cfg, t, reject);
    assert t.flights == m.flights[id := Rejected(m.flights[id], 403)];
  }

  lemma CallKeepsRest(f: Flight, call: Call, c: CallState)
    ensures var g := WithCall(f, call, c);
            g.req == f.req && g.statuses == f.statuses && g.forwards == f.forwards && g.answer == f.answer
  {
  }

  // The actions of one counter call, and those that end a blocked request.
  lemma CallFollows(before: seq<Action>, acts: seq<Action>, id: nat, call: Call, lost: bool, inTime: bool)
    requires Follows(before, id, lost, inTime)
    requires acts == before + [Increment(id, call)] || acts == before + [Increment(id, call)] + [SetExpiry(id, call)]
    ensures Follows(acts, id, lost, inTime)
  {
  }

  lemma RejectionFollows(before: seq<Action>, id: nat, lost: bool, inTime: bool)
    requires Follows(before, id, lost, inTime)
    ensures Follows(before + [WriteBlock(id)] + [Enforcement.Action.Reject(id)], id, lost, inTime)
  {
  }
}
