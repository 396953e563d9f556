/**
 The gateway's side of the signal: its configuration, the facts of one request, and the signal built from them
 and from the three counter values. Clock readings and header tests are facts of the request.
 */
module GatewaySignal {
  import opened Wrappers
  import opened RedisStore
  import opened Features
  import opened Ensemble

  type Ttl = n: int | n > 0 witness 900

  datatype Json = Number(value: real) | Other

  // `parse` reads a body as a JSON object (None: blank or unreadable); `decide` is the engine's decision on a
  // signal (None: an exception). `shared` is the code's window key; its negation gives each window its own.
  datatype Config = Config(
    shared: bool, rateEscalationThreshold: int, highRiskEndpoints: seq<string>,
    blocklistTtl: Ttl, consumerTtl: Ttl, numericBaselines: map<string, Range>,
    parse: string -> Option<seq<(string, Json)>>, decide: Signal -> Option<Verdict>)

  // A validated token: its subject, if any, and the seconds since it was issued.
  datatype Claims = Claims(subject: Option<string>, age: real)

  datatype Request = Request(
    ip: string, verb: string, path: string, token: Option<Claims>, body: string, automationUa: bool, offHours: bool)

  const PUBLIC_PATHS := {"/api/auth/login", "/api/auth/register", "/actuator/health"}
  const BODY_METHODS := {"POST", "PUT", "PATCH"}
  const UNKNOWN_IP := "unknown"

  // Tokens are not looked at on public paths.
  function ClaimsOf(req: Request): Option<Claims> {
    if req.path in PUBLIC_PATHS then None else req.token
  }

  predicate Admitted(req: Request) {
    req.path in PUBLIC_PATHS || req.token.Some?
  }

  function Identity(req: Request): string {
    match ClaimsOf(req)
    case Some(Claims(Some(subject), _)) => subject
    case _ => req.ip
  }

  predicate HighRiskPath(cfg: Config, path: string) {
    exists e :: e in cfg.highRiskEndpoints && e <= path
  }

  predicate Escalates(cfg: Config, path: string, rate10s: int) {
    HighRiskPath(cfg, path) || rate10s > cfg.rateEscalationThreshold
  }

  function CounterKey(cfg: Config, req: Request, call: Call): (k: string)
    ensures IsCounterKey(k) && (call == Streak <==> IsStreakKey(k)) && (call != Streak <==> IsCountKey(k))
  {
    if call == Streak then StreakKey(Identity(req)) else WindowKey(cfg.shared, req.ip, req.path, call)
  }

  function CounterTtl(call: Call): int {
    match call case Ten => TEN_SECONDS case Sixty => SIXTY_SECONDS case Streak => FIFTEEN_MINUTES
  }

  // ---------- The signal ----------

  // A long narrowed to an int.
  function ToInt32(n: int): int {
    (n + 0x8000_0000) % 0x1_0000_0000 - 0x8000_0000
  }

  function Body(req: Request): string {
    if req.verb in BODY_METHODS then req.body else ""
  }

  function TopLevelFields(cfg: Config, body: string): seq<(string, Json)> {
    match cfg.parse(body) case Some(entries) => entries case None => []
  }

  function NumericFields(entries: seq<(string, Json)>): seq<(string, real)> {
    if entries == [] then []
    else
      var rest := NumericFields(entries[..|entries| - 1]);
      match entries[|entries| - 1]
      case (name, Number(value)) => rest + [(name, value)]
      case (_, Other) => rest
  }

  function FieldNames(fields: seq<(string, real)>): set<string> {
    set f | f in fields :: f.0
  }

  const UNCONSTRAINED := Range(-1000000000.0, 1000000000.0)

  function BaselineFor(cfg: Config, endpoint: string, field: string): Range {
    var key := endpoint + ":" + field;
    if key in cfg.numericBaselines then cfg.numericBaselines[key] else UNCONSTRAINED
  }

  function BuildSignal(cfg: Config, req: Request, rate10s: int, rate60s: int, streak: int): Signal {
    var entries := TopLevelFields(cfg, Body(req));
    var numeric := NumericFields(entries);
    Signal(rate10s as real, rate60s as real, 1, ToInt32(streak),
           match ClaimsOf(req) case Some(c) => c.age case None => 0.0,
           0.0, if req.automationUa then 1 else 0, 0.0, if req.offHours then 1 else 0,
           Body(req), |entries|, 8, numeric,
           map f | f in FieldNames(numeric) :: BaselineFor(cfg, req.path, f))
  }

  // ---------- The contract between the two services ----------

  // The range the configuration gives a field of a path: its own if there is one, otherwise a thousand million either
  // side of zero.
  ghost predicate Configured(cfg: Config, path: string, field: string, r: Range) {
    var key := path + ":" + field;
    && (key in cfg.numericBaselines ==> r == cfg.numericBaselines[key])
    && (key !in cfg.numericBaselines ==> r.lo == -1000000000.0 && r.hi == 1000000000.0)
  }

  // Every numeric field comes with exactly the range configured for it, so the engine's own default is never used; the
  // anomaly is zero exactly when each value is in that range.
  lemma SignalCarriesItsRanges(cfg: Config, req: Request, rate10s: int, rate60s: int, streak: int)
    ensures var sig := BuildSignal(cfg, req, rate10s, rate60s, streak);
            && sig.baselineNumericRanges.Keys == (set f | f in sig.numericFields :: f.0)
            && (forall f :: f in sig.numericFields ==>
                  Configured(cfg, req.path, f.0, sig.baselineNumericRanges[f.0]))
            && (Anomaly(sig.numericFields, sig.baselineNumericRanges) == 0.0 <==>
                  forall f :: f in sig.numericFields ==>
                    exists r :: Configured(cfg, req.path, f.0, r) && r.lo <= f.1 <= r.hi)
  {
    var sig := BuildSignal(cfg, req, rate10s, rate60s, streak);
    AnomalyZero(sig.numericFields, sig.baselineNumericRanges);
    forall f | f in sig.numericFields
      ensures f.0 in sig.baselineNumericRanges && Configured(cfg, req.path, f.0, sig.baselineNumericRanges[f.0])
      ensures InRange(f.1, RangeFor(sig.baselineNumericRanges, f.0)) <==>
                exists r :: Configured(cfg, req.path, f.0, r) && r.lo <= f.1 <= r.hi
    {
      assert f.0 in FieldNames(sig.numericFields);
    }
  }

  // Every number of the body is in the signal as often as it is in the body, and nothing else.
  lemma {:induction false} NumericFieldsExactly(entries: seq<(string, Json)>, name: string, value: real)
    ensures multiset(NumericFields(entries))[(name, value)] == multiset(entries)[(name, Number(value))]
  {
    if entries != [] {
      var rest, last := entries[..|entries| - 1], entries[|entries| - 1];
      NumericFieldsExactly(rest, name, value);
      assert entries == rest + [last];
    }
  }

  // One numeric field of a gateway signal against the range configured for it: the distance from the range in its
  // widths, at most ten.
  lemma FieldAgainstItsRange(cfg: Config, req: Request, rate10s: int, rate60s: int, streak: int, f: (string, real),
                             r: Range)
    requires f in BuildSignal(cfg, req, rate10s, rate60s, streak).numericFields && Configured(cfg, req.path, f.0, r)
    ensures var ranges := BuildSignal(cfg, req, rate10s, rate60s, streak).baselineNumericRanges;
            MeasuresField(Anomaly([f], ranges), f.1, r.lo, r.hi)
  {
    SignalCarriesItsRanges(cfg, req, rate10s, rate60s, streak);
    SingleFieldAnomaly(f.0, f.1, BuildSignal(cfg, req, rate10s, rate60s, streak).baselineNumericRanges);
  }

  // Fields nobody has configured contribute nothing while they stay within a thousand million of zero.
  lemma UnlistedFieldsAreSilent(cfg: Config, req: Request, rate10s: int, rate60s: int, streak: int, f: (string, real))
    requires f in BuildSignal(cfg, req, rate10s, rate60s, streak).numericFields
    requires req.path + ":" + f.0 !in cfg.numericBaselines
    ensures var sig := BuildSignal(cfg, req, rate10s, rate60s, streak);
            FieldDeviation(f, sig.baselineNumericRanges) == 0.0 <==> -1000000000.0 <= f.1 <= 1000000000.0
  {
    SignalCarriesItsRanges(cfg, req, rate10s, rate60s, streak);
    DeviationSign(f.1, RangeFor(BuildSignal(cfg, req, rate10s, rate60s, streak).baselineNumericRanges, f.0));
  }

  // Which gateway signals the engine accepts: the token must not be from the future, and the streak must
  // survive its narrowing to 32 bits.
  lemma SignalWellFormed(cfg: Config, req: Request, rate10s: int, rate60s: int, streak: int)
    requires rate10s >= 1 && rate60s >= 1 && streak >= 1
    ensures WellFormed(BuildSignal(cfg, req, rate10s, rate60s, streak)) <==>
              ToInt32(streak) >= 0 && (ClaimsOf(req).Some? ==> ClaimsOf(req).value.age >= 0.0)
    ensures streak <= 0x7fff_ffff ==> ToInt32(streak) == streak
  {
  }

  // The narrowed number is the one in the 32-bit range that differs by whole turns.
  lemma ToInt32Exactly(n: int, m: int)
    ensures ToInt32(n) == m <==> -0x8000_0000 <= m < 0x8000_0000 && (n - m) % 0x1_0000_0000 == 0
  {
    var q := (n + 0x8000_0000) / 0x1_0000_0000;
    assert n - ToInt32(n) == q * 0x1_0000_0000;
    if -0x8000_0000 <= m < 0x8000_0000 && (n - m) % 0x1_0000_0000 == 0 {
      var p := (n - m) / 0x1_0000_0000;
      assert n - m == p * 0x1_0000_0000;
      assert ToInt32(n) - m == (p - q) * 0x1_0000_0000;
    }
  }

  // ---------- Which requests share a counter ----------

  // Where the ip texts contain no ":/": two window calls count together if and only if they share the ip and the path,
  // and with separate keys also the window.
  lemma SameWindowCounter(cfg: Config, req: Request, call: Call, req': Request, call': Call)
    requires call != Streak && call' != Streak && "/" <= req.path && "/" <= req'.path
    requires !HasColonSlash(req.ip) && !HasColonSlash(req'.ip)
    ensures CounterKey(cfg, req, call) == CounterKey(cfg, req', call') <==>
              req.ip == req'.ip && req.path == req'.path && (cfg.shared || call == call')
  {
    if CounterKey(cfg, req, call) == CounterKey(cfg, req', call') {
      if !cfg.shared {
        SameSuffix(CountKey(req.ip, req.path), if call == Ten then ":10" else ":60",
                   CountKey(req'.ip, req'.path), if call' == Ten then ":10" else ":60");
      }
      CountKeyUnambiguous(req.ip, req.path, req'.ip, req'.path);
    }
  }

  lemma SameSuffix(a: string, b: string, a': string, b': string)
    requires a + b == a' + b' && |b| == |b'| == 3
    ensures a == a' && b == b'
  {
    assert |a| == |a'|;
    assert a == (a + b)[..|a|] == (a' + b')[..|a'|] == a';
    assert b == (a + b)[|a|..] == (a' + b')[|a'|..] == b';
  }

  // Two streak calls count together if and only if they share the subject of their tokens, or the ip where there is
  // none or the path is public.
  lemma SameStreak(cfg: Config, req: Request, req': Request, id: string, id': string)
    requires Identifies(req, id) && Identifies(req', id')
    ensures CounterKey(cfg, req, Streak) == CounterKey(cfg, req', Streak) <==> id == id'
  {
    var k, k' := CounterKey(cfg, req, Streak), CounterKey(cfg, req', Streak);
    assert id == k[11..] && id' == k'[11..];
  }

  ghost predicate Identifies(req: Request, id: string) {
    var public := req.path in {"/api/auth/login", "/api/auth/register", "/actuator/health"};
    if !public && req.token.Some? && req.token.value.subject.Some? then id == req.token.value.subject.value
    else id == req.ip
  }

  // ---------- The engine's decision ----------

  // What both the scoring endpoint and the stream consumer compute from a parsed signal.
  function EngineDecision(a: Artifacts, lg: real -> real, sig: Signal): Option<Verdict> {
    if WellFormed(sig) then Some(Score(a, ExtractFeatures(lg, sig)).decision) else None
  }

  ghost predicate RunsEngine(cfg: Config, a: Artifacts, lg: real -> real) {
    forall sig :: cfg.decide(sig) == EngineDecision(a, lg, sig)
  }
}
