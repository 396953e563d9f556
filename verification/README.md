# Enforcement loop of the API firewall: model and proofs

The firewall has two speeds. A gateway counts each request in Redis, checks a blocklist, publishes the request to a
topic, and asks a scoring engine about risky requests. A stream consumer scores every published request again and writes the
same blocklist. This project models both halves as one concurrent transition system over unbounded runs, and the
arithmetic that drives it over exact reals.

## How it is organised

- `RedisStore`, `RedisStateService`: the keyspace with deadlines and a clock, as functions on a value and as a mutable
  object proved equal to them; the gateway's calls on it.
- `CounterHistory`, `CounterTheorems`, `CounterLaws`: the counters under every interleaving, and when calls are atomic.
- `Enforcement`: the transition system. A state holds Redis, all requests, the topic, the log of blocklist writes and the
  consumer; each action is one atomic effect. INCR and EXPIRE are separate actions, a request's three counter calls
  interleave freely, any request may be abandoned between two actions, and the consumer may restart at an earlier position,
  at its own, or at a later one.
- `GateSafety`, `BlockTheorems`, `BlockDecay`, `Pipeline`, `AuditTrail`, `RequestOutcomes`: theorems about every run of it;
  the last says what becomes of each request without naming the transition function.
- `Scenarios`, `EscapeRun`: runs built action by action, for whole families of requests, in which the failing cases occur
  and the bound on unscored requests is reached.
- `ZeroTrustFilter`, `StreamScorer`, `Executions`: the filter and the consumer as imperative code on mutable objects, each
  proved to be an execution of the transition system.
- `Entropy`, `Features`, `Ensemble`, `GatewaySignal`, `ScoringPaths`: the signal, its features and the decision.
- `AuditIndexer`: the batching loop at the end of the pipeline.

Conventions. Time is in milliseconds. A key is live strictly before its deadline. An incarnation of a key (creation to
expiry) is named by the INCR that created it. In `BoundedEscape` a request is placed in time by its ten-second INCR, the
one whose count the threshold reads. `shared` in the configuration is the window key as the code writes it, without the
window length; its negation gives each window its own key. The two blocklist TTLs are separate parameters, both positive.

## Where the code and its documentation differ

- The repository's README speaks of sliding-window counters. They are fixed windows, and the ten-second and
  sixty-second counters of a request are one Redis key, so each request counts twice
  (`SharedKeyCounting`), and the window can be a sixty-second one (`SixtySecondWindowExactly`). Even on a key of its own
  a count equals the sliding one only under an exact condition (`FixedWindowIsSlidingLogWhen`), and fails it on three
  calls (`FixedWindowDiffers`).
- The failed-authentication streak is incremented by every counted request and never reset in the gateway; it measures
  activity (`StreakCountsRecentActivity`).
- The engine client says an UNSCORED request is still audited. With servers that report no error, restarts that go past no
  unfinished event, and a consumer that has dealt with the topic, a request is audited if and only if its publish was not
  lost and the engine has a decision on its signal (`AuditedWhenReliable`, `AuditedByRequest`). The engine has none on a
  signal with a negative session age, which a token issued in the gateway's future produces
  (`FutureTokenUndecided`): such a request is answered UNSCORED when escalated, is always let through once checked, and is
  never audited or blocked for (`UndecidedBypass`, `FutureTokenRun`).
- The consumer's position moves when it is handed a message, before the message is processed, and offsets are committed
  automatically; cancelling its task passes the handler that logs a skip. A restart at the consumer's own position therefore
  leaves the event in work neither audited nor skipped (`DroppedRun`), and a group without a committed offset joins at the end of the
  topic and misses what is waiting (`MissedRun`). Whenever no event comes again, `OutcomeExactly` says which of skipped,
  dropped and missed befell an event, and why; all others were audited, in the order of the topic (`AuditInOrder`).
- The audit trail is described as full traffic. Requests rejected for credentials or by the blocklist are never published
  (`GateSafety`), nor is an event whose publish was lost (`PublishedExactly`).
- High-risk endpoints are compared as plain prefixes, so the trailing stars in the code's default list are literal
  characters: a request to `/api/checkout/pay`, or any other path the two literal prefixes do not match, is within the
  threshold never put to the engine (`DefaultListExactly`, `UnlistedUnscored`, `UnlistedRun`). The shipped configuration
  file has no stars.

## Model

| member | source | states |
|---|---|---|
| `CounterTheorems.BoundedEscape` | gateway/src/main/java/com/aisecfirewall/gateway/service/RedisStateService.java:44-53 | In every run, however requests interleave and whichever are abandoned, at most 2·T - 1 requests on one window counter (none when T is not positive) are forwarded without the engine being asked, among those whose ten-second INCR falls in any one ten-second interval; for the shared key and for separate keys |
| `EscapeRun.EscapeBoundReached` | gateway/src/main/java/com/aisecfirewall/gateway/filter/ZeroTrustFilter.java:129-147 | The bound is exact: for every positive T and every admitted request to an endpoint that is not high-risk there is a run in which exactly 2·T - 1 of them escape within ten seconds |
| `CounterTheorems.CountsDistinct` | gateway/src/main/java/com/aisecfirewall/gateway/service/RedisStateService.java:44-53 | In every run the counts handed out within one incarnation of a key are distinct |
| `CounterTheorems.IncarnationsSpaced` | gateway/src/main/java/com/aisecfirewall/gateway/service/RedisStateService.java:44-53 | In every run all INCRs of one incarnation of a window counter precede the next incarnation, which starts ten seconds or more after it |
| `CounterTheorems.TwoIncarnations` | gateway/src/main/java/com/aisecfirewall/gateway/service/RedisStateService.java:44-53 | In every run the INCRs of a window counter inside any ten-second interval meet at most two incarnations of it |
| `CounterTheorems.OneOwner` | gateway/src/main/java/com/aisecfirewall/gateway/service/RedisStateService.java:46-52 | In every run a window counter lacks a deadline if and only if some call owes it an EXPIRE, and then exactly one call does |
| `CounterTheorems.ExpireLandsOnItsOwn` | gateway/src/main/java/com/aisecfirewall/gateway/service/RedisStateService.java:48-50 | The EXPIRE of a window call always meets the live incarnation its own INCR created, until then without a deadline, and sets that deadline ten or sixty seconds ahead and changes nothing else |
| `CounterTheorems.DebtorCanPayOrIsAbandoned` | gateway/src/main/java/com/aisecfirewall/gateway/service/RedisStateService.java:46-58 | A call that owes an EXPIRE can send it next, unless its request was abandoned; without abandoned requests it always can |
| `CounterTheorems.StreakHasADebtor` | gateway/src/main/java/com/aisecfirewall/gateway/service/RedisStateService.java:55-63 | A streak key without a deadline has a call that owes it one, deletes included |
| `CounterTheorems.OrphanIsImmortal` | gateway/src/main/java/com/aisecfirewall/gateway/service/RedisStateService.java:46-52 | A window counter whose owing request was abandoned stays the same live incarnation for the rest of the run |
| `CounterTheorems.NeverStuck` | gateway/src/main/java/com/aisecfirewall/gateway/filter/ZeroTrustFilter.java:74-158 | A request in flight always has an action of its own that it can take next |
| `CounterTheorems.RunKeepsStore` | gateway/src/main/java/com/aisecfirewall/gateway/service/RedisStateService.java:44-63 | Every reachable Redis state has well-formed counters: INCR never meets a text value, and incarnations are ordered and spaced |
| `CounterLaws.FixedWindowAgainstSlidingLog` | gateway/src/main/java/com/aisecfirewall/gateway/service/RedisStateService.java:38-53 | With INCR and EXPIRE atomic on a key of its own, the returned count is at most the number of calls in the trailing window, and that number is at most the count plus the previous window's last count |
| `CounterLaws.FixedWindowIsSlidingLogWhen` | gateway/src/main/java/com/aisecfirewall/gateway/service/RedisStateService.java:38-53 | The returned count is exactly the number of calls in the trailing window if and only if no earlier window exists or the last call before this window is no longer in the trailing one |
| `CounterLaws.FixedWindowDiffers` | gateway/src/main/java/com/aisecfirewall/gateway/service/RedisStateService.java:38-53 | Calls at 0, W-1 and W return 1, 2, 1, while two calls lie in the trailing window at the third |
| `CounterLaws.StreakCountsRecentActivity` | gateway/src/main/java/com/aisecfirewall/gateway/service/RedisStateService.java:55-59 | With INCR and EXPIRE atomic and no reset, the streak is the length of the longest suffix of the identity's requests with all gaps under fifteen minutes: it counts activity, not failures |
| `CounterLaws.SharedKeyCounting` | gateway/src/main/java/com/aisecfirewall/gateway/filter/ZeroTrustFilter.java:129-130 | With requests atomic on the shared key, the q-th request of a window sees 2q-1 and 2q, and the window is the ten-second one of its first request |
| `CounterLaws.SharedKeyEscapes` | gateway/src/main/java/com/aisecfirewall/gateway/filter/ZeroTrustFilter.java:129-147 | With requests atomic on the shared key, at most 2·floor((T+1)/2) - 1 <= T requests escape in any ten seconds, none when T is 0 |
| `CounterLaws.SharedKeyEscapesReached` | gateway/src/main/java/com/aisecfirewall/gateway/filter/ZeroTrustFilter.java:129-147 | For every positive T there is a sequence of requests at which that many escape |
| `CounterLaws.SixtySecondWindowExactly` | gateway/src/main/java/com/aisecfirewall/gateway/filter/ZeroTrustFilter.java:129-130 | The sixty-second call opens a sixty-second window on the shared counter if and only if the ten-second call left the key no longer to live than the time between the two |
| `RedisStore.CountKeyUnambiguous` | gateway/src/main/java/com/aisecfirewall/gateway/service/RedisStateService.java:45 | Two (ip, path) pairs with equal count keys are the same pair unless one of the two ip texts contains colon-slash |
| `RedisStore.CountKeyAmbiguousExactly` | gateway/src/main/java/com/aisecfirewall/gateway/service/RedisStateService.java:45 | Another pair shares the count key of (ip, path) if and only if the ip or the path contains colon-slash |
| `RedisStore.CountKeyAmbiguous` | gateway/src/main/java/com/aisecfirewall/gateway/service/RedisStateService.java:45 | A concrete collision of two different (ip, path) pairs |
| `RedisStore.BlockKeyInjective` | gateway/src/main/java/com/aisecfirewall/gateway/service/RedisStateService.java:29 | Blocklist keys of different ips differ |
| `RedisStateService.Service.IsBlocked` | gateway/src/main/java/com/aisecfirewall/gateway/service/RedisStateService.java:28-30 | True exactly when the ip's blocklist key is live |
| `RedisStateService.Service.BlockImmediately` | gateway/src/main/java/com/aisecfirewall/gateway/service/RedisStateService.java:33-36 | Sets the ip's blocklist key with the gateway's TTL and nothing else |
| `RedisStateService.Service.IncrementWindowCounter` | gateway/src/main/java/com/aisecfirewall/gateway/service/RedisStateService.java:44-53 | Returns the count after incrementing; the new Redis state is INCR, followed by EXPIRE only when the count is 1 |
| `RedisStateService.Service.IncrementFailedAuthStreak` | gateway/src/main/java/com/aisecfirewall/gateway/service/RedisStateService.java:55-59 | Returns the count after incrementing; the new Redis state is INCR followed by EXPIRE in fifteen minutes |
| `RedisStateService.Service.ResetFailedAuthStreak` | gateway/src/main/java/com/aisecfirewall/gateway/service/RedisStateService.java:61-63 | Deletes the identity's streak key and nothing else |
| `RedisStateService.ResetForgets` | gateway/src/main/java/com/aisecfirewall/gateway/service/RedisStateService.java:61-63 | After a reset the identity's next streak is 1 and no other key has changed |
| `GateSafety.GateSafety` | gateway/src/main/java/com/aisecfirewall/gateway/filter/ZeroTrustFilter.java:74-158 | At most one response per request, of 401, 403 or one forward; when done it was published exactly once if its check passed and never otherwise; a passed check found no live block; a forwarded request was public or authenticated, and when high-risk or above T the engine was asked first and did not say BLOCK, otherwise it was not asked; a rejection that is not an engine BLOCK left no counter, event or answer |
| `GateSafety.BoundedWork` | gateway/src/main/java/com/aisecfirewall/gateway/filter/ZeroTrustFilter.java:74-158 | Each action of a request lowers its remaining steps, so it takes at most thirteen actions in any run |
| `GateSafety.RequestsPersist` | gateway/src/main/java/com/aisecfirewall/gateway/filter/ZeroTrustFilter.java:88-94 | A finished request never changes again, and a built signal is never altered |
| `RequestOutcomes.BlockedExactly` | gateway/src/main/java/com/aisecfirewall/gateway/service/RedisStateService.java:28-36 | In every run an ip is blocked if and only if its last write is younger than the TTL its writer gave it, in seconds |
| `RequestOutcomes.CheckExactly` | gateway/src/main/java/com/aisecfirewall/gateway/filter/ZeroTrustFilter.java:88-94 | In every run a checked request is answered 403 if and only if the ip is blocked in that sense; otherwise it goes on to be counted |
| `RequestOutcomes.UnblockedGoesOn` | gateway/src/main/java/com/aisecfirewall/gateway/filter/ZeroTrustFilter.java:88-94 | Once the larger TTL has passed since every write of the ip, a checked request goes on |
| `RequestOutcomes.FinishedExactly` | gateway/src/main/java/com/aisecfirewall/gateway/filter/ZeroTrustFilter.java:74-158 | A finished request was answered 401 if and only if its path is none of the three public ones and it has no valid token, 403 if and only if it may enter but its check did not pass or the engine answered BLOCK, and was forwarded otherwise; a checked one was put to the engine if and only if its path starts with a high-risk entry or its count is above T |
| `RequestOutcomes.AnsweredExactly` | gateway/src/main/java/com/aisecfirewall/gateway/client/ThreatEngineClient.java:54-66 | In every run a request has an answer if and only if the engine was asked for it; the answer is the decision on its signal, whichever it is, when there is one in time, and UNSCORED otherwise |
| `RequestOutcomes.GatewayWroteExactly` | gateway/src/main/java/com/aisecfirewall/gateway/filter/ZeroTrustFilter.java:149-153 | The gateway has written the block for a finished request if and only if the engine answered it BLOCK |
| `RequestOutcomes.VectorOfRequest` | threat-engine/app/features.py:93-111 | In every run, in the vector of a request's signal the ten-second and sixty-second rates and the narrowed streak are the values its own INCRs handed out, each at its place; the other places are those of its body, field count, token age and flags, or the constants the gateway sends |
| `BlockTheorems.BlockProvenance` | gateway/src/main/java/com/aisecfirewall/gateway/filter/ZeroTrustFilter.java:149-153 | In every reachable state a live block of an ip comes from a write younger than the larger TTL, for a signal built by a request of that ip whose decision was BLOCK; a gateway write only after an engine answer of BLOCK, never UNSCORED; a consumer write only for a published event of a known ip |
| `BlockTheorems.BlockNeededBothModels` | threat-engine/app/kafka_consumer.py:52-73 | With the engine's own decision function, that signal had probability at least 10/13 and a raw isolation score at most max - (4/7)·span |
| `BlockTheorems.BlockPersists` | gateway/src/main/java/com/aisecfirewall/gateway/service/RedisStateService.java:28-36 | From any committed write the ip is blocked until the smaller of the two TTLs has passed, whatever either writer does meanwhile |
| `BlockTheorems.BlockedRequestsRejected` | gateway/src/main/java/com/aisecfirewall/gateway/filter/ZeroTrustFilter.java:88-93 | A request of that ip checked within that time is answered 403 and is never forwarded, counted or published in the rest of the run |
| `BlockTheorems.ExpiryNeverDecreases` | threat-engine/app/kafka_consumer.py:70-73 | With equal TTLs a blocklist key's expiry never decreases along a run, redelivery included |
| `BlockTheorems.ExpiryMovesBackWhen` | threat-engine/app/kafka_consumer.py:70-73 | With any TTLs a write moves the expiry back if and only if the last write was by the other writer and less time has passed since it than the last writer's TTL exceeds this one's |
| `Scenarios.ExpiryMovesBackRun` | threat-engine/app/kafka_consumer.py:70-73 | Whenever the TTLs differ, every escalating request of a known ip decided BLOCK has a run in which the second writer moves the expiry back |
| `BlockTheorems.BlockEnds` | gateway/src/main/java/com/aisecfirewall/gateway/service/RedisStateService.java:33-36 | An ip is not blocked once the larger TTL has passed since its last write |
| `BlockTheorems.PathsAgree` | threat-engine/app/main.py:64-70 | An audited decision equals the one on the request's signal, and equals the endpoint's answer to that request unless it was UNSCORED; when there is an audit event is said by `AuditedExactly` |
| `BlockTheorems.CatchUp` | gateway/src/main/java/com/aisecfirewall/gateway/client/ThreatEngineClient.java:62-65 | When a request's event has been audited as BLOCK for a known ip, the consumer has written the block, and the ip stays blocked until the smaller TTL has passed since that write; when there is one is said by `CaughtUpExactly` |
| `BlockDecay.StepDecays` | threat-engine/app/kafka_consumer.py:49-76 | While an ip is blocked, no action except a restart at an earlier position raises its pending work plus its committed writes |
| `BlockDecay.BlockedWritesBounded` | gateway/src/main/java/com/aisecfirewall/gateway/filter/ZeroTrustFilter.java:88-93 | During a blocked period with no restart at an earlier position inside it, whatever happened before, the ip gets at most as many further writes as it had work pending at the start |
| `BlockDecay.BlockedPeriodBounded` | gateway/src/main/java/com/aisecfirewall/gateway/filter/ZeroTrustFilter.java:88-93 | Such a period lasts less than the larger TTL times one more than the work pending at its start |
| `BlockDecay.NewRequestsInert` | gateway/src/main/java/com/aisecfirewall/gateway/filter/ZeroTrustFilter.java:88-93 | Requests of the ip that arrive during a blocked period add no counter, event, answer or write, and end only in 401 or 403 |
| `BlockDecay.BlockedOnlyByRecentWrite` | gateway/src/main/java/com/aisecfirewall/gateway/filter/ZeroTrustFilter.java:88-93 | If nothing was pending at the start of such a period, it is carried only by a write made before the start and less than the larger TTL old; the zero case of `BlockedPeriodBounded` with the write named |
| `Pipeline.Conservation` | threat-engine/app/kafka_consumer.py:49-79 | In every run, wherever the consumer is restarted: each event before its position has one outcome or is in work, an audited one has left its own audit event, and every audit event is that of an event in the topic |
| `Pipeline.AuditInOrder` | threat-engine/app/kafka_consumer.py:49-79 | Without a restart at an earlier position the audit is the audit events of the audited events in the order of the topic, each at most once |
| `Pipeline.DuplicatesAgree` | threat-engine/app/kafka_consumer.py:49-79 | In every run, events that come again included, two audit events of one request are equal |
| `Pipeline.WriteBeforeAudit` | threat-engine/app/kafka_consumer.py:70-76 | A BLOCK event for a known ip is emitted only after its blocklist write |
| `AuditTrail.PublishedExactly` | gateway/src/main/java/com/aisecfirewall/gateway/service/KafkaRequestPublisher.java:35-56 | In every run a request's event is in the topic if and only if its publish happened and was not lost |
| `AuditTrail.OutcomeExactly` | threat-engine/app/kafka_consumer.py:30-81 | In every run without a restart at an earlier position, an event was missed if and only if a restart passed over it unpolled, dropped if and only if a restart went past it while it was in work, and skipped if and only if a server reported an error on its blocklist write or audit send, or it was polled and the engine has no decision on its signal |
| `AuditTrail.AuditedExactly` | threat-engine/app/kafka_consumer.py:49-79 | In every run without a restart at an earlier position, a request has an audit event if and only if some event of it is done with, has a decision, met no server error, and was neither dropped nor missed |
| `AuditTrail.AuditedWhenReliable` | gateway/src/main/java/com/aisecfirewall/gateway/client/ThreatEngineClient.java:28-32 | With servers that report no error, restarts at any position up to the first event not done with (events may come again), and a topic dealt with: a request is audited if and only if its publish was not lost and the engine has a decision on its signal, UNSCORED or not |
| `AuditTrail.AuditedByRequest` | gateway/src/main/java/com/aisecfirewall/gateway/filter/ZeroTrustFilter.java:160-171 | Under the same conditions and with the engine's own decision function: audited if and only if the publish was not lost, the streak survives its narrowing to 32 bits non-negative, and the token is not dated in the future |
| `AuditTrail.CaughtUpExactly` | threat-engine/app/kafka_consumer.py:70-76 | Under the same conditions on servers and restarts the consumer has written the block for a request if and only if its publish was not lost, the decision is BLOCK and the ip is known |
| `AuditTrail.FutureTokenUndecided` | gateway/src/main/java/com/aisecfirewall/gateway/filter/ZeroTrustFilter.java:168-171 | The engine has no decision on a gateway signal if and only if the streak narrows to a negative number or the token is dated in the future |
| `AuditTrail.UndecidedBypass` | gateway/src/main/java/com/aisecfirewall/gateway/client/ThreatEngineClient.java:62-65 | In every run a request whose signal has no decision is never scored, never written for and never audited, and once finished it was forwarded |
| `Scenarios.UndecidedRun` | gateway/src/main/java/com/aisecfirewall/gateway/client/ThreatEngineClient.java:62-65 | Every admitted request whose signal has no decision has a run with an engine that answers in time and servers that never fail in which it is published, forwarded and skipped |
| `Scenarios.FutureTokenRun` | gateway/src/main/java/com/aisecfirewall/gateway/client/ThreatEngineClient.java:28-32 | Every authenticated request to a high-risk endpoint with a token dated in the future has such a run, answered UNSCORED and never audited |
| `Scenarios.DroppedRun` | threat-engine/app/kafka_consumer.py:78-81 | Every admitted request whose signal has a decision has a run with no server error and no event coming again in which its delivered event is neither audited nor skipped: a restart at the consumer's own position drops it |
| `Scenarios.MissedRun` | threat-engine/app/kafka_consumer.py:30-31 | Every admitted request has such a run in which a restart at the end of the topic passes over its event |
| `Scenarios.DefaultListExactly` | gateway/src/main/java/com/aisecfirewall/gateway/config/SecurityProperties.java:16 | With the default list a path is high-risk if and only if it starts with the login path or with the checkout path and its two stars spelled out; /api/checkout and /api/checkout/pay do not |
| `Scenarios.UnlistedUnscored` | gateway/src/main/java/com/aisecfirewall/gateway/filter/ZeroTrustFilter.java:142-147 | In every run with the default list, a request counted at most T times to a path that neither prefix matches is never put to the engine and, once finished, was forwarded |
| `Scenarios.UnlistedRun` | gateway/src/main/java/com/aisecfirewall/gateway/filter/ZeroTrustFilter.java:142-147 | With the default list and a positive T every admitted request to such a path has a run in which it is forwarded unscored |
| `ZeroTrustFilter.Filter.Handle` | gateway/src/main/java/com/aisecfirewall/gateway/filter/ZeroTrustFilter.java:74-94 | Handling one request without interference is an execution of the loop by that request's own actions: Redis, topic and exchange end where those actions leave them, with the request done |
| `ZeroTrustFilter.Filter.ContinuePipeline` | gateway/src/main/java/com/aisecfirewall/gateway/filter/ZeroTrustFilter.java:125-158 | The same for the part after the blocklist check: three counters, one publish of the signal built from them, then forward, or score and block or forward |
| `ZeroTrustFilter.Exchange.Forward` | gateway/src/main/java/com/aisecfirewall/gateway/filter/ZeroTrustFilter.java:190-194 | Counts one forward and sets the risk tag, leaving the rejections as they were |
| `ZeroTrustFilter.ThreatEngineClient.Score` | gateway/src/main/java/com/aisecfirewall/gateway/client/ThreatEngineClient.java:54-66 | Any decision of the engine if it comes in time and without an error, otherwise UNSCORED |
| `ZeroTrustFilter.KafkaRequestPublisher.PublishAsync` | gateway/src/main/java/com/aisecfirewall/gateway/service/KafkaRequestPublisher.java:35-56 | Appends the request's event, or nothing when it is lost |
| `StreamScorer.ThreatConsumer.ProcessMessage` | threat-engine/app/kafka_consumer.py:50-79 | Processing one message is an execution of the loop's consumer actions that moves on by one message |
| `StreamScorer.ThreatConsumer.ConsumeLoop` | threat-engine/app/kafka_consumer.py:49-79 | The loop, not cancelled, leaves exactly one outcome for each message of the topic, audited or skipped, and appends the audited ones to the audit in order, whatever the servers do |
| `Executions.ExecExtendsRun` | gateway/src/main/java/com/aisecfirewall/gateway/filter/ZeroTrustFilter.java:74-158 | What these methods execute extends any run to a run, so the theorems about runs cover them |
| `ScoringPaths.ScoreEndpoint` | threat-engine/app/main.py:64-70 | A result exactly for a well-formed signal and a loaded model, with the engine's decision and the three numbers of that vector, each under its name, to four decimals |
| `ScoringPaths.ConsumerDecision` | threat-engine/app/kafka_consumer.py:51-54 | The engine's decision on the signal, None for a malformed one; BLOCK only when both models' bounds hold |
| `ScoringPaths.BothPaths` | threat-engine/app/kafka_consumer.py:51-54 | Both paths accept the same signals and decide them alike |
| `GatewaySignal.SignalCarriesItsRanges` | gateway/src/main/java/com/aisecfirewall/gateway/filter/ZeroTrustFilter.java:180-186 | Gateway signals carry one range per numeric field: the configured one of that path and field, otherwise ±1e9, so the engine's default is never used; the anomaly is zero if and only if each value is in that range |
| `GatewaySignal.FieldAgainstItsRange` | gateway/src/main/java/com/aisecfirewall/gateway/filter/ZeroTrustFilter.java:180-186 | A field of a gateway signal contributes its distance from the range configured for it in widths of that range, at most ten |
| `GatewaySignal.NumericFieldsExactly` | gateway/src/main/java/com/aisecfirewall/gateway/filter/ZeroTrustFilter.java:206-219 | Every number of the body is in the signal as often as in the body, and nothing else |
| `GatewaySignal.UnlistedFieldsAreSilent` | gateway/src/main/java/com/aisecfirewall/gateway/config/SecurityProperties.java:47-49 | A field nobody configured contributes zero if and only if it lies within ±1e9 |
| `GatewaySignal.SignalWellFormed` | threat-engine/app/features.py:34-59 | The engine accepts a gateway signal if and only if the streak survives its narrowing to 32 bits non-negative and the token's age is not negative |
| `GatewaySignal.ToInt32Exactly` | gateway/src/main/java/com/aisecfirewall/gateway/filter/ZeroTrustFilter.java:166 | The narrowed streak is the one number in the 32-bit range that differs from the count by a multiple of 2^32 |
| `GatewaySignal.SameWindowCounter` | gateway/src/main/java/com/aisecfirewall/gateway/service/RedisStateService.java:44-46 | Where the ips contain no colon-slash, two window calls count together if and only if they share the ip and the path, and with separate keys the window |
| `GatewaySignal.SameStreak` | gateway/src/main/java/com/aisecfirewall/gateway/filter/ZeroTrustFilter.java:131-132 | Two streak calls count together if and only if they share the token's subject, or the ip when there is none or the path is public |
| `Features.NumericFieldAnomaly` | threat-engine/app/features.py:70-90 | The loop returns the clipped worst deviation, in [0, 10], zero if and only if every value is in range |
| `Features.SingleFieldAnomaly` | threat-engine/app/features.py:81-90 | One field gives its distance from its range, [0, 1] when it has none, divided by the range's width or by 0.000001 for a narrower one, and 10 from ten widths on |
| `Features.AnomalyIsLargest` | threat-engine/app/features.py:79-90 | Several fields give the largest of what each gives alone |
| `Features.AnomalyIsClippedMaximum` | threat-engine/app/features.py:79-90 | The anomaly bounds every clipped deviation and is one of them, or zero |
| `Features.AnomalyOrderFree` | threat-engine/app/features.py:80 | The order of the fields does not matter |
| `Features.AnomalyMonotoneInFields` | threat-engine/app/features.py:80-90 | More fields never lower the anomaly |
| `Features.AnomalyMonotoneInDistance` | threat-engine/app/features.py:83-89 | Moving a value further out of its range never lowers the anomaly |
| `Features.FeatureVector` | threat-engine/app/features.py:93-111 | Twelve features, none negative for an accepted signal: nine fields as they are at their places, the parameter deviation as a distance, and the exact zero conditions of entropy and anomaly |
| `Features.AcceptedExactly` | threat-engine/app/features.py:44-52 | A signal is accepted if and only if its nine plain features are not negative and the two flags and the error rate are at most one |
| `Entropy.CountsSumToLength` | threat-engine/app/features.py:65-66 | The symbol counts sum to the length |
| `Entropy.EntropyBounds` | threat-engine/app/features.py:62-67 | 0 <= H <= log2(distinct symbols) <= log2(length) for non-empty strings |
| `Entropy.EntropyZero` | threat-engine/app/features.py:62-67 | H is zero if and only if there is at most one distinct symbol |
| `Entropy.EntropyUniform` | threat-engine/app/features.py:62-67 | H is log2 of the number of symbols when all occur equally often |
| `Entropy.EntropyPermutation` | threat-engine/app/features.py:62-67 | H does not change when the characters are reordered |
| `Ensemble.EnsembleThreatModel.Load` | threat-engine/app/model.py:53-58 | After loading, the model holds the given artifacts |
| `Ensemble.EnsembleThreatModel.ScoreVector` | threat-engine/app/model.py:67-90 | The normalised isolation, the probability and their 7-to-13 mean, each to four decimals and in [0, 1]; BLOCK if and only if 7·iso + 13·p >= 17 and not ALLOW if and only if 7·iso + 13·p >= 12, never above the verdict of the rounded score; an error when nothing is loaded |
| `Ensemble.CombineBounds` | threat-engine/app/model.py:75 | The final score lies in [0, 1] for any raw isolation score |
| `Ensemble.CombineMonotone` | threat-engine/app/model.py:60-82 | A lower raw isolation score and a higher probability never lower the score or the verdict |
| `Ensemble.NormalizedExactly` | threat-engine/app/model.py:60-65 | The normalised isolation is 0 from the training maximum up, 1 from one width below it down, and linear in between, the width being at least 0.000001 |
| `Ensemble.BlockNeedsBoth` | threat-engine/app/model.py:41-43 | BLOCK forces probability >= 10/13 and raw isolation <= max - (4/7)·span |
| `Ensemble.BlockBoundsExact` | threat-engine/app/model.py:41-43 | Each bound is the exact condition for BLOCK when the other model is at its extreme |
| `Ensemble.ChallengeBoundsExact` | threat-engine/app/model.py:41-44 | Not ALLOW takes exactly p >= 5/13 at full isolation and p >= 12/13 at none; isolation alone never suffices and full probability alone always does |
| `Ensemble.RoundedVerdict` | threat-engine/app/model.py:77-89 | The verdict of the four-decimal score is never milder, and differs if and only if the score is within 0.00005 below 0.85 or 0.60 |
| `Ensemble.RoundAtLeast` | threat-engine/app/model.py:84-89 | A score in ten-thousandths rounds to n or more if and only if it is above n - 1/2, or equal to it with n even |
| `AuditIndexer.Run` | audit-indexer/indexer.py:63-74 | Every event taken is in exactly one attempted batch, in order; batches hold 1..max(B,1) events, and no event waits longer than (max(B,1)-1) intervals for its attempt, exit included |
| `AuditIndexer.Flush` | audit-indexer/indexer.py:27-40 | An empty buffer is not sent; otherwise it is attempted once and cleared whatever the bulk call does |
| `AuditIndexer.LoopKeeps` | audit-indexer/indexer.py:65-72 | At every loop head, what was taken is the attempted batches followed by the buffer, and the buffer is shorter than a batch |
| `AuditIndexer.AttemptedExactly` | audit-indexer/indexer.py:65-72 | Each attempt of the loop belongs to one input, in order and at its time: a message whose event completed a full batch, or a timeout with whatever was buffered |
| `AuditIndexer.DrainKeeps` | audit-indexer/indexer.py:73-74 | The drain on exit empties the buffer and leaves every event in an attempted batch |
| `AuditIndexer.WorstWaitReached` | audit-indexer/indexer.py:67-70 | The bound is reached: messages that each arrive just before the timeout keep the first one waiting (B-1) intervals |

## Left out

- SharedKeyCounting: stated for requests whose two window calls fall at one instant; for any delay between them
  `SixtySecondWindowExactly` says when a window stops being the ten-second one.
- FixedWindowAgainstSlidingLog: stated for atomic calls on a key of its own, where the count means something; the
  interleaved shared key is covered by `BoundedEscape`.
- BlockedWritesBounded, BlockedPeriodBounded: exclude restarts at an earlier position inside the period, which can bring
  processed events back; persistence, provenance and expiry order are proved with them.
- AuditInOrder, OutcomeExactly, AuditedExactly: for runs without a restart at an earlier position, which sends an event
  through the consumer again; `Conservation`, `AuditedWhenReliable`, `CaughtUpExactly`, `UndecidedBypass`,
  `DuplicatesAgree` and `WriteBeforeAudit` hold with them.
- A raw event stored twice: the shipped producer settings (acks 1, three retries) allow it; a publish appends at most once
  here.
- ZeroTrustFilter.Exchange.Forward: does not carry the risk-score header, because an answer is the verdict alone.
- ZeroTrustFilter.KafkaRequestPublisher.PublishAsync: does not carry method, endpoint and timestamp, which no later step
  decides by; a lost publish is a flag of the environment.
- EntropyBounds: the logarithm is any function with the three stated laws of log2; no floating-point rounding.
- Token parsing and signatures: a request carries the claims its token validates to, or none.
- The two trained models: arbitrary functions of the feature vector, one real, one in [0, 1]; no statistical claim.
- Circuit breaker and timeout internals: the client's answer is the engine's or UNSCORED, nondeterministically.
- Kafka partitions: one partition, as events of one ip share one; several partitions are several copies of it.
- An audit event that the broker stores although the producer reports a failure: counted as not sent.
- Redis eviction, restart and 64-bit counter overflow.
- Configuration setters and malformed ranges: configuration is one constant value with two bounds per range.
- JSON text: a parser is a parameter that yields a body's top-level fields or nothing.
- Client address, User-Agent and off-hours tests: facts of the request.
- Floating-point rounding in features and weights; the final rounding to four decimals is modelled, ties to even.
- Response bodies, headers other than the risk level, logging, index names and connection retries.
- Reactive scheduling inside one gateway: it is one of the interleavings allowed.
- Mock services, scripts, deployment and training: no logic of the loop.
