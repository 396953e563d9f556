/**
 The ensemble of the threat engine, over exact reals. The two trained models are arbitrary functions of the
 feature vector: the isolation score is any real, the attack probability lies in [0, 1].
 */
module Ensemble {
  import opened Wrappers
  import opened Features

  datatype Verdict = Allow | Challenge | Block

  function Rank(v: Verdict): nat {
    match v case Allow => 0 case Challenge => 1 case Block => 2
  }

  type Probability = p: real | 0.0 <= p <= 1.0

  // The trained artifacts: both models and the isolation-score range seen in training.
  datatype Artifacts = Artifacts(forest: seq<real> -> real, xgb: seq<real> -> Probability, isoMin: real, isoMax: real)

  datatype ScoreResult = ScoreResult(isolation: real, xgboost: real, final: real, decision: Verdict)

  const ISO_WEIGHT := 0.35
  const XGB_WEIGHT := 0.65
  const BLOCK_THRESHOLD := 0.85
  const CHALLENGE_THRESHOLD := 0.60
  const BLOCK_REASON := "High combined anomaly + attack-pattern probability"

  function IsoSpan(a: Artifacts): real {
    Span(Range(a.isoMin, a.isoMax))
  }

  // Lower raw scores are more anomalous: flip, scale, clip to [0, 1].
  function NormalizeIso(a: Artifacts, raw: real): real {
    var anomaly := (a.isoMax - raw) / IsoSpan(a);
    if anomaly < 0.0 then 0.0 else if anomaly > 1.0 then 1.0 else anomaly
  }

  function Combine(a: Artifacts, raw: real, p: real): real {
    ISO_WEIGHT * NormalizeIso(a, raw) + XGB_WEIGHT * p
  }

  function VerdictOf(final: real): Verdict {
    if final >= BLOCK_THRESHOLD then Block else if final >= CHALLENGE_THRESHOLD then Challenge else Allow
  }

  // Rounding to the nearest integer, ties to even.
  function RoundHalfEven(y: real): int {
    var f := y.Floor;
    var frac := y - f as real;
    if frac < 0.5 || (frac == 0.5 && f % 2 == 0) then f else f + 1
  }

  function Round4(x: real): real {
    RoundHalfEven(x * 10000.0) as real / 10000.0
  }

  function Score(a: Artifacts, vector: seq<real>): ScoreResult {
    var iso, p := NormalizeIso(a, a.forest(vector)), a.xgb(vector);
    var final := Combine(a, a.forest(vector), p);
    ScoreResult(Round4(iso), Round4(p), Round4(final), VerdictOf(final))
  }

  // Rounded to the fourth decimal, off by half a unit of it at most.
  ghost predicate NearTo4(rounded: real, x: real) {
    -0.00005 <= rounded - x <= 0.00005 && (rounded * 10000.0).Floor as real == rounded * 10000.0
  }

  // The three numbers are the isolation, the probability and the weighted score of this vector, to four decimals; the
  // verdict is that of the score itself, at 17/20 and at 12/20.
  ghost predicate Reports(a: Artifacts, vector: seq<real>, result: ScoreResult) {
    var iso, p := NormalizeIso(a, a.forest(vector)), a.xgb(vector);
    && NearTo4(result.isolation, iso) && NearTo4(result.xgboost, p)
    && NearTo4(result.final, (7.0 * iso + 13.0 * p) / 20.0)
    && (result.decision == Block <==> 7.0 * iso + 13.0 * p >= 17.0)
    && (result.decision != Allow <==> 7.0 * iso + 13.0 * p >= 12.0)
  }

  /** The model object: empty until its artifacts are loaded. */
  class EnsembleThreatModel {
    var forest: Option<seq<real> -> real>
    var xgb: Option<seq<real> -> Probability>
    var isoScoreMin: real
    var isoScoreMax: real

    constructor ()
      ensures forest == None && xgb == None && isoScoreMin == -0.5 && isoScoreMax == 0.5
    {
      forest, xgb, isoScoreMin, isoScoreMax := None, None, -0.5, 0.5;
    }

    predicate Loaded()
      reads this
    {
      forest.Some? && xgb.Some?
    }

    function Contents(): Artifacts
      reads this
      requires Loaded()
    {
      Artifacts(forest.value, xgb.value, isoScoreMin, isoScoreMax)
    }

    method Load(a: Artifacts)
      modifies this
      ensures Loaded() && Contents() == a
    {
      forest, xgb := Some(a.forest), Some(a.xgb);
      isoScoreMin, isoScoreMax := a.isoMin, a.isoMax;
    }

    // Scoring with nothing loaded is an error (the endpoint answers 503).
    method ScoreVector(vector: seq<real>) returns (result: Option<ScoreResult>)
      ensures result == if Loaded() then Some(Score(Contents(), vector)) else None
      ensures result.Some? ==> Reports(Contents(), vector, result.value)
      ensures result.Some? ==>
                && 0.0 <= result.value.isolation <= 1.0 && 0.0 <= result.value.xgboost <= 1.0
                && 0.0 <= result.value.final <= 1.0
                && Rank(result.value.decision) <= Rank(VerdictOf(result.value.final))
    {
      if forest.None? || xgb.None? {
        return None;
      }
      var raw := forest.value(vector);
      var iso := NormalizeIso(Contents(), raw);
      var p := xgb.value(vector);
      var final := ISO_WEIGHT * iso + XGB_WEIGHT * p;
      var decision := Allow;
      if final >= BLOCK_THRESHOLD {
        decision := Block;
      } else if final >= CHALLENGE_THRESHOLD {
        decision := Challenge;
      }
      result := Some(ScoreResult(Round4(iso), Round4(p), Round4(final), decision));
      ScoreReports(Contents(), vector);
      CombineBounds(Contents(), raw, p);
      Round4Unit(iso);
      Round4Unit(p);
      Round4Unit(final);
      RoundedVerdict(final);
    }
  }

  // ---------- Bounds and monotonicity ----------

  lemma CombineBounds(a: Artifacts, raw: real, p: Probability)
    ensures 0.0 <= Combine(a, raw, p) <= 1.0
  {
  }

  lemma NormalizeAntitone(a: Artifacts, raw: real, raw': real)
    requires raw <= raw'
    ensures NormalizeIso(a, raw') <= NormalizeIso(a, raw)
  {
    QuotientMonotone(a.isoMax - raw', a.isoMax - raw, IsoSpan(a));
  }

  // More anomalous by either model, never a lower score and never a milder verdict.
  lemma CombineMonotone(a: Artifacts, raw: real, raw': real, p: real, p': real)
    requires raw <= raw' && p' <= p
    ensures Combine(a, raw', p') <= Combine(a, raw, p)
    ensures Rank(VerdictOf(Combine(a, raw', p'))) <= Rank(VerdictOf(Combine(a, raw, p)))
  {
    NormalizeAntitone(a, raw, raw');
  }

  lemma NormalizeThreshold(a: Artifacts, raw: real, level: real)
    requires 0.0 < level <= 1.0
    ensures NormalizeIso(a, raw) >= level <==> raw <= a.isoMax - level * IsoSpan(a)
  {
    var s, x := IsoSpan(a), a.isoMax - raw;
    var q := x / s;
    assert q * s == x;
    if q >= level {
      assert (q - level) * s >= 0.0;
    } else {
      assert (level - q) * s > 0.0;
    }
  }

  // Neither model blocks alone: a BLOCK needs both this probable and this anomalous.
  lemma BlockNeedsBoth(a: Artifacts, raw: real, p: Probability)
    requires VerdictOf(Combine(a, raw, p)) == Block
    ensures p >= 10.0 / 13.0
    ensures raw <= a.isoMax - (4.0 / 7.0) * IsoSpan(a)
  {
    NormalizeThreshold(a, raw, 4.0 / 7.0);
  }

  // The two bounds are exact: each is the whole condition when the other model is at its extreme.
  lemma BlockBoundsExact(a: Artifacts, raw: real, p: Probability)
    ensures NormalizeIso(a, raw) == 1.0 ==> (VerdictOf(Combine(a, raw, p)) == Block <==> p >= 10.0 / 13.0)
    ensures p == 1.0 ==>
              (VerdictOf(Combine(a, raw, p)) == Block <==> raw <= a.isoMax - (4.0 / 7.0) * IsoSpan(a))
  {
    NormalizeThreshold(a, raw, 4.0 / 7.0);
  }

  // The verdict of any two model outputs: the weights are 7 to 13, the thresholds 17 and 12 in twentieths.
  lemma VerdictExactly(a: Artifacts, raw: real, p: Probability)
    ensures var weighted := 7.0 * NormalizeIso(a, raw) + 13.0 * p;
            && (VerdictOf(Combine(a, raw, p)) == Block <==> weighted >= 17.0)
            && (VerdictOf(Combine(a, raw, p)) != Allow <==> weighted >= 12.0)
  {
  }

  // The normalised isolation: zero from the training maximum up, one from the minimum down, linear in between.
  lemma NormalizedExactly(a: Artifacts, raw: real)
    ensures var width := if a.isoMax - a.isoMin > 0.000001 then a.isoMax - a.isoMin else 0.000001;
            && (raw >= a.isoMax ==> NormalizeIso(a, raw) == 0.0)
            && (raw <= a.isoMax - width ==> NormalizeIso(a, raw) == 1.0)
            && (a.isoMax - width <= raw <= a.isoMax ==> NormalizeIso(a, raw) * width == a.isoMax - raw)
  {
    var s := IsoSpan(a);
    var q := (a.isoMax - raw) / s;
    assert q * s == a.isoMax - raw;
    NormalizeThreshold(a, raw, 1.0);
    assert q > 1.0 ==> (q - 1.0) * s > 0.0;
    assert q < 0.0 ==> (0.0 - q) * s > 0.0;
    assert q > 0.0 ==> q * s > 0.0;
  }

  // What it takes not to be allowed: 5/13 at the highest isolation, 12/13 at the lowest; isolation alone never does it
  // and full probability alone always does.
  lemma ChallengeBoundsExact(a: Artifacts, raw: real, p: Probability)
    ensures NormalizeIso(a, raw) == 1.0 ==> (VerdictOf(Combine(a, raw, p)) != Allow <==> p >= 5.0 / 13.0)
    ensures NormalizeIso(a, raw) == 0.0 ==> (VerdictOf(Combine(a, raw, p)) != Allow <==> p >= 12.0 / 13.0)
    ensures p == 0.0 ==> VerdictOf(Combine(a, raw, p)) == Allow
    ensures p == 1.0 ==> VerdictOf(Combine(a, raw, p)) != Allow
  {
  }

  // ---------- Rounding ----------

  lemma Round4Near(x: real)
    ensures NearTo4(Round4(x), x)
  {
    var y, n := x * 10000.0, RoundHalfEven(x * 10000.0);
    RoundAtLeast(y, n);
    RoundAtLeast(y, n + 1);
    assert Round4(x) * 10000.0 == n as real;
  }

  lemma ScoreReports(a: Artifacts, vector: seq<real>)
    ensures Reports(a, vector, Score(a, vector))
  {
    var raw, p := a.forest(vector), a.xgb(vector);
    Round4Near(NormalizeIso(a, raw));
    Round4Near(p);
    Round4Near(Combine(a, raw, p));
    VerdictExactly(a, raw, p);
  }

  lemma Round4Unit(x: real)
    requires 0.0 <= x <= 1.0
    ensures 0.0 <= Round4(x) <= 1.0
  {
    RoundAtLeast(x * 10000.0, 0);
    RoundAtLeast(x * 10000.0, 10001);
  }

  // A number rounds to n or more exactly when it is n - 1/2 or more, ties going to even n.
  lemma RoundAtLeast(y: real, n: int)
    ensures RoundHalfEven(y) >= n <==> y > n as real - 0.5 || (y == n as real - 0.5 && n % 2 == 0)
  {
    var f := y.Floor;
    assert f as real <= y < (f + 1) as real;
    if f >= n {
      assert f as real >= n as real;
    } else if f < n - 1 {
      assert (f + 1) as real <= (n - 1) as real;
    } else {
      assert f as real == n as real - 1.0;
    }
  }

  ghost predicate JustBelow(x: real, threshold: real) {
    threshold - 0.00005 <= x < threshold
  }

  // The verdict read off the rounded score is never milder, and differs exactly just below a threshold.
  lemma RoundedVerdict(x: real)
    ensures Rank(VerdictOf(x)) <= Rank(VerdictOf(Round4(x)))
    ensures VerdictOf(x) != VerdictOf(Round4(x)) <==>
              JustBelow(x, 0.85) || JustBelow(x, 0.60)
  {
    RoundAtLeast(x * 10000.0, 8500);
    RoundAtLeast(x * 10000.0, 6000);
  }
}
