/**
 Feature extraction of the threat engine: the signal with its field constraints, the range anomaly of numeric
 body fields, and the feature vector. Dictionaries whose iteration order is visible are sequences of pairs.
 */
module Features {
  import Entropy

  datatype Range = Range(lo: real, hi: real)

  datatype Signal = Signal(
    reqRate10s: real, reqRate60s: real, distinctEndpoints60s: int, failedAuthStreak: int,
    sessionAgeSeconds: real, geoVelocityKmph: real, knownBadUaFlag: int, responseErrorRate5m: real,
    offHoursFlag: int, rawBody: string, paramCount: int, baselineParamCount: int,
    numericFields: seq<(string, real)>, baselineNumericRanges: map<string, Range>)

  // The constraints the engine checks when it parses a signal; a violation is an exception.
  predicate WellFormed(sig: Signal) {
    && sig.reqRate10s >= 0.0 && sig.reqRate60s >= 0.0
    && sig.distinctEndpoints60s >= 0 && sig.failedAuthStreak >= 0
    && sig.sessionAgeSeconds >= 0.0 && sig.geoVelocityKmph >= 0.0
    && 0 <= sig.knownBadUaFlag <= 1 && 0.0 <= sig.responseErrorRate5m <= 1.0 && 0 <= sig.offHoursFlag <= 1
  }

  const MIN_SPAN := 0.000001
  const CLIP := 10.0
  const DEFAULT_RANGE := Range(0.0, 1.0)

  function Span(r: Range): (s: real)
    ensures s >= MIN_SPAN
  {
    if r.hi - r.lo > MIN_SPAN then r.hi - r.lo else MIN_SPAN
  }

  function RangeFor(ranges: map<string, Range>, field: string): Range {
    if field in ranges then ranges[field] else DEFAULT_RANGE
  }

  function Deviation(value: real, r: Range): real {
    if value < r.lo then (r.lo - value) / Span(r)
    else if value > r.hi then (value - r.hi) / Span(r)
    else 0.0
  }

  predicate InRange(value: real, r: Range) {
    r.lo <= value <= r.hi
  }

  function FieldDeviation(field: (string, real), ranges: map<string, Range>): real {
    Deviation(field.1, RangeFor(ranges, field.0))
  }

  function Larger(a: real, b: real): real {
    if a < b then b else a
  }

  function Worst(fields: seq<(string, real)>, ranges: map<string, Range>): real {
    if fields == [] then 0.0
    else Larger(Worst(fields[..|fields| - 1], ranges), FieldDeviation(fields[|fields| - 1], ranges))
  }

  function Clip(x: real): real {
    if x < CLIP then x else CLIP
  }

  function Anomaly(fields: seq<(string, real)>, ranges: map<string, Range>): real {
    Clip(Worst(fields, ranges))
  }

  method NumericFieldAnomaly(sig: Signal) returns (anomaly: real)
    ensures anomaly == Anomaly(sig.numericFields, sig.baselineNumericRanges)
    ensures 0.0 <= anomaly <= CLIP
    ensures anomaly == 0.0 <==>
              forall f :: f in sig.numericFields ==> InRange(f.1, RangeFor(sig.baselineNumericRanges, f.0))
  {
    var fields, ranges := sig.numericFields, sig.baselineNumericRanges;
    AnomalyIsClippedMaximum(fields, ranges);
    AnomalyZero(fields, ranges);
    if fields == [] {
      return 0.0;
    }
    var worst := 0.0;
    for i := 0 to |fields|
      invariant worst == Worst(fields[..i], ranges)
    {
      assert fields[..i + 1][..i] == fields[..i];
      var r := RangeFor(ranges, fields[i].0);
      var value, span, dev := fields[i].1, Span(r), 0.0;
      if value < r.lo {
        dev := (r.lo - value) / span;
      } else if value > r.hi {
        dev := (value - r.hi) / span;
      }
      worst := Larger(worst, dev);
    }
    assert fields[..|fields|] == fields;
    anomaly := Clip(worst);
  }

  ghost predicate Distance(d: real, x: int, y: int) {
    d >= 0.0 && (d == (x - y) as real || d == (y - x) as real)
  }

  function ExtractFeatures(lg: real -> real, sig: Signal): seq<real> {
    var paramDev := if sig.paramCount >= sig.baselineParamCount then sig.paramCount - sig.baselineParamCount
                    else sig.baselineParamCount - sig.paramCount;
    [sig.reqRate10s, sig.reqRate60s, sig.distinctEndpoints60s as real, sig.failedAuthStreak as real,
     Entropy.Entropy(lg, sig.rawBody), paramDev as real, Anomaly(sig.numericFields, sig.baselineNumericRanges),
     sig.sessionAgeSeconds, sig.geoVelocityKmph, sig.knownBadUaFlag as real, sig.responseErrorRate5m,
     sig.offHoursFlag as real]
  }

  // ---------- What the anomaly means ----------

  lemma DeviationSign(value: real, r: Range)
    ensures Deviation(value, r) >= 0.0
    ensures Deviation(value, r) == 0.0 <==> InRange(value, r)
  {
    if value < r.lo {
      QuotientPositive(r.lo - value, Span(r));
    } else if value > r.hi {
      QuotientPositive(value - r.hi, Span(r));
    }
  }

  lemma QuotientPositive(x: real, y: real)
    requires x > 0.0 && y > 0.0
    ensures x / y > 0.0
  {
  }

  lemma QuotientMonotone(x: real, x': real, y: real)
    requires x <= x' && y > 0.0
    ensures x / y <= x' / y
  {
  }

  // From inside the range to anywhere, or further out on the side where the value already is.
  predicate Outward(value: real, value': real, r: Range) {
    InRange(value, r) || value' <= value < r.lo || (r.lo <= value && r.hi < value <= value')
  }

  // Moving a value further out on its side of the range never lowers its deviation.
  lemma DeviationMonotone(value: real, value': real, r: Range)
    requires Outward(value, value', r)
    ensures Deviation(value, r) <= Deviation(value', r)
  {
    DeviationSign(value', r);
    if value < r.lo {
      QuotientMonotone(r.lo - value, r.lo - value', Span(r));
    } else if value > r.hi {
      QuotientMonotone(value - r.hi, value' - r.hi, Span(r));
    }
  }

  // The result is in [0, 10], at least every clipped deviation, and equal to one of them unless it is zero.
  lemma {:induction false} AnomalyIsClippedMaximum(fields: seq<(string, real)>, ranges: map<string, Range>)
    ensures 0.0 <= Anomaly(fields, ranges) <= CLIP
    ensures forall f :: f in fields ==> Clip(FieldDeviation(f, ranges)) <= Anomaly(fields, ranges)
    ensures Anomaly(fields, ranges) == 0.0
         || exists f :: f in fields && Anomaly(fields, ranges) == Clip(FieldDeviation(f, ranges))
  {
    if fields != [] {
      var rest, last := fields[..|fields| - 1], fields[|fields| - 1];
      AnomalyIsClippedMaximum(rest, ranges);
      DeviationSign(last.1, RangeFor(ranges, last.0));
      assert last in fields && forall f :: f in fields <==> f in rest || f == last;
    }
  }

  // More fields, or the same fields further out, never lower the anomaly.
  lemma AnomalyMonotone(a: seq<(string, real)>, b: seq<(string, real)>, ranges: map<string, Range>)
    requires forall f :: f in a ==> exists g :: g in b && FieldDeviation(f, ranges) <= FieldDeviation(g, ranges)
    ensures Anomaly(a, ranges) <= Anomaly(b, ranges)
  {
    AnomalyIsClippedMaximum(a, ranges);
    AnomalyIsClippedMaximum(b, ranges);
    if Anomaly(a, ranges) != 0.0 {
      var f :| f in a && Anomaly(a, ranges) == Clip(FieldDeviation(f, ranges));
      var g :| g in b && FieldDeviation(f, ranges) <= FieldDeviation(g, ranges);
    }
  }

  // Adding fields never lowers it.
  lemma AnomalyMonotoneInFields(a: seq<(string, real)>, b: seq<(string, real)>, ranges: map<string, Range>)
    requires forall f :: f in a ==> f in b
    ensures Anomaly(a, ranges) <= Anomaly(b, ranges)
  {
    forall f | f in a
      ensures exists g :: g in b && FieldDeviation(f, ranges) <= FieldDeviation(g, ranges)
    {
      assert f in b;
    }
    AnomalyMonotone(a, b, ranges);
  }

  // Moving one field further from its range never lowers it.
  lemma AnomalyMonotoneInDistance(a: seq<(string, real)>, i: nat, value': real, ranges: map<string, Range>)
    requires i < |a|
    requires Outward(a[i].1, value', RangeFor(ranges, a[i].0))
    ensures Anomaly(a, ranges) <= Anomaly(a[i := (a[i].0, value')], ranges)
  {
    var b := a[i := (a[i].0, value')];
    DeviationMonotone(a[i].1, value', RangeFor(ranges, a[i].0));
    forall f | f in a
      ensures exists g :: g in b && FieldDeviation(f, ranges) <= FieldDeviation(g, ranges)
    {
      var j :| 0 <= j < |a| && a[j] == f;
      assert b[j] in b && FieldDeviation(a[j], ranges) <= FieldDeviation(b[j], ranges);
    }
    AnomalyMonotone(a, b, ranges);
  }

  // The order of the fields does not matter.
  lemma AnomalyOrderFree(a: seq<(string, real)>, b: seq<(string, real)>, ranges: map<string, Range>)
    requires multiset(a) == multiset(b)
    ensures Anomaly(a, ranges) == Anomaly(b, ranges)
  {
    assert forall f :: f in a <==> f in multiset(a);
    assert forall f :: f in b <==> f in multiset(b);
    AnomalyMonotoneInFields(a, b, ranges);
    AnomalyMonotoneInFields(b, a, ranges);
  }

  // Zero exactly when every value is within its range.
  lemma AnomalyZero(fields: seq<(string, real)>, ranges: map<string, Range>)
    ensures Anomaly(fields, ranges) == 0.0 <==> forall f :: f in fields ==> InRange(f.1, RangeFor(ranges, f.0))
  {
    AnomalyIsClippedMaximum(fields, ranges);
    forall f | f in fields
      ensures FieldDeviation(f, ranges) >= 0.0
      ensures FieldDeviation(f, ranges) == 0.0 <==> InRange(f.1, RangeFor(ranges, f.0))
    {
      DeviationSign(f.1, RangeFor(ranges, f.0));
    }
  }

  // ---------- How large the anomaly is ----------

  // `anomaly` is the distance of the value from [lo, hi] in widths of that range, a width being at least a millionth
  // and the result at most ten.
  ghost predicate MeasuresField(anomaly: real, value: real, lo: real, hi: real) {
    var width := if hi - lo > 0.000001 then hi - lo else 0.000001;
    && (lo <= value <= hi ==> anomaly == 0.0)
    && (value < lo ==> if lo - value <= 10.0 * width then anomaly * width == lo - value else anomaly == 10.0)
    && (value > hi && value >= lo ==>
          if value - hi <= 10.0 * width then anomaly * width == value - hi else anomaly == 10.0)
  }

  lemma ClippedQuotient(x: real, y: real)
    requires y > 0.0
    ensures if x <= 10.0 * y then Clip(x / y) * y == x else Clip(x / y) == 10.0
  {
    var q := x / y;
    assert q * y == x;
    if x <= 10.0 * y {
      assert q > 10.0 ==> (q - 10.0) * y > 0.0;
    } else {
      assert q < 10.0 ==> (10.0 - q) * y > 0.0;
    }
  }

  // One field: its distance from its range in widths of the range. A field without a range is measured against [0, 1].
  lemma SingleFieldAnomaly(name: string, value: real, ranges: map<string, Range>)
    ensures var lo := if name in ranges then ranges[name].lo else 0.0;
            var hi := if name in ranges then ranges[name].hi else 1.0;
            MeasuresField(Anomaly([(name, value)], ranges), value, lo, hi)
  {
    SingleField((name, value), ranges);
    DeviationMeasures(value, RangeFor(ranges, name));
  }

  lemma DeviationMeasures(value: real, r: Range)
    ensures MeasuresField(Clip(Deviation(value, r)), value, r.lo, r.hi)
  {
    if value < r.lo {
      ClippedQuotient(r.lo - value, Span(r));
    } else if value > r.hi {
      ClippedQuotient(value - r.hi, Span(r));
    }
  }

  lemma SingleField(f: (string, real), ranges: map<string, Range>)
    ensures Anomaly([f], ranges) == Clip(FieldDeviation(f, ranges))
  {
    DeviationSign(f.1, RangeFor(ranges, f.0));
    assert [f][..0] == [];
    assert Worst([f], ranges) == Larger(Worst([f][..0], ranges), FieldDeviation(f, ranges));
  }

  // Several fields: the largest of what each gives alone, and zero without fields.
  lemma AnomalyIsLargest(fields: seq<(string, real)>, ranges: map<string, Range>)
    ensures forall f :: f in fields ==> Anomaly([f], ranges) <= Anomaly(fields, ranges)
    ensures if fields == [] then Anomaly(fields, ranges) == 0.0
            else exists f :: f in fields && Anomaly(fields, ranges) == Anomaly([f], ranges)
  {
    AnomalyIsClippedMaximum(fields, ranges);
    forall f | f in fields
      ensures Anomaly([f], ranges) == Clip(FieldDeviation(f, ranges)) >= 0.0
    {
      SingleField(f, ranges);
      AnomalyIsClippedMaximum([f], ranges);
    }
    if fields != [] && Anomaly(fields, ranges) == 0.0 {
      assert fields[0] in fields;
    }
  }

  // ---------- The vector ----------

  // A signal is accepted if and only if the features it gives directly are not negative and the flags and the error
  // rate at the positions 9 to 11 are at most one.
  lemma AcceptedExactly(lg: real -> real, sig: Signal)
    ensures var v := ExtractFeatures(lg, sig);
            && |v| == 12
            && (WellFormed(sig) <==>
                  && (forall i :: i in {0, 1, 2, 3, 7, 8, 9, 10, 11} ==> v[i] >= 0.0)
                  && v[9] <= 1.0 && v[10] <= 1.0 && v[11] <= 1.0)
  {
    var v := ExtractFeatures(lg, sig);
    assert (forall i :: i in {0, 1, 2, 3, 7, 8, 9, 10, 11} ==> v[i] >= 0.0) <==>
        && v[0] >= 0.0 && v[1] >= 0.0 && v[2] >= 0.0 && v[3] >= 0.0
        && v[7] >= 0.0 && v[8] >= 0.0 && v[9] >= 0.0 && v[10] >= 0.0 && v[11] >= 0.0;
  }

  // The vector of an accepted signal: nine fields as they are, at their places, and three computed ones. None is
  // negative; the entropy is zero for a body of at most one distinct character, the parameter deviation is the distance
  // of the count from the baseline, the anomaly is zero for values all in range and at most ten.
  lemma FeatureVector(lg: real -> real, slope: real, sig: Signal)
    requires Entropy.Log2Laws(lg, slope) && WellFormed(sig)
    ensures var v := ExtractFeatures(lg, sig);
            && |v| == 12 && (forall i :: 0 <= i < 12 ==> v[i] >= 0.0)
            && v[0] == sig.reqRate10s && v[1] == sig.reqRate60s && v[2] == sig.distinctEndpoints60s as real
            && v[3] == sig.failedAuthStreak as real && v[7] == sig.sessionAgeSeconds && v[8] == sig.geoVelocityKmph
            && v[9] == sig.knownBadUaFlag as real && v[10] == sig.responseErrorRate5m
            && v[11] == sig.offHoursFlag as real
            && (v[4] == 0.0 <==> |Entropy.Symbols(sig.rawBody)| <= 1)
            && Distance(v[5], sig.paramCount, sig.baselineParamCount)
            && (v[6] == 0.0 <==>
                  forall f :: f in sig.numericFields ==> InRange(f.1, RangeFor(sig.baselineNumericRanges, f.0)))
            && v[6] <= 10.0
  {
    Entropy.EntropyZero(lg, slope, sig.rawBody);
    if sig.rawBody != [] {
      Entropy.EntropyBounds(lg, slope, sig.rawBody);
    }
    AnomalyZero(sig.numericFields, sig.baselineNumericRanges);
    AnomalyIsClippedMaximum(sig.numericFields, sig.baselineNumericRanges);
  }
}
