/**
 Shannon entropy of the request body, over exact reals. The logarithm is any function that satisfies the three
 laws of `Log2Laws`; the bounds are proved from those laws by Gibbs' inequality.
 */
module Entropy {
  // Distinct symbols in the order of their first occurrence, as a counter collects them.
  function Symbols(s: string): seq<char> {
    if s == [] then []
    else
      var u := Symbols(s[..|s| - 1]);
      var c := s[|s| - 1];
      if c in u then u else u + [c]
  }

  function Count(s: string, c: char): nat {
    multiset(s)[c]
  }

  function Share(s: string, c: char): real
    requires s != []
  {
    Count(s, c) as real / |s| as real
  }

  function LogSum(lg: real -> real, s: string, u: seq<char>): real
    requires s != []
  {
    if u == [] then 0.0 else LogSum(lg, s, u[..|u| - 1]) + Term(lg, s, u[|u| - 1])
  }

  function Term(lg: real -> real, s: string, c: char): real
    requires s != []
  {
    Share(s, c) * lg(Share(s, c))
  }

  function Entropy(lg: real -> real, s: string): real {
    if s == [] then 0.0 else -LogSum(lg, s, Symbols(s))
  }

  // Base 2, products become sums, and the tangent at 1 lies above the curve.
  ghost predicate Log2Laws(lg: real -> real, slope: real) {
    && slope > 0.0 && lg(2.0) == 1.0
    && (forall x, y :: x > 0.0 && y > 0.0 ==> ProductLaw(lg, x, y))
    && (forall x :: x > 0.0 ==> TangentLaw(lg, slope, x))
  }

  ghost predicate ProductLaw(lg: real -> real, x: real, y: real) {
    lg(x * y) == lg(x) + lg(y)
  }

  ghost predicate TangentLaw(lg: real -> real, slope: real, x: real) {
    lg(x) <= slope * (x - 1.0)
  }

  // ---------- Symbols and counts ----------

  ghost predicate Distinct(u: seq<char>) {
    forall i, j :: 0 <= i < j < |u| ==> u[i] != u[j]
  }

  lemma {:induction false} SymbolsAreTheCharacters(s: string)
    ensures Distinct(Symbols(s)) && |Symbols(s)| <= |s|
    ensures forall c :: c in Symbols(s) <==> c in s
  {
    if s != [] {
      var r := s[..|s| - 1];
      SymbolsAreTheCharacters(r);
      assert s == r + [s[|s| - 1]];
    }
  }

  function CountSum(s: string, u: seq<char>): nat {
    if u == [] then 0 else CountSum(s, u[..|u| - 1]) + Count(s, u[|u| - 1])
  }

  // One more character adds one to the sum over any duplicate-free list that has it.
  lemma {:induction false} CountSumSnoc(s: string, c: char, u: seq<char>)
    requires Distinct(u)
    ensures CountSum(s + [c], u) == CountSum(s, u) + if c in u then 1 else 0
  {
    if u != [] {
      var r := u[..|u| - 1];
      CountSumSnoc(s, c, r);
      assert u == r + [u[|u| - 1]];
    }
  }

  lemma {:induction false} CountSumCovers(s: string, u: seq<char>)
    requires Distinct(u) && forall c :: c in s ==> c in u
    ensures CountSum(s, u) == |s|
  {
    if s == [] {
      CountSumEmpty(u);
    } else {
      var r := s[..|s| - 1];
      assert s == r + [s[|s| - 1]];
      CountSumCovers(r, u);
      CountSumSnoc(r, s[|s| - 1], u);
    }
  }

  lemma {:induction false} CountSumEmpty(u: seq<char>)
    ensures CountSum("", u) == 0
  {
    if u != [] {
      CountSumEmpty(u[..|u| - 1]);
    }
  }

  // The symbol counts of a string sum to its length.
  lemma CountsSumToLength(s: string)
    ensures CountSum(s, Symbols(s)) == |s|
  {
    SymbolsAreTheCharacters(s);
    CountSumCovers(s, Symbols(s));
  }

  lemma CountPositive(s: string, c: char)
    requires c in s
    ensures 0 < Count(s, c) <= |s|
  {
    assert c in multiset(s);
    assert multiset(s)[c] <= |multiset(s)|;
  }

  // ---------- Laws of the logarithm ----------

  lemma LogOfOne(lg: real -> real, slope: real)
    requires Log2Laws(lg, slope)
    ensures lg(1.0) == 0.0
  {
    assert ProductLaw(lg, 1.0, 1.0);
  }

  lemma LogMonotone(lg: real -> real, slope: real, x: real, y: real)
    requires Log2Laws(lg, slope) && 0.0 < x <= y
    ensures lg(x) <= lg(y)
  {
    QuotientAtMostOne(x, y);
    LogShrinks(lg, slope, x / y, y, x);
  }

  lemma LogShrinks(lg: real -> real, slope: real, q: real, y: real, x: real)
    requires Log2Laws(lg, slope) && 0.0 < q <= 1.0 && 0.0 < y && q * y == x
    ensures lg(x) <= lg(y)
  {
    assert ProductLaw(lg, q, y) && TangentLaw(lg, slope, q);
    Scale(slope, q - 1.0, 0.0);
  }

  lemma QuotientAtMostOne(x: real, y: real)
    requires 0.0 < x <= y
    ensures 0.0 < x / y <= 1.0 && (x / y) * y == x
  {
    var q := x / y;
    assert q * y == x;
    assert q > 1.0 ==> (q - 1.0) * y > 0.0;
  }

  // The contribution -p·lg(p) of a share is not negative, and is zero only for the whole.
  lemma TermSign(lg: real -> real, slope: real, p: real)
    requires Log2Laws(lg, slope) && 0.0 < p <= 1.0
    ensures p * lg(p) <= 0.0
    ensures p < 1.0 ==> p * lg(p) < 0.0
    ensures p == 1.0 ==> p * lg(p) == 0.0
  {
    LogOfOne(lg, slope);
    assert TangentLaw(lg, slope, p);
    if p < 1.0 {
      assert slope * (p - 1.0) < 0.0;
      Negative(p, lg(p));
    }
  }

  lemma Negative(p: real, l: real)
    requires p > 0.0 && l < 0.0
    ensures p * l < 0.0
  {
  }

  lemma Scale(p: real, x: real, y: real)
    requires p >= 0.0 && x <= y
    ensures p * x <= p * y
  {
  }

  lemma LogOfInverse(lg: real -> real, slope: real, q: real, y: real)
    requires Log2Laws(lg, slope) && q > 0.0 && y > 0.0 && q * y == 1.0
    ensures lg(q) == -lg(y)
  {
    LogOfOne(lg, slope);
    assert ProductLaw(lg, q, y);
  }

  // Gibbs' inequality for one symbol: the tangent bound at q = 1/(p·d).
  lemma GibbsTerm(lg: real -> real, slope: real, p: real, d: real)
    requires Log2Laws(lg, slope) && 0.0 < p <= 1.0 && d >= 1.0
    ensures -(p * lg(p)) <= Tangent(p, lg(d), slope, 1.0 / d)
  {
    var pd := p * d;
    assert pd > 0.0;
    GibbsTermAt(lg, slope, p, d, 1.0 / pd);
  }

  lemma GibbsTermAt(lg: real -> real, slope: real, p: real, d: real, q: real)
    requires Log2Laws(lg, slope) && 0.0 < p && d >= 1.0 && q * (p * d) == 1.0 && q > 0.0
    ensures -(p * lg(p)) <= Tangent(p, lg(d), slope, 1.0 / d)
  {
    LogOfInverse(lg, slope, q, p * d);
    assert ProductLaw(lg, p, d) && TangentLaw(lg, slope, q);
    Scale(p, lg(q), slope * (q - 1.0));
    TangentAlgebra(slope, p, d, q);
    Distribute(p, lg(q), lg(p), lg(d));
  }

  lemma Distribute(p: real, x: real, a: real, b: real)
    requires x == -(a + b)
    ensures p * x == -(p * a) - p * b
  {
  }

  lemma TangentAlgebra(slope: real, p: real, d: real, q: real)
    requires p > 0.0 && d >= 1.0 && q * (p * d) == 1.0
    ensures p * (slope * (q - 1.0)) == slope * (1.0 / d - p)
  {
    var r := p * q;
    assert r * d == 1.0;
    assert r == 1.0 / d;
    assert p * (slope * (q - 1.0)) == slope * (p * q - p);
  }

  // ---------- The bounds ----------

  // The sum of the right-hand sides of Gibbs' inequality over a list of symbols.
  function TangentSum(s: string, u: seq<char>, l: real, slope: real, d: real): real
    requires s != [] && d >= 1.0
  {
    if u == [] then 0.0
    else TangentSum(s, u[..|u| - 1], l, slope, d) + Tangent(Share(s, u[|u| - 1]), l, slope, 1.0 / d)
  }

  function Tangent(p: real, l: real, slope: real, ratio: real): real {
    p * l + slope * (ratio - p)
  }

  lemma {:induction false} GibbsPrefix(lg: real -> real, slope: real, s: string, u: seq<char>, d: real)
    requires Log2Laws(lg, slope) && s != [] && d >= 1.0
    requires forall c :: c in u ==> c in s
    ensures -LogSum(lg, s, u) <= TangentSum(s, u, lg(d), slope, d)
  {
    if u != [] {
      var r, c := u[..|u| - 1], u[|u| - 1];
      assert c in u;
      GibbsPrefix(lg, slope, s, r, d);
      GibbsSymbol(lg, slope, s, c, d);
    }
  }

  lemma GibbsSymbol(lg: real -> real, slope: real, s: string, c: char, d: real)
    requires Log2Laws(lg, slope) && c in s && d >= 1.0
    ensures -Term(lg, s, c) <= Tangent(Share(s, c), lg(d), slope, 1.0 / d)
  {
    ShareRange(s, c);
    GibbsTerm(lg, slope, Share(s, c), d);
  }

  // The sum in closed form: the tangent of the total share.
  lemma {:induction false} TangentSumClosed(s: string, u: seq<char>, l: real, slope: real, d: real)
    requires s != [] && d >= 1.0
    ensures TangentSum(s, u, l, slope, d) == Tangent(CountSum(s, u) as real / |s| as real, l, slope, |u| as real / d)
  {
    if u == [] {
      TangentZero(|s| as real, l, slope, d);
    } else {
      var r, c := u[..|u| - 1], u[|u| - 1];
      TangentSumClosed(s, r, l, slope, d);
      Split(CountSum(s, r), Count(s, c), |s| as real);
      Split(|r|, 1, d);
      TangentAdds(CountSum(s, r) as real / |s| as real, Share(s, c), l, slope, |r| as real / d, 1.0 / d);
    }
  }

  lemma TangentAdds(p: real, p': real, l: real, slope: real, a: real, a': real)
    ensures Tangent(p, l, slope, a) + Tangent(p', l, slope, a') == Tangent(p + p', l, slope, a + a')
  {
  }

  lemma TangentZero(n: real, l: real, slope: real, d: real)
    requires n > 0.0 && d >= 1.0
    ensures Tangent(0 as real / n, l, slope, 0 as real / d) == 0.0
  {
    assert 0 as real / n == 0.0 && 0 as real / d == 0.0;
  }

  lemma Split(a: int, b: int, n: real)
    requires n > 0.0
    ensures (a + b) as real / n == a as real / n + b as real / n
  {
  }

  lemma ShareRange(s: string, c: char)
    requires c in s
    ensures 0.0 < Share(s, c) <= 1.0
    ensures Share(s, c) == 1.0 <==> Count(s, c) == |s|
  {
    CountPositive(s, c);
  }

  lemma {:induction false} LogSumSign(lg: real -> real, slope: real, s: string, u: seq<char>)
    requires Log2Laws(lg, slope) && s != [] && forall c :: c in u ==> c in s
    ensures LogSum(lg, s, u) <= 0.0
    ensures LogSum(lg, s, u) == 0.0 <==> forall c :: c in u ==> Count(s, c) == |s|
  {
    if u != [] {
      var r, c := u[..|u| - 1], u[|u| - 1];
      assert c in u && forall x :: x in u <==> x in r || x == c;
      LogSumSign(lg, slope, s, r);
      ShareRange(s, c);
      TermSign(lg, slope, Share(s, c));
    }
  }

  // 0 <= H <= lg(distinct symbols) <= lg(length).
  lemma {:induction false} EntropyBounds(lg: real -> real, slope: real, s: string)
    requires Log2Laws(lg, slope) && s != []
    ensures 0.0 <= Entropy(lg, s) <= lg(|Symbols(s)| as real) <= lg(|s| as real)
  {
    var u := Symbols(s);
    SymbolsAreTheCharacters(s);
    assert s[0] in u;
    CountsSumToLength(s);
    LogSumSign(lg, slope, s, u);
    GibbsWhole(lg, slope, s, u);
    LogMonotone(lg, slope, |u| as real, |s| as real);
  }

  lemma GibbsWhole(lg: real -> real, slope: real, s: string, u: seq<char>)
    requires Log2Laws(lg, slope) && s != [] && u != [] && CountSum(s, u) == |s|
    requires forall c :: c in u ==> c in s
    ensures -LogSum(lg, s, u) <= lg(|u| as real)
  {
    GibbsPrefix(lg, slope, s, u, |u| as real);
    TangentSumClosed(s, u, lg(|u| as real), slope, |u| as real);
    TangentOfWhole(|s| as real, lg(|u| as real), slope, |u| as real);
  }

  lemma TangentOfWhole(n: real, l: real, slope: real, d: real)
    requires n > 0.0 && d > 0.0
    ensures Tangent(n / n, l, slope, d / d) == l
  {
    assert n / n == 1.0 && d / d == 1.0;
  }

  // H = 0 exactly for strings with at most one distinct symbol.
  lemma EntropyZero(lg: real -> real, slope: real, s: string)
    requires Log2Laws(lg, slope)
    ensures Entropy(lg, s) == 0.0 <==> |Symbols(s)| <= 1
  {
    if s != [] {
      var u := Symbols(s);
      SymbolsAreTheCharacters(s);
      CountsSumToLength(s);
      LogSumSign(lg, slope, s, u);
      if |u| >= 2 {
        TwoSymbolsBelowWhole(s, u);
      } else {
        assert s[0] in u;
        assert u[..0] == [];
        assert CountSum(s, u) == CountSum(s, u[..0]) + Count(s, u[0]);
      }
    }
  }

  lemma TwoSymbolsBelowWhole(s: string, u: seq<char>)
    requires Distinct(u) && |u| >= 2 && u[0] in s && u[1] in s
    ensures Count(s, u[0]) < |s| && u[0] in u
  {
    CountPositive(s, u[1]);
    var m := multiset(s)[u[1] := 0];
    assert |m| == |multiset(s)| - multiset(s)[u[1]];
    assert m == m[u[0] := 0] + multiset{}[u[0] := m[u[0]]];
  }

  // ---------- Equal counts ----------

  lemma {:induction false} CountSumUniform(s: string, u: seq<char>, m: nat)
    requires forall c :: c in u ==> Count(s, c) == m
    ensures CountSum(s, u) == m * |u|
  {
    if u != [] {
      var r := u[..|u| - 1];
      assert u[|u| - 1] in u;
      CountSumUniform(s, r, m);
      assert m * |u| == m * |r| + m;
    }
  }

  lemma {:induction false} LogSumUniform(lg: real -> real, s: string, u: seq<char>, x: real)
    requires s != [] && forall c :: c in u ==> Term(lg, s, c) == x
    ensures LogSum(lg, s, u) == Times(|u|, x)
  {
    TimesSnoc(0, x);
    if u != [] {
      var r := u[..|u| - 1];
      assert u[|u| - 1] in u;
      LogSumUniform(lg, s, r, x);
      TimesSnoc(|r|, x);
    }
  }

  function Times(n: nat, x: real): real {
    n as real * x
  }

  lemma TimesSnoc(n: nat, x: real)
    ensures Times(n + 1, x) == Times(n, x) + x
    ensures Times(0, x) == 0.0
  {
  }

  // The common share of the symbols, one over their number.
  lemma EqualShare(s: string, u: seq<char>, m: nat) returns (q: real)
    requires s != [] && CountSum(s, u) == |s| && forall c :: c in u ==> Count(s, c) == m
    ensures q > 0.0 && q * |u| as real == 1.0 && forall c :: c in u ==> Share(s, c) == q
  {
    CountSumUniform(s, u, m);
    q := EqualParts(m, |u|, |s|);
  }

  lemma EqualParts(m: nat, d: nat, n: nat) returns (q: real)
    requires n > 0 && m * d == n
    ensures q == m as real / n as real && 0.0 < q && q * d as real == 1.0
  {
    q := m as real / n as real;
    assert q * n as real == m as real;
    assert m > 0 && d > 0;
    EqualPartsReal(m as real, d as real, n as real, q);
  }

  lemma EqualPartsReal(m: real, d: real, n: real, q: real)
    requires m > 0.0 && n > 0.0 && m * d == n && q * n == m
    ensures q > 0.0 && q * d == 1.0
  {
    assert m * (q * d) == m;
  }

  lemma UniformAlgebra(d: nat, q: real, l: real)
    requires q * d as real == 1.0
    ensures Times(d, q * -l) == -l
  {
  }

  lemma UniformLog(lg: real -> real, slope: real, d: nat, q: real)
    requires Log2Laws(lg, slope) && d > 0 && q > 0.0 && q * d as real == 1.0
    ensures Times(d, q * lg(q)) == -lg(d as real)
  {
    LogOfInverse(lg, slope, q, d as real);
    UniformAlgebra(d, q, lg(d as real));
  }

  lemma EqualTerm(lg: real -> real, slope: real, s: string, u: seq<char>, m: nat) returns (x: real)
    requires Log2Laws(lg, slope) && s != [] && u != [] && CountSum(s, u) == |s|
    requires forall c :: c in u ==> Count(s, c) == m
    ensures Times(|u|, x) == -lg(|u| as real) && forall c :: c in u ==> Term(lg, s, c) == x
  {
    var q := EqualShare(s, u, m);
    UniformLog(lg, slope, |u|, q);
    x := q * lg(q);
  }

  lemma UniformWhole(lg: real -> real, slope: real, s: string, u: seq<char>, m: nat)
    requires Log2Laws(lg, slope) && s != [] && u != [] && CountSum(s, u) == |s|
    requires forall c :: c in u ==> Count(s, c) == m
    ensures -LogSum(lg, s, u) == lg(|u| as real)
  {
    var x := EqualTerm(lg, slope, s, u, m);
    LogSumUniform(lg, s, u, x);
  }

  // A string whose symbols all occur equally often reaches the bound: H = log2 of their number.
  lemma EntropyUniform(lg: real -> real, slope: real, s: string, m: nat)
    requires Log2Laws(lg, slope) && s != [] && forall c :: c in s ==> Count(s, c) == m
    ensures Entropy(lg, s) == lg(|Symbols(s)| as real)
  {
    SymbolsAreTheCharacters(s);
    assert s[0] in Symbols(s);
    CountsSumToLength(s);
    UniformWhole(lg, slope, s, Symbols(s), m);
  }

  // ---------- Permutations ----------

  lemma {:induction false} LogSumSameCounts(lg: real -> real, s: string, t: string, u: seq<char>)
    requires s != [] && multiset(s) == multiset(t) && |s| == |t|
    ensures LogSum(lg, s, u) == LogSum(lg, t, u)
  {
    if u != [] {
      LogSumSameCounts(lg, s, t, u[..|u| - 1]);
      TermSameCounts(lg, s, t, u[|u| - 1]);
    }
  }

  lemma TermSameCounts(lg: real -> real, s: string, t: string, c: char)
    requires s != [] && multiset(s) == multiset(t) && |s| == |t|
    ensures Term(lg, s, c) == Term(lg, t, c)
  {
    assert Share(s, c) == Share(t, c);
  }

  lemma {:induction false} LogSumRemove(lg: real -> real, s: string, u: seq<char>, k: nat)
    requires s != [] && k < |u|
    ensures LogSum(lg, s, u) == LogSum(lg, s, Without(u, k)) + Term(lg, s, u[k])
  {
    var r, last := u[..|u| - 1], u[|u| - 1];
    if k < |r| {
      LogSumRemove(lg, s, r, k);
      var v := Without(u, k);
      assert v[|v| - 1] == last && v[..|v| - 1] == Without(r, k);
      assert LogSum(lg, s, v) == LogSum(lg, s, Without(r, k)) + Term(lg, s, last);
    } else {
      assert Without(u, k) == r;
    }
  }

  function Without(u: seq<char>, k: nat): seq<char>
    requires k < |u|
  {
    u[..k] + u[k + 1..]
  }

  lemma WithoutElements(u: seq<char>, k: nat)
    requires k < |u| && Distinct(u)
    ensures Distinct(Without(u, k)) && forall x :: x in Without(u, k) <==> x in u && x != u[k]
  {
    var w := Without(u, k);
    forall x | x in u && x != u[k]
      ensures x in w
    {
      var i :| 0 <= i < |u| && u[i] == x;
      assert w[if i < k then i else i - 1] == x;
    }
  }

  lemma {:induction false} LogSumPermuted(lg: real -> real, s: string, u: seq<char>, v: seq<char>)
    requires s != [] && Distinct(u) && Distinct(v) && forall c :: c in u <==> c in v
    ensures LogSum(lg, s, u) == LogSum(lg, s, v)
    decreases |u|
  {
    if u == [] {
      assert forall i :: 0 <= i < |v| ==> v[i] in v;
    } else {
      var last := |u| - 1;
      assert u[last] in u;
      var k :| 0 <= k < |v| && v[k] == u[last];
      LogSumRemove(lg, s, v, k);
      WithoutElements(v, k);
      WithoutElements(u, last);
      assert Without(u, last) == u[..last];
      LogSumPermuted(lg, s, u[..last], Without(v, k));
    }
  }

  // Reordering the characters changes nothing.
  lemma EntropyPermutation(lg: real -> real, s: string, t: string)
    requires multiset(s) == multiset(t)
    ensures Entropy(lg, s) == Entropy(lg, t)
  {
    assert |s| == |multiset(s)| == |multiset(t)| == |t|;
    if s != [] {
      SymbolsAreTheCharacters(s);
      SymbolsAreTheCharacters(t);
      assert forall c :: c in s <==> c in multiset(s);
      assert forall c :: c in t <==> c in multiset(t);
      LogSumSameCounts(lg, s, t, Symbols(s));
      LogSumPermuted(lg, t, Symbols(s), Symbols(t));
    }
  }
}
