/** The overview's completion percentage. Three categories carry base
    weights (required documents 0.6, minimum-count documents 0.25, deep
    verification cases 0.15); only categories that occur in a group take
    part, and their weights are rescaled to sum to one. Arithmetic is on exact
    reals; `Math.round` is `floor(x + 1/2)`. */
module Progress {
  import opened Base

  /** The counters a group accumulates (`reqTotal`, `reqOk`, ...). */
  datatype Counters = Counters(
    reqTotal: nat, reqOk: nat,
    minTotal: nat, minOk: nat,
    deepTotal: nat, deepOk: nat, deepFailed: nat)

  const Zero := Counters(0, 0, 0, 0, 0, 0, 0)

  /** No category has more satisfied than counted entries. */
  predicate WellFormed(c: Counters) {
    && c.reqOk <= c.reqTotal
    && c.minOk <= c.minTotal
    && c.deepOk + c.deepFailed <= c.deepTotal
  }

  const ReqWeight: real := 0.6
  const MinWeight: real := 0.25
  const DeepWeight: real := 0.15

  /** The weight a category contributes to the sum: its base weight when it occurs. */
  function ActiveWeight(total: nat, w: real): real {
    if total > 0 then w else 0.0
  }

  /** The sum of the active categories' weights, or 1 when none is active. */
  function WeightSum(c: Counters): (s: real)
    ensures s > 0.0
  {
    var a := ActiveWeight(c.reqTotal, ReqWeight) + ActiveWeight(c.minTotal, MinWeight)
             + ActiveWeight(c.deepTotal, DeepWeight);
    if a == 0.0 then 1.0 else a
  }

  /** One category's share: its satisfied fraction times its rescaled weight. */
  function Part(ok: nat, total: nat, w: real, sum: real): real
    requires sum > 0.0
  {
    if total > 0 then (ok as real / total as real) * (w / sum) else 0.0
  }

  /** The weighted completion fraction, before scaling to percent. */
  function Score(c: Counters): real {
    var s := WeightSum(c);
    Part(c.reqOk, c.reqTotal, ReqWeight, s)
    + Part(c.minOk, c.minTotal, MinWeight, s)
    + Part(c.deepOk, c.deepTotal, DeepWeight, s)
  }

  /** `computeProgress`: the percentage shown on a group's card. */
  function Compute(c: Counters): (p: int)
    ensures WellFormed(c) ==> 0 <= p <= 100
  {
    ScoreBounds(c);
    Round(100.0 * Score(c))
  }

  lemma MulMono(a: real, b: real, k: real)
    requires a <= b && k >= 0.0
    ensures a * k <= b * k
  {
  }

  lemma PartBounds(ok: nat, total: nat, w: real, sum: real)
    requires ok <= total && w >= 0.0 && sum > 0.0
    ensures 0.0 <= Part(ok, total, w, sum) <= ActiveWeight(total, w) / sum
  {
    if total > 0 {
      var ratio := ok as real / total as real;
      assert 0.0 <= ratio <= 1.0;
      MulMono(ratio, 1.0, w / sum);
      MulMono(0.0, ratio, w / sum);
    }
  }

  lemma PartMono(ok: nat, ok': nat, total: nat, w: real, sum: real)
    requires ok <= ok' && w >= 0.0 && sum > 0.0
    ensures Part(ok, total, w, sum) <= Part(ok', total, w, sum)
  {
    if total > 0 {
      assert ok as real / total as real <= ok' as real / total as real;
      MulMono(ok as real / total as real, ok' as real / total as real, w / sum);
    }
  }

  /** Every ratio is at most one, so the rescaled shares add up to at most one. */
  lemma ScoreBounds(c: Counters)
    ensures WellFormed(c) ==> 0.0 <= Score(c) <= 1.0
  {
    if WellFormed(c) {
      var s := WeightSum(c);
      PartBounds(c.reqOk, c.reqTotal, ReqWeight, s);
      PartBounds(c.minOk, c.minTotal, MinWeight, s);
      PartBounds(c.deepOk, c.deepTotal, DeepWeight, s);
      var a1, a2, a3 := ActiveWeight(c.reqTotal, ReqWeight), ActiveWeight(c.minTotal, MinWeight),
                        ActiveWeight(c.deepTotal, DeepWeight);
      assert a1 / s + a2 / s + a3 / s == (a1 + a2 + a3) / s;
      assert (a1 + a2 + a3) / s <= 1.0;
    }
  }

  /** A group without any active category shows 0%. */
  lemma NoActiveCategory(c: Counters)
    requires c.reqTotal == 0 && c.minTotal == 0 && c.deepTotal == 0
    ensures Compute(c) == 0
  {
  }

  /** With only required documents present, the 0.6 weight rescales to one:
      the percentage is the rounded share of required documents present. */
  lemma OnlyRequiredActive(c: Counters)
    requires c.reqTotal > 0 && c.minTotal == 0 && c.deepTotal == 0
    ensures Compute(c) == Round(100.0 * (c.reqOk as real / c.reqTotal as real))
  {
    assert WeightSum(c) == ReqWeight;
    assert Score(c) == (c.reqOk as real / c.reqTotal as real) * 1.0;
  }

  /** A complete category contributes its whole active weight. */
  lemma FullPart(n: nat, w: real, s: real)
    requires s > 0.0
    ensures Part(n, n, w, s) == ActiveWeight(n, w) / s
  {
    if n > 0 {
      assert n as real / n as real == 1.0;
    }
  }

  /** Every active category fully satisfied gives 100%, whichever categories are active. */
  lemma AllSatisfied(c: Counters)
    requires c.reqTotal > 0 || c.minTotal > 0 || c.deepTotal > 0
    requires c.reqOk == c.reqTotal && c.minOk == c.minTotal && c.deepOk == c.deepTotal
    ensures Compute(c) == 100
  {
    var s := WeightSum(c);
    var a1, a2, a3 := ActiveWeight(c.reqTotal, ReqWeight), ActiveWeight(c.minTotal, MinWeight),
                      ActiveWeight(c.deepTotal, DeepWeight);
    assert s == a1 + a2 + a3;
    FullPart(c.reqTotal, ReqWeight, s);
    FullPart(c.minTotal, MinWeight, s);
    FullPart(c.deepTotal, DeepWeight, s);
    assert a1 / s + a2 / s + a3 / s == (a1 + a2 + a3) / s;
    assert Score(c) == 1.0;
  }

  /** Rounding keeps order. */
  lemma RoundMono(x: real, y: real)
    requires x <= y
    ensures Round(x) <= Round(y)
  {
  }

  /** Raising satisfied counters while the totals stay fixed never lowers the percentage. */
  lemma Monotone(c: Counters, c': Counters)
    requires c'.reqTotal == c.reqTotal && c'.minTotal == c.minTotal && c'.deepTotal == c.deepTotal
    requires c.reqOk <= c'.reqOk && c.minOk <= c'.minOk && c.deepOk <= c'.deepOk
    ensures Compute(c) <= Compute(c')
  {
    var s := WeightSum(c);
    assert WeightSum(c') == s;
    PartMono(c.reqOk, c'.reqOk, c.reqTotal, ReqWeight, s);
    PartMono(c.minOk, c'.minOk, c.minTotal, MinWeight, s);
    PartMono(c.deepOk, c'.deepOk, c.deepTotal, DeepWeight, s);
    RoundMono(100.0 * Score(c), 100.0 * Score(c'));
  }

  /** Rescaling over required (0.6/0.85) and minimum-count (0.25/0.85)
      documents: 2 of 2 required and 1 of 3 minimum-count documents give
      round(70.59 + 9.80) = 80. */
  lemma RescaledExample()
    ensures Compute(Counters(2, 2, 3, 1, 0, 0, 0)) == 80
  {
    var c := Counters(2, 2, 3, 1, 0, 0, 0);
    assert WeightSum(c) == 0.85;
    assert Score(c) == (2.0 / 2.0) * (0.6 / 0.85) + (1.0 / 3.0) * (0.25 / 0.85);
    assert 100.0 * Score(c) == 4100.0 / 51.0;
  }
}
