/**
 * The per-quote arithmetic of `createComparison`: cost variance against the
 * BOQ total, the coarse compliance score, the linear composite score, the
 * recommendation tier and the delivery-days fallback. Everything here is a
 * pure function of one quote, the BOQ total and the number of items the
 * matcher left unmatched.
 */
module Scoring {
  import opened Models

  datatype Recommendation = Recommended | Acceptable | FlagReview

  /** One vendor's row of a comparison. */
  datatype VendorScore = VendorScore(
    vendorId: string,
    vendorName: string,
    totalCost: real,
    variance: real,
    complianceScore: real,
    deliveryDays: real,
    score: real,
    recommendation: Recommendation)

  function Abs(x: real): (r: real)
    ensures r >= 0.0 && (r == x || r == -x)
  {
    if x < 0.0 then -x else x
  }

  /**
   * Percentage deviation of a quote's total from the BOQ total. The source
   * does not guard a zero total (it would produce Infinity or NaN), so a
   * non-zero total is required here. The variance is a faithful encoding of
   * the cost: the cost can be read back from it.
   */
  function Variance(totalCost: real, totalBOQ: real): (v: real)
    requires totalBOQ != 0.0
    ensures totalBOQ + v * totalBOQ / 100.0 == totalCost
    ensures v == 0.0 <==> totalCost == totalBOQ
  {
    var d := totalCost - totalBOQ;
    assert (d / totalBOQ * 100.0) * totalBOQ / 100.0 == d by {
      assert (d / totalBOQ) * totalBOQ == d;
    }
    d / totalBOQ * 100.0
  }

  /** 100 when the matcher reports nothing unmatched, 80 otherwise. */
  function ComplianceScore(unmatchedCount: nat): real
  {
    if unmatchedCount == 0 then 100.0 else 80.0
  }

  function CompositeScore(variance: real, complianceScore: real): real
  {
    100.0 - Abs(variance) * 0.5 + complianceScore * 0.2
  }

  /**
   * The recommendation tier: the three bands partition the reals, with the
   * lower bound of each band exclusive (85 is ACCEPTABLE, 70 is FLAG_REVIEW).
   */
  function Tier(score: real): (r: Recommendation)
    ensures r == Recommended <==> score > 85.0
    ensures r == Acceptable <==> 70.0 < score <= 85.0
    ensures r == FlagReview <==> score <= 70.0
  {
    if score > 85.0 then Recommended
    else if score > 70.0 then Acceptable
    else FlagReview
  }

  /** Orders the tiers from worst (0) to best (2). */
  function TierRank(r: Recommendation): nat
  {
    match r
    case FlagReview => 0
    case Acceptable => 1
    case Recommended => 2
  }

  /**
   * `quote.items[0]?.leadTime || 14`: the first item's lead time when there
   * is a first item and its lead time is present and non-zero, else 14.
   */
  function DeliveryDays(items: seq<QuoteItem>): (d: real)
    ensures d != 0.0
    ensures d == 14.0 || (|items| > 0 && items[0].leadTime == Some(d))
    ensures |items| > 0 && items[0].leadTime.Some? && items[0].leadTime.value != 0.0 ==> d == items[0].leadTime.value
  {
    if |items| > 0 && items[0].leadTime.Some? && items[0].leadTime.value != 0.0 then items[0].leadTime.value
    else 14.0
  }

  /** The VendorScore that the loop body of `createComparison` pushes for one quote. */
  function ScoreQuote(totalBOQ: real, quote: Quote, unmatchedCount: nat): (s: VendorScore)
    requires totalBOQ != 0.0
  {
    var variance := Variance(quote.totalCost, totalBOQ);
    var compliance := ComplianceScore(unmatchedCount);
    var score := CompositeScore(variance, compliance);
    VendorScore(quote.vendorId, quote.vendorName, quote.totalCost, variance, compliance,
                DeliveryDays(quote.items), score, Tier(score))
  }

  /** A higher score never gets a worse tier. */
  lemma TierMonotone(s1: real, s2: real)
    requires s1 <= s2
    ensures TierRank(Tier(s1)) <= TierRank(Tier(s2))
  {
  }

  /**
   * The row's identity and cost are the quote's, its variance reads back the
   * quote's cost, and its tier is the tier of its score.
   */
  lemma ScoreQuoteFields(totalBOQ: real, quote: Quote, unmatchedCount: nat)
    requires totalBOQ != 0.0
    ensures var s := ScoreQuote(totalBOQ, quote, unmatchedCount);
      && s.vendorId == quote.vendorId && s.vendorName == quote.vendorName
      && s.totalCost == quote.totalCost
      && totalBOQ + s.variance * totalBOQ / 100.0 == s.totalCost
      && (s.complianceScore == 100.0 <==> unmatchedCount == 0)
      && (s.complianceScore == 80.0 <==> unmatchedCount > 0)
      && s.recommendation == Tier(s.score)
  {
  }

  /**
   * The composite score never exceeds 120, and reaches it exactly when the
   * quote costs the BOQ total and nothing is unmatched.
   */
  lemma ScoreUpperBound(totalBOQ: real, quote: Quote, unmatchedCount: nat)
    requires totalBOQ != 0.0
    ensures ScoreQuote(totalBOQ, quote, unmatchedCount).score <= 120.0
    ensures ScoreQuote(totalBOQ, quote, unmatchedCount).score == 120.0
            <==> quote.totalCost == totalBOQ && unmatchedCount == 0
  {
    var v := Variance(quote.totalCost, totalBOQ);
    assert Abs(v) == 0.0 <==> quote.totalCost == totalBOQ;
  }

  /** A fully matched quote scores exactly 120 and is RECOMMENDED. */
  lemma ExactMatchScores120(totalBOQ: real, quote: Quote)
    requires totalBOQ != 0.0 && quote.totalCost == totalBOQ
    ensures ScoreQuote(totalBOQ, quote, 0).score == 120.0
    ensures ScoreQuote(totalBOQ, quote, 0).recommendation == Recommended
  {
  }

  /**
   * Full coverage is worth exactly four points: the same quote with any
   * unmatched item scores 4 less than with none.
   */
  lemma FullMatchWorthFourPoints(totalBOQ: real, quote: Quote, unmatchedCount: nat)
    requires totalBOQ != 0.0 && unmatchedCount > 0
    ensures ScoreQuote(totalBOQ, quote, 0).score == ScoreQuote(totalBOQ, quote, unmatchedCount).score + 4.0
  {
  }

  lemma MulNonNegative(x: real, y: real)
    requires x >= 0.0 && y >= 0.0
    ensures x * y >= 0.0
  {
  }

  lemma AbsMul(x: real, y: real)
    ensures Abs(x * y) == Abs(x) * Abs(y)
  {
    if x < 0.0 && y < 0.0 {
      MulNonNegative(-x, -y);
      assert (-x) * (-y) == x * y;
    } else if x < 0.0 {
      MulNonNegative(-x, y);
      assert (-x) * y == -(x * y);
    } else if y < 0.0 {
      MulNonNegative(x, -y);
      assert x * (-y) == -(x * y);
    } else {
      MulNonNegative(x, y);
    }
  }

  /** |variance| is the absolute cost gap as a percentage of |totalBOQ|. */
  lemma AbsVariance(totalCost: real, totalBOQ: real)
    requires totalBOQ != 0.0
    ensures Abs(Variance(totalCost, totalBOQ)) * Abs(totalBOQ) == Abs(totalCost - totalBOQ) * 100.0
  {
    var v := Variance(totalCost, totalBOQ);
    assert v * totalBOQ == (totalCost - totalBOQ) * 100.0;
    AbsMul(v, totalBOQ);
    AbsMul(totalCost - totalBOQ, 100.0);
  }

  /**
   * Of two quotes with the same matching outcome, the one whose total is
   * closer to the BOQ total scores strictly higher.
   */
  lemma CloserCostScoresHigher(totalBOQ: real, q1: Quote, q2: Quote, unmatched1: nat, unmatched2: nat)
    requires totalBOQ != 0.0
    requires (unmatched1 == 0) == (unmatched2 == 0)
    requires Abs(q1.totalCost - totalBOQ) < Abs(q2.totalCost - totalBOQ)
    ensures ScoreQuote(totalBOQ, q1, unmatched1).score > ScoreQuote(totalBOQ, q2, unmatched2).score
  {
    AbsVariance(q1.totalCost, totalBOQ);
    AbsVariance(q2.totalCost, totalBOQ);
    var a1 := Abs(Variance(q1.totalCost, totalBOQ));
    var a2 := Abs(Variance(q2.totalCost, totalBOQ));
    if a1 >= a2 {
      MulNonNegative(a1 - a2, Abs(totalBOQ));
      assert false;
    }
    assert ComplianceScore(unmatched1) == ComplianceScore(unmatched2);
  }
}
