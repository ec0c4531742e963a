/**
 * `ComparisonController`: `createComparison` scores every quote against the
 * BOQ, ranks the rows, derives the best vendor and the cost savings, hands
 * the winner's figures to the policy engine and the approval router, and
 * stores the result in the module-level map that `getComparison` reads.
 *
 * The item matcher and the policy engine are collaborators whose rules are
 * not part of this model: they are function values supplied by the caller.
 * The uuid and the clock are parameters.
 */
module Comparison {
  import opened Models
  import opened Scoring
  import opened Ranking
  import DocumentParser

  /** An item the matcher could not pair; only the number of them is used. */
  datatype UnmatchedItem = UnmatchedBoqItem(boqItem: BoqItem) | UnmatchedQuoteItem(quoteItem: QuoteItem)

  /** What `vendorMatcherService.matchItems` returns. */
  datatype MatchResult = MatchResult(matches: seq<(BoqItem, QuoteItem)>, unmatched: seq<UnmatchedItem>)

  type Matcher = (seq<BoqItem>, seq<QuoteItem>) -> MatchResult

  /** What `policyEngineService.evaluatePolicies` returns; only `policyChecksPassed` is read. */
  datatype PolicyEvaluation = PolicyEvaluation(policyChecksPassed: bool, violations: seq<string>)

  /**
   * `policyEngineService`: `evaluatePolicies(cost, quoteCount, unmatchedCount,
   * variance)` and `determineApprovalRoute(cost, policyViolation)`.
   */
  datatype PolicyEngine = PolicyEngine(
    evaluatePolicies: (real, nat, nat, real) -> PolicyEvaluation,
    determineApprovalRoute: (real, bool) -> string)

  /** The stored comparison result. */
  datatype ComparisonRecord = ComparisonRecord(
    id: string,
    boqId: string,
    quotes: seq<VendorScore>,
    bestVendor: string,
    costSavings: real,
    approvalRoute: string,
    status: string,
    createdAt: string,
    policyEvaluation: PolicyEvaluation)

  /** The `quotes` property of the request body. */
  datatype QuotesField = QuotesMissing | QuotesNotArray | QuoteArray(quotes: seq<Quote>)

  /** The request body; `None` is a missing or falsy `boqData`. */
  datatype ComparisonRequest = ComparisonRequest(boqData: Option<Boq>, quotes: QuotesField)

  const InvalidRequestMessage := "Invalid request: boqData and quotes array required"
  const NotFoundMessage := "Comparison not found"
  const CreatedMessage := "Comparison created successfully"
  const PendingApproval := "PENDING_APPROVAL"

  /** The guard of `createComparison`: a BOQ and an array of quotes. */
  predicate WellFormed(req: ComparisonRequest)
  {
    req.boqData.Some? && req.quotes.QuoteArray?
  }

  /** The row the loop pushes for one quote. */
  function ScoreOf(boq: Boq, quote: Quote, matcher: Matcher): VendorScore
    requires boq.totalBOQ != 0.0
  {
    ScoreQuote(boq.totalBOQ, quote, |matcher(boq.items, quote.items).unmatched|)
  }

  /** The rows before sorting: one per quote, in input order. */
  function ScoreAll(boq: Boq, quotes: seq<Quote>, matcher: Matcher): (r: seq<VendorScore>)
    requires quotes != [] ==> boq.totalBOQ != 0.0
    ensures |r| == |quotes|
    ensures forall i :: 0 <= i < |quotes| ==> r[i] == ScoreOf(boq, quotes[i], matcher)
  {
    seq(|quotes|, i requires 0 <= i < |quotes| => ScoreOf(boq, quotes[i], matcher))
  }

  /** `vendorScores[0]?.vendorName || 'N/A'`. */
  function BestVendor(ranked: seq<VendorScore>): string
  {
    if |ranked| > 0 && ranked[0].vendorName != "" then ranked[0].vendorName else "N/A"
  }

  /** `vendorScores[0]?.totalCost || 0`: the winner's cost, 0 without a winner. */
  function WinnerCost(ranked: seq<VendorScore>): (r: real)
    ensures r == if |ranked| > 0 then ranked[0].totalCost else 0.0
  {
    if |ranked| > 0 && ranked[0].totalCost != 0.0 then ranked[0].totalCost else 0.0
  }

  /** `vendorScores[0]?.variance || 0`: the winner's variance, 0 without a winner. */
  function WinnerVariance(ranked: seq<VendorScore>): (r: real)
    ensures r == if |ranked| > 0 then ranked[0].variance else 0.0
  {
    if |ranked| > 0 && ranked[0].variance != 0.0 then ranked[0].variance else 0.0
  }

  /** The record built from the ranked rows (source lines 52-77). */
  function Assemble(boq: Boq, ranked: seq<VendorScore>, quoteCount: nat, id: string, createdAt: string,
                    engine: PolicyEngine): ComparisonRecord
  {
    var policyEval := engine.evaluatePolicies(WinnerCost(ranked), quoteCount, 0, WinnerVariance(ranked));
    var route := engine.determineApprovalRoute(WinnerCost(ranked), !policyEval.policyChecksPassed);
    ComparisonRecord(id, boq.id, ranked, BestVendor(ranked), boq.totalBOQ - WinnerCost(ranked),
                     route, PendingApproval, createdAt, policyEval)
  }

  /** The comparison `createComparison` builds for a well-formed request. */
  function Compare(boq: Boq, quotes: seq<Quote>, id: string, createdAt: string,
                   matcher: Matcher, engine: PolicyEngine): ComparisonRecord
    requires quotes != [] ==> boq.totalBOQ != 0.0
  {
    Assemble(boq, SortByScore(ScoreAll(boq, quotes, matcher)), |quotes|, id, createdAt, engine)
  }

  // ---------------------------------------------------------------------
  // Properties of a comparison

  /** Exactly one row per quote: the rows are a permutation of the per-quote scores. */
  lemma CompareScoresEveryQuote(boq: Boq, quotes: seq<Quote>, id: string, createdAt: string,
                                matcher: Matcher, engine: PolicyEngine)
    requires quotes != [] ==> boq.totalBOQ != 0.0
    ensures var c := Compare(boq, quotes, id, createdAt, matcher, engine);
      && |c.quotes| == |quotes|
      && multiset(c.quotes) == multiset(ScoreAll(boq, quotes, matcher))
      && forall i :: 0 <= i < |quotes| ==> ScoreOf(boq, quotes[i], matcher) in c.quotes
  {
    var rows := ScoreAll(boq, quotes, matcher);
    SortByScorePermutes(rows);
    forall i | 0 <= i < |quotes| ensures ScoreOf(boq, quotes[i], matcher) in SortByScore(rows) {
      assert rows[i] in multiset(rows);
    }
  }

  /**
   * The rows are in non-increasing score order, and rows of equal score
   * are in the order of their quotes.
   */
  lemma CompareRanking(boq: Boq, quotes: seq<Quote>, id: string, createdAt: string,
                       matcher: Matcher, engine: PolicyEngine)
    requires quotes != [] ==> boq.totalBOQ != 0.0
    ensures var c := Compare(boq, quotes, id, createdAt, matcher, engine);
      && Ranked(c.quotes)
      && forall v :: WithScore(c.quotes, v) == WithScore(ScoreAll(boq, quotes, matcher), v)
  {
    var rows := ScoreAll(boq, quotes, matcher);
    SortByScoreRanked(rows);
    forall v ensures WithScore(SortByScore(rows), v) == WithScore(rows, v) {
      SortByScoreStable(rows, v);
    }
  }

  /**
   * With at least one quote, the first row scores at least as high as every
   * quote's row; the best vendor is its name (or "N/A" when that is empty)
   * and the savings are the BOQ total minus its cost.
   */
  lemma CompareWinner(boq: Boq, quotes: seq<Quote>, id: string, createdAt: string,
                      matcher: Matcher, engine: PolicyEngine)
    requires boq.totalBOQ != 0.0 && quotes != []
    ensures var c := Compare(boq, quotes, id, createdAt, matcher, engine);
      && c.quotes != []
      && (forall i :: 0 <= i < |quotes| ==> ScoreOf(boq, quotes[i], matcher).score <= c.quotes[0].score)
      && (exists i :: 0 <= i < |quotes| && c.quotes[0] == ScoreOf(boq, quotes[i], matcher))
      && c.bestVendor == (if c.quotes[0].vendorName != "" then c.quotes[0].vendorName else "N/A")
      && c.costSavings == boq.totalBOQ - c.quotes[0].totalCost
  {
    var rows := ScoreAll(boq, quotes, matcher);
    TopRowHasMaxScore(rows);
    SortByScorePermutes(rows);
    var top := SortByScore(rows)[0];
    assert top in multiset(rows);
    var i :| 0 <= i < |rows| && rows[i] == top;
  }

  /**
   * With no quotes (nothing is divided, so any BOQ total): no rows, best
   * vendor "N/A", savings equal to the BOQ total, the policy engine sees a
   * zero cost and variance and the router a zero cost.
   */
  lemma CompareNoQuotes(boq: Boq, id: string, createdAt: string, matcher: Matcher, engine: PolicyEngine)
    ensures var c := Compare(boq, [], id, createdAt, matcher, engine);
      && c.quotes == [] && c.bestVendor == "N/A" && c.costSavings == boq.totalBOQ
      && c.policyEvaluation == engine.evaluatePolicies(0.0, 0, 0, 0.0)
      && c.approvalRoute == engine.determineApprovalRoute(0.0, !c.policyEvaluation.policyChecksPassed)
      && c.id == id && c.boqId == boq.id && c.createdAt == createdAt
      && c.status == PendingApproval
  {
    assert ScoreAll(boq, [], matcher) == [];
  }

  /**
   * The policy engine receives the winner's cost, the number of quotes, an
   * unmatched count of 0 and the winner's variance; the router receives the
   * winner's cost and whether any policy check failed; the record is pending.
   */
  lemma ComparePolicyWiring(boq: Boq, quotes: seq<Quote>, id: string, createdAt: string,
                            matcher: Matcher, engine: PolicyEngine)
    requires boq.totalBOQ != 0.0 && quotes != []
    ensures var c := Compare(boq, quotes, id, createdAt, matcher, engine);
      && c.policyEvaluation == engine.evaluatePolicies(c.quotes[0].totalCost, |quotes|, 0, c.quotes[0].variance)
      && c.approvalRoute == engine.determineApprovalRoute(c.quotes[0].totalCost, !c.policyEvaluation.policyChecksPassed)
      && c.id == id && c.boqId == boq.id && c.createdAt == createdAt && c.status == PendingApproval
  {
    SortByScorePermutes(ScoreAll(boq, quotes, matcher));
  }

  /**
   * Only the winner is policy-checked: two sets of quotes of the same size
   * whose first rows coincide get the same policy evaluation and route,
   * whatever the losing quotes are.
   */
  lemma PolicySeesOnlyWinner(boq: Boq, quotes1: seq<Quote>, quotes2: seq<Quote>, id: string, createdAt: string,
                             matcher: Matcher, engine: PolicyEngine)
    requires boq.totalBOQ != 0.0 && quotes1 != [] && |quotes1| == |quotes2|
    requires SortByScore(ScoreAll(boq, quotes1, matcher))[0] == SortByScore(ScoreAll(boq, quotes2, matcher))[0]
    ensures var c1, c2 := Compare(boq, quotes1, id, createdAt, matcher, engine), Compare(boq, quotes2, id, createdAt, matcher, engine);
      && c1.policyEvaluation == c2.policyEvaluation
      && c1.approvalRoute == c2.approvalRoute
      && c1.bestVendor == c2.bestVendor && c1.costSavings == c2.costSavings
  {
    SortByScorePermutes(ScoreAll(boq, quotes1, matcher));
    SortByScorePermutes(ScoreAll(boq, quotes2, matcher));
  }

  /** A matcher that pairs every item. */
  function MatchesEverything(boqItems: seq<BoqItem>, quoteItems: seq<QuoteItem>): MatchResult
  {
    MatchResult([], [])
  }

  /** The row of the mock quote scored against the mock BOQ with nothing unmatched. */
  lemma MockQuoteRow(uuid: string, now: string)
    ensures var row := ScoreOf(DocumentParser.MockBoq(uuid, now), DocumentParser.MockQuote(uuid, now), MatchesEverything);
      && row.vendorName == "Best Supply Co." && row.totalCost == 32438.5
      && row.variance == 377.0 / 645.0
      && row.complianceScore == 100.0
      && row.score == 120.0 - 377.0 / 1290.0
      && row.recommendation == Recommended
      && row.deliveryDays == 14.0
  {
    var boq, quote := DocumentParser.MockBoq(uuid, now), DocumentParser.MockQuote(uuid, now);
    var row := ScoreOf(boq, quote, MatchesEverything);
    assert row.variance == 377.0 / 645.0 by {
      assert Variance(32438.5, 32250.0) == 188.5 / 32250.0 * 100.0;
    }
    assert Abs(row.variance) == 377.0 / 645.0;
  }

  /**
   * The mock quote against the mock BOQ, fully matched: a variance of
   * 188.5/32250 per cent, a score of 120 - 377/1290 (about 119.71),
   * RECOMMENDED, 14 delivery days, best vendor "Best Supply Co." and
   * savings of -188.5 (the quote is over budget).
   */
  lemma MockComparison(uuid: string, now: string, id: string, createdAt: string, engine: PolicyEngine)
    ensures var c := Compare(DocumentParser.MockBoq(uuid, now), [DocumentParser.MockQuote(uuid, now)],
                             id, createdAt, MatchesEverything, engine);
      && c.quotes == [ScoreOf(DocumentParser.MockBoq(uuid, now), DocumentParser.MockQuote(uuid, now), MatchesEverything)]
      && c.quotes[0].score == 120.0 - 377.0 / 1290.0
      && c.quotes[0].recommendation == Recommended
      && c.bestVendor == "Best Supply Co."
      && c.costSavings == -188.5
  {
    MockQuoteRow(uuid, now);
    SingleQuote(DocumentParser.MockBoq(uuid, now), DocumentParser.MockQuote(uuid, now), id, createdAt,
                MatchesEverything, engine);
  }

  /** With a single quote, its row is the only row and the winner. */
  lemma SingleQuote(boq: Boq, quote: Quote, id: string, createdAt: string, matcher: Matcher, engine: PolicyEngine)
    requires boq.totalBOQ != 0.0
    ensures var c := Compare(boq, [quote], id, createdAt, matcher, engine);
      && c.quotes == [ScoreOf(boq, quote, matcher)]
      && c.bestVendor == BestVendor([ScoreOf(boq, quote, matcher)])
      && c.costSavings == boq.totalBOQ - quote.totalCost
  {
    var rows := ScoreAll(boq, [quote], matcher);
    assert rows == [ScoreOf(boq, quote, matcher)];
    assert SortByScore(rows) == rows by {
      assert rows[..0] == [];
    }
  }

  // ---------------------------------------------------------------------
  // The controller and its store

  /** The scoring loop of `createComparison`: one row per quote, in input order. */
  method ScoreQuotes(boq: Boq, quotes: seq<Quote>, matcher: Matcher) returns (vendorScores: array<VendorScore>)
    requires quotes != [] ==> boq.totalBOQ != 0.0
    ensures fresh(vendorScores)
    ensures vendorScores[..] == ScoreAll(boq, quotes, matcher)
  {
    vendorScores := new VendorScore[|quotes|];
    for k := 0 to |quotes|
      invariant forall i :: 0 <= i < k ==> vendorScores[i] == ScoreOf(boq, quotes[i], matcher)
    {
      var quote := quotes[k];
      var unmatched := matcher(boq.items, quote.items).unmatched;
      var totalCost := quote.totalCost;
      var variance := Variance(totalCost, boq.totalBOQ);
      var complianceScore := ComplianceScore(|unmatched|);
      var score := CompositeScore(variance, complianceScore);
      vendorScores[k] := VendorScore(quote.vendorId, quote.vendorName, totalCost, variance,
                                     complianceScore, DeliveryDays(quote.items), score, Tier(score));
    }
  }

  class ComparisonController {
    /** `comparisonStore`: comparison id to stored record. */
    var store: map<string, ComparisonRecord>

    constructor ()
      ensures store == map[]
    {
      store := map[];
    }

    /**
     * `createComparison`. A request without a BOQ or without a quotes array
     * gets a 400 and stores nothing; otherwise the comparison is stored
     * under "comp-" + uuid (replacing any record under that id) and
     * returned. The BOQ total must be non-zero when there is a quote to
     * score (the source divides by it in the scoring loop).
     */
    method CreateComparison(req: ComparisonRequest, uuid: string, now: string,
                            matcher: Matcher, engine: PolicyEngine)
      returns (resp: Response<ComparisonRecord>)
      requires WellFormed(req) && req.quotes.quotes != [] ==> req.boqData.value.totalBOQ != 0.0
      modifies this
      ensures !WellFormed(req) ==> resp == Err(400, InvalidRequestMessage) && store == old(store)
      ensures WellFormed(req) ==>
        var c := Compare(req.boqData.value, req.quotes.quotes, "comp-" + uuid, now, matcher, engine);
        resp == Ok(c, Some(CreatedMessage)) && store == old(store)["comp-" + uuid := c]
    {
      if !WellFormed(req) {
        return Err(400, InvalidRequestMessage);
      }
      var boq, quotes := req.boqData.value, req.quotes.quotes;
      var comparisonId := "comp-" + uuid;
      var vendorScores := ScoreQuotes(boq, quotes, matcher);
      SortByScoreDescending(vendorScores);
      var comparisonResult := Assemble(boq, vendorScores[..], |quotes|, comparisonId, now, engine);
      store := store[comparisonId := comparisonResult];
      resp := Ok(comparisonResult, Some(CreatedMessage));
    }

    /** `getComparison`: the stored record, or 404 for an unknown id. */
    method GetComparison(id: string) returns (resp: Response<ComparisonRecord>)
      ensures id in store ==> resp == Ok(store[id], None)
      ensures id !in store ==> resp == Err(404, NotFoundMessage)
    {
      if id in store {
        resp := Ok(store[id], None);
      } else {
        resp := Err(404, NotFoundMessage);
      }
    }

    /** A comparison, once created, is what `getComparison` returns for its id. */
    method CreateThenGet(req: ComparisonRequest, uuid: string, now: string,
                         matcher: Matcher, engine: PolicyEngine)
      returns (created: Response<ComparisonRecord>, fetched: Response<ComparisonRecord>)
      requires WellFormed(req) && req.quotes.quotes != [] ==> req.boqData.value.totalBOQ != 0.0
      modifies this
      ensures created.Ok? ==> fetched == Ok(created.data, None) && created.data.id == "comp-" + uuid
      ensures created.Err? ==> store == old(store)
    {
      created := CreateComparison(req, uuid, now, matcher, engine);
      fetched := GetComparison("comp-" + uuid);
    }
  }
}
