# QuoteCraft comparison core, in Dafny

This project models the core of the QuoteCraft procurement backend: the
vendor-quote comparison that scores every quote against a bill of quantities
(BOQ), ranks the vendors and stores the result; the document parser that turns
an uploaded BOQ or quote into a validated document or falls back to a fixed
mock; and the approval step that asks the ERP system for a purchase order when
a comparison is approved.

Modules, one per part of the program:

- `Models` (`models.dfy`): the BOQ, BOQ item, quote and quote item records, an
  `Option`, and the HTTP reply (`Ok` with data and an optional message, or
  `Err` with a status and a message).
- `Scoring` (`scoring.dfy`): the per-quote arithmetic of `createComparison`
  (variance, compliance score, composite score, recommendation tier, delivery
  days) as pure functions, with lemmas on bounds and monotonicity.
- `Ranking` (`ranking.dfy`): the stable sort by descending score. `SortByScore`
  is the specification; `StableSortIsUnique` shows that every stable
  descending sort gives this result. `SortByScoreDescending` is an in-place
  insertion sort on an array, proved to produce it.
- `Comparison` (`comparison.dfy`): `ComparisonController` is a class whose
  `store` field is the module-level comparison map. `CreateComparison` scores
  the quotes into an array, sorts it in place and stores the record.
  `GetComparison` reads the record back. `Compare` is the pure specification
  of the record, and the lemmas state what it promises.
- `DocumentParser` (`document_parser.dfy`): a JSON value type with JavaScript
  truthiness and `!== undefined` written out. The validator is proved equal
  to a declarative acceptance predicate. The mock fixtures are here, along
  with the parse-or-mock function, which never fails.
- `Approval` (`approval.dfy`): request validation, the result record, and
  `ApprovalController.SubmitApproval`. The ERP service is a class that records
  each purchase-order request it receives.

The collaborators whose rules are not part of this model are parameters:

- the item matcher (`Matcher`, a function value);
- the policy engine and the approval router (`PolicyEngine`, a pair of
  function values);
- `JSON.parse` (a partial function returning `Option`);
- the ERP service's choice of purchase order (a function of the request and
  its position);
- uuid generation and the clock (string parameters).

Numbers are reals. The source divides by the BOQ total only when it scores a
quote, so `CreateComparison` requires a non-zero total only for a well-formed
request with at least one quote; a refused request and an empty quotes array
are modelled for every total.

## Model

| member | source | states |
|---|---|---|
| `Scoring.Variance` | src/controllers/comparison.controller.ts:34-35 | the quote's cost can be recovered from the variance and the BOQ total; the variance is 0 exactly when the cost equals the BOQ total |
| `Scoring.Tier` | src/controllers/comparison.controller.ts:47 | RECOMMENDED iff score > 85, ACCEPTABLE iff 70 < score <= 85, FLAG_REVIEW iff score <= 70 |
| `Scoring.DeliveryDays` | src/controllers/comparison.controller.ts:45 | the first item's lead time when it exists and is non-zero, otherwise 14; never 0 |
| `Scoring.TierMonotone` | src/controllers/comparison.controller.ts:47 | a higher score never gets a worse tier |
| `Scoring.ScoreQuoteFields` | src/controllers/comparison.controller.ts:34-48 | a row keeps the quote's vendor and cost; its variance reads back the cost; compliance is 100 iff nothing is unmatched and 80 otherwise; its tier is the tier of its score |
| `Scoring.ScoreUpperBound` | src/controllers/comparison.controller.ts:35-37 | the score is at most 120, and equals 120 iff the cost equals the BOQ total and nothing is unmatched |
| `Scoring.ExactMatchScores120` | src/controllers/comparison.controller.ts:35-47 | a fully matched quote at exactly the BOQ total scores 120 and is RECOMMENDED |
| `Scoring.FullMatchWorthFourPoints` | src/controllers/comparison.controller.ts:36-37 | any unmatched item costs exactly 4 points |
| `Scoring.AbsVariance` | src/controllers/comparison.controller.ts:35 | abs(variance) * abs(totalBOQ) == abs(cost - totalBOQ) * 100 |
| `Scoring.CloserCostScoresHigher` | src/controllers/comparison.controller.ts:34-37 | when both quotes have the same matching outcome, the one closer to the BOQ total scores strictly higher |
| `Ranking.SortByScoreRanked` | src/controllers/comparison.controller.ts:51 | the sorted rows are in non-increasing score order |
| `Ranking.SortByScorePermutes` | src/controllers/comparison.controller.ts:51 | the sorted rows are a permutation of the input rows |
| `Ranking.SortByScoreStable` | src/controllers/comparison.controller.ts:51 | rows of equal score keep their input order |
| `Ranking.StableSortIsUnique` | src/controllers/comparison.controller.ts:51 | every ranked arrangement that keeps the order of equal scores equals `SortByScore` of the input |
| `Ranking.TopRowHasMaxScore` | src/controllers/comparison.controller.ts:51-52 | the first sorted row has the highest score of all input rows |
| `Ranking.InsertNext` | src/controllers/comparison.controller.ts:51 | one in-place insertion step: the prefix becomes `Insert` of the old prefix and the next row; the suffix is unchanged |
| `Ranking.SortByScoreDescending` | src/controllers/comparison.controller.ts:51 | the array ends up as `SortByScore` of its old contents |
| `Comparison.ScoreAll` | src/controllers/comparison.controller.ts:28-49 | one row per quote, in input order, each scored against the BOQ with its own unmatched count |
| `Comparison.ScoreQuotes` | src/controllers/comparison.controller.ts:26-49 | the scoring loop fills a fresh array equal to `ScoreAll` |
| `Comparison.WinnerCost` | src/controllers/comparison.controller.ts:53-63 | `vendorScores[0]?.totalCost \|\| 0` is the winner's cost, or 0 when there are no rows |
| `Comparison.WinnerVariance` | src/controllers/comparison.controller.ts:59 | `vendorScores[0]?.variance \|\| 0` is the winner's variance, or 0 when there are no rows |
| `Comparison.CompareScoresEveryQuote` | src/controllers/comparison.controller.ts:28-51 | the stored rows are exactly the per-quote rows, as a multiset; every quote has its row |
| `Comparison.CompareRanking` | src/controllers/comparison.controller.ts:51 | the stored rows are ranked by score, and equal scores keep quote order |
| `Comparison.CompareWinner` | src/controllers/comparison.controller.ts:51-53 | with quotes, the first row is some quote's row and scores at least as high as every quote; best vendor is its name ("N/A" if empty); savings are BOQ total minus its cost |
| `Comparison.CompareNoQuotes` | src/controllers/comparison.controller.ts:51-77 | with no quotes, for any BOQ total: no rows, "N/A", savings equal the BOQ total, the policy engine sees cost 0 and variance 0, the router sees cost 0 and whether a check failed; id, BOQ id, time and status PENDING_APPROVAL are recorded |
| `Comparison.ComparePolicyWiring` | src/controllers/comparison.controller.ts:55-77 | the policy engine gets the winner's cost, the quote count, 0 unmatched and the winner's variance; the router gets the cost and whether a check failed; id, BOQ id, time and status are recorded |
| `Comparison.PolicySeesOnlyWinner` | src/controllers/comparison.controller.ts:55-65 | two quote sets of equal size with the same winner get the same evaluation, route, best vendor and savings |
| `Comparison.MockQuoteRow` | src/controllers/comparison.controller.ts:34-47 | the mock quote against the mock BOQ, fully matched: variance 377/645, score 120 - 377/1290, RECOMMENDED, 14 days |
| `Comparison.SingleQuote` | src/controllers/comparison.controller.ts:51-53 | with a single quote, its row is the only row and decides best vendor and savings |
| `Comparison.MockComparison` | src/controllers/comparison.controller.ts:51-53 | comparing the mock quote with the mock BOQ: best vendor "Best Supply Co.", savings -188.5 |
| `Comparison.ComparisonController.constructor` | src/controllers/comparison.controller.ts:10 | the store starts empty |
| `Comparison.ComparisonController.CreateComparison` | src/controllers/comparison.controller.ts:13-98 | a request without a BOQ or a quotes array gets 400 and the store is unchanged; otherwise the reply is `Compare` of the request and the store maps "comp-" + uuid to it, all other entries unchanged |
| `Comparison.ComparisonController.GetComparison` | src/controllers/comparison.controller.ts:100-125 | the stored record for a known id, 404 "Comparison not found" otherwise |
| `Comparison.ComparisonController.CreateThenGet` | src/controllers/comparison.controller.ts:79-117 | a created comparison is what a later lookup of its id returns; a refused one changes nothing |
| `DocumentParser.FirstRejectedItem` | src/services/document-parser.service.ts:28-32 | the index of the first BOQ item that fails the field check; None iff all pass |
| `DocumentParser.ValidateAndReturn` | src/services/document-parser.service.ts:23-42 | returns the input unchanged iff it satisfies the declarative shape rules of its file type; a reported bad item is the first bad item |
| `DocumentParser.ParseDocument` | src/services/document-parser.service.ts:6-21 | the result is the mock or an accepted parse, and an accepted parse is always returned |
| `DocumentParser.BoqJsonAcceptable` | src/services/document-parser.service.ts:24-32 | a typed BOQ written as JSON passes iff every item has a non-empty SKU |
| `DocumentParser.QuoteJsonAcceptable` | src/services/document-parser.service.ts:33-39 | a typed quote written as JSON passes iff its vendor name and id are non-empty |
| `DocumentParser.MockDataAcceptable` | src/services/document-parser.service.ts:44-111 | each mock fixture passes validation for its own file type |
| `DocumentParser.ParseDocumentAlwaysValid` | src/services/document-parser.service.ts:6-21 | whatever the input bytes and parser, the returned document passes validation |
| `DocumentParser.MockBoqArithmetic` | src/services/document-parser.service.ts:46-74 | in the mock BOQ, each line total is price times quantity, and the lines sum to totalBOQ (32250) |
| `DocumentParser.MockQuoteLineTotals` | src/services/document-parser.service.ts:82-103 | in the mock quote, line 1 equals price x qty x (1 + tax); line 2 (10038) is 6 below that product (10044) |
| `Approval.ValidateApproval` | src/controllers/approval.controller.ts:10-18 | accepted iff comparisonId is non-empty and decision is exactly APPROVED or REJECTED; the accepted values read back the request |
| `Approval.ValidateApprovalRoundTrip` | src/controllers/approval.controller.ts:12 | each decision's wire name, with any non-empty id, validates to that decision and id |
| `Approval.LowerAscii` | src/controllers/approval.controller.ts:51 | no upper-case ASCII letter is left, and each character is kept or is the lower-case form of the upper-case letter in its place |
| `Approval.ResponseMessages` | src/controllers/approval.controller.ts:48-52 | the reply message is "Approval approved successfully" or "Approval rejected successfully" |
| `Approval.ApprovalRecordConsistent` | src/controllers/approval.controller.ts:20-44 | id equals approvalId; the decision, purchase order, next step and message agree; an approval's next step names the PO number |
| `Approval.ErpService.CreatePurchaseOrder` | src/controllers/approval.controller.ts:25-29 | the request is appended to the ERP service's log, and the returned PO is the one the service issues for it |
| `Approval.ApprovalController.SubmitApproval` | src/controllers/approval.controller.ts:8-60 | an invalid request gets 400 and the ERP is not called; an approval calls the ERP exactly once and records its PO; a rejection calls nothing and records none |

## Left out

- Logging, the watsonx orchestration trigger and the Slack notification. Their calls follow the store update and do not change the reply; their services are not part of this model.
- The 500 replies of the `catch` blocks. Collaborators are total functions here, so nothing throws. A request whose quotes lack `items` or `totalCost` is typed out of the model.
- uuid generation and `new Date().toISOString()`. They are parameters; `SubmitApproval` takes its two clock readings as two separate parameters.
- The rules of the item matcher, the policy engine, the approval router and the ERP service. These collaborators are function values; only the unmatched count, `policyChecksPassed` and `poNumber` are read.
- IEEE-754 arithmetic: the model uses exact reals, so rounding, NaN and Infinity are not modelled.
- Scoring.Variance: requires a non-zero BOQ total, where the source would produce Infinity or NaN. So a well-formed comparison request with a zero BOQ total and at least one quote is outside the model.
- Reading the upload as UTF-8 and `JSON.parse` itself. The text is a string and the parser is an abstract partial function.
- Request bodies whose `comparisonId` or `decision` is a non-string value. Request fields are modelled as optional strings, and `boqData` as an optional BOQ.
- Approval.LowerAscii: lower-cases only ASCII letters. This is enough for the two decisions the guard admits.
- The rest of the HTTP envelope (`success` flag, headers). A reply is `Ok` with data and message, or `Err` with status and message.
- The persistence of the comparison map across process restarts. It is an in-memory field, as in the source.
