/**
 * `DocumentParserService`: shape checks on a parsed BOQ or quote document,
 * and the parse-or-mock fallback that never fails. A parsed document is a
 * JSON value; JavaScript truthiness and `=== undefined` are stated on that
 * value explicitly. `JSON.parse` is an abstract partial function passed in
 * by the caller (None for a parse error); the uuid and the clock are
 * parameters.
 */
module DocumentParser {
  import opened Models

  /** A value that `JSON.parse` can produce. */
  datatype Json =
    | JNull
    | JBool(b: bool)
    | JNum(n: real)
    | JStr(s: string)
    | JArr(elems: seq<Json>)
    | JObj(fields: map<string, Json>)

  datatype FileType = BoqFile | QuoteFile

  /** The errors `validateAndReturn` throws, plus reading a property of null. */
  datatype ValidationError =
    | NullDereference
    | BoqItemsMissing
    | BoqItemIncomplete(index: nat)
    | QuoteItemsMissing
    | QuoteVendorMissing

  /** JavaScript truthiness of a JSON value (JSON has no NaN or undefined). */
  predicate Truthy(v: Json)
  {
    match v
    case JNull => false
    case JBool(b) => b
    case JNum(n) => n != 0.0
    case JStr(s) => s != ""
    case JArr(_) => true
    case JObj(_) => true
  }

  /** `v.key !== undefined`, for a value that is not null. */
  predicate Defined(v: Json, key: string)
  {
    v.JObj? && key in v.fields
  }

  /** `!!v.key`: the property exists and is truthy. */
  predicate TruthyField(v: Json, key: string)
  {
    Defined(v, key) && Truthy(v.fields[key])
  }

  /** `v.items` exists and `Array.isArray` holds of it. */
  predicate HasItemsArray(v: Json)
  {
    Defined(v, "items") && v.fields["items"].JArr?
  }

  /** A BOQ item passes when its sku is truthy and qty and estimatedPrice are defined. */
  predicate BoqItemAccepted(item: Json)
  {
    TruthyField(item, "sku") && Defined(item, "qty") && Defined(item, "estimatedPrice")
  }

  /**
   * The shape rules, stated declaratively: a BOQ needs an items array whose
   * every element passes `BoqItemAccepted`; a quote needs an items array
   * (its elements are not inspected) and truthy vendorName and vendorId.
   */
  ghost predicate Acceptable(data: Json, fileType: FileType)
  {
    match fileType
    case BoqFile =>
      HasItemsArray(data)
      && forall i :: 0 <= i < |data.fields["items"].elems| ==> BoqItemAccepted(data.fields["items"].elems[i])
    case QuoteFile =>
      HasItemsArray(data) && TruthyField(data, "vendorName") && TruthyField(data, "vendorId")
  }

  /**
   * The `forEach` over the BOQ items: the index of the first item at or after
   * `from` that is rejected, if any.
   */
  function FirstRejectedItem(items: seq<Json>, from: nat): (r: Option<nat>)
    requires from <= |items|
    ensures r.Some? ==> from <= r.value < |items| && !BoqItemAccepted(items[r.value])
    ensures r.Some? ==> forall k :: from <= k < r.value ==> BoqItemAccepted(items[k])
    ensures r.None? ==> forall k :: from <= k < |items| ==> BoqItemAccepted(items[k])
    decreases |items| - from
  {
    if from == |items| then None
    else if !BoqItemAccepted(items[from]) then Some(from)
    else FirstRejectedItem(items, from + 1)
  }

  /**
   * `validateAndReturn`: returns its input unchanged when it passes the shape
   * rules of its file type, and otherwise the error the source throws first.
   */
  function ValidateAndReturn(data: Json, fileType: FileType): (r: Result)
    ensures r.Valid? ==> r.data == data
    ensures r.Valid? <==> Acceptable(data, fileType)
    ensures r.Invalid? && r.error.BoqItemIncomplete? ==>
      fileType == BoqFile && HasItemsArray(data)
      && r.error.index < |data.fields["items"].elems|
      && !BoqItemAccepted(data.fields["items"].elems[r.error.index])
      && forall k :: 0 <= k < r.error.index ==> BoqItemAccepted(data.fields["items"].elems[k])
  {
    if data.JNull? then Invalid(NullDereference)
    else match fileType
      case BoqFile =>
        if !HasItemsArray(data) then Invalid(BoqItemsMissing)
        else
          var items := data.fields["items"].elems;
          (match FirstRejectedItem(items, 0)
           case None => Valid(data)
           case Some(i) => if items[i].JNull? then Invalid(NullDereference) else Invalid(BoqItemIncomplete(i)))
      case QuoteFile =>
        if !HasItemsArray(data) then Invalid(QuoteItemsMissing)
        else if !TruthyField(data, "vendorName") || !TruthyField(data, "vendorId") then Invalid(QuoteVendorMissing)
        else Valid(data)
  }

  datatype Result = Valid(data: Json) | Invalid(error: ValidationError)

  // ---------------------------------------------------------------------
  // Typed documents as JSON, and the fixed mock documents

  function BoqItemJson(item: BoqItem): Json
  {
    JObj(map[
      "lineNo" := JNum(item.lineNo as real), "sku" := JStr(item.sku),
      "description" := JStr(item.description), "spec" := JStr(item.spec),
      "qty" := JNum(item.qty), "uom" := JStr(item.uom),
      "estimatedPrice" := JNum(item.estimatedPrice), "totalEstimate" := JNum(item.totalEstimate)])
  }

  function BoqJson(boq: Boq): Json
  {
    JObj(map[
      "id" := JStr(boq.id), "version" := JStr(boq.version),
      "dateCreated" := JStr(boq.dateCreated), "currency" := JStr(boq.currency),
      "items" := JArr(seq(|boq.items|, i requires 0 <= i < |boq.items| => BoqItemJson(boq.items[i]))),
      "totalBOQ" := JNum(boq.totalBOQ)])
  }

  /** An absent lead time is a missing property. */
  function QuoteItemJson(item: QuoteItem): Json
  {
    var fields := map[
      "boqLineNo" := JNum(item.boqLineNo as real), "sku" := JStr(item.sku),
      "unitPrice" := JNum(item.unitPrice), "qty" := JNum(item.qty),
      "minQty" := JNum(item.minQty), "tax" := JNum(item.tax), "lineTotal" := JNum(item.lineTotal)];
    match item.leadTime
    case Some(days) => JObj(fields["leadTime" := JNum(days)])
    case None => JObj(fields)
  }

  function QuoteJson(quote: Quote): Json
  {
    JObj(map[
      "id" := JStr(quote.id), "vendorId" := JStr(quote.vendorId),
      "vendorName" := JStr(quote.vendorName), "dateReceived" := JStr(quote.dateReceived),
      "currency" := JStr(quote.currency),
      "items" := JArr(seq(|quote.items|, i requires 0 <= i < |quote.items| => QuoteItemJson(quote.items[i]))),
      "shippingCost" := JNum(quote.shippingCost), "discountPercent" := JNum(quote.discountPercent),
      "totalCost" := JNum(quote.totalCost), "paymentTerms" := JStr(quote.paymentTerms),
      "warranty" := JStr(quote.warranty)])
  }

  /** The mock BOQ of `getMockData('boq')`. */
  function MockBoq(uuid: string, now: string): Boq
  {
    Boq("boq-" + uuid, "1.0", now, "USD",
        [BoqItem(1, "WIDGET-100", "Premium Widget", "Aluminum, 10cm, Grade A", 500.0, "UNIT", 45.0, 22500.0),
         BoqItem(2, "WIDGET-200", "Standard Widget", "Steel, 8cm, Grade B", 300.0, "UNIT", 32.5, 9750.0)],
        32250.0)
  }

  /** The mock quote of `getMockData('quote')`. */
  function MockQuote(uuid: string, now: string): Quote
  {
    Quote("quote-" + uuid, "vendor-123", "Best Supply Co.", now, "USD",
          [QuoteItem(1, "WIDGET-100", 42.5, 500.0, 100.0, Some(14.0), 0.08, 22950.0),
           QuoteItem(2, "WIDGET-200", 31.0, 300.0, 50.0, Some(14.0), 0.08, 10038.0)],
          500.0, 5.0, 32438.5, "Net 30", "12 months")
  }

  /** `getMockData`: the fixture of the requested type, as a document. */
  function MockData(fileType: FileType, uuid: string, now: string): Json
  {
    match fileType
    case BoqFile => BoqJson(MockBoq(uuid, now))
    case QuoteFile => QuoteJson(MockQuote(uuid, now))
  }

  /**
   * `parseDocument`: the parsed document when `JSON.parse` succeeds and the
   * document passes validation, and otherwise the mock of the requested
   * type. It never reports an error.
   */
  function ParseDocument(text: string, fileType: FileType, jsonParse: string -> Option<Json>,
                         uuid: string, now: string): (r: Json)
    ensures r == MockData(fileType, uuid, now)
            || (jsonParse(text) == Some(r) && Acceptable(r, fileType))
    ensures jsonParse(text).Some? && Acceptable(jsonParse(text).value, fileType) ==> r == jsonParse(text).value
  {
    match jsonParse(text)
    case None => MockData(fileType, uuid, now)
    case Some(data) =>
      match ValidateAndReturn(data, fileType)
      case Valid(doc) => doc
      case Invalid(_) => MockData(fileType, uuid, now)
  }

  // ---------------------------------------------------------------------
  // Properties

  /** A typed BOQ, written as JSON, passes validation exactly when every item has a SKU. */
  lemma BoqJsonAcceptable(boq: Boq)
    ensures Acceptable(BoqJson(boq), BoqFile) <==> forall i :: 0 <= i < |boq.items| ==> boq.items[i].sku != ""
  {
    var items := BoqJson(boq).fields["items"].elems;
    assert |items| == |boq.items|;
    forall i | 0 <= i < |boq.items|
      ensures BoqItemAccepted(items[i]) <==> boq.items[i].sku != ""
    {
      assert items[i] == BoqItemJson(boq.items[i]);
    }
  }

  /** A typed quote, written as JSON, passes validation exactly when it names its vendor. */
  lemma QuoteJsonAcceptable(quote: Quote)
    ensures Acceptable(QuoteJson(quote), QuoteFile) <==> quote.vendorName != "" && quote.vendorId != ""
  {
  }

  /** Each mock fixture passes validation for its own file type. */
  lemma MockDataAcceptable(fileType: FileType, uuid: string, now: string)
    ensures ValidateAndReturn(MockData(fileType, uuid, now), fileType) == Valid(MockData(fileType, uuid, now))
  {
    match fileType
    case BoqFile => BoqJsonAcceptable(MockBoq(uuid, now));
    case QuoteFile => QuoteJsonAcceptable(MockQuote(uuid, now));
  }

  /** Whatever the input, `parseDocument` yields a document that passes validation. */
  lemma ParseDocumentAlwaysValid(text: string, fileType: FileType, jsonParse: string -> Option<Json>,
                                 uuid: string, now: string)
    ensures ValidateAndReturn(ParseDocument(text, fileType, jsonParse, uuid, now), fileType).Valid?
  {
    MockDataAcceptable(fileType, uuid, now);
  }

  /** In the mock BOQ every line's estimate is price times quantity, and the lines sum to totalBOQ. */
  lemma MockBoqArithmetic(uuid: string, now: string)
    ensures var boq := MockBoq(uuid, now);
      && (forall i :: 0 <= i < |boq.items| ==> boq.items[i].estimatedPrice * boq.items[i].qty == boq.items[i].totalEstimate)
      && boq.items[0].totalEstimate + boq.items[1].totalEstimate == boq.totalBOQ == 32250.0
  {
  }

  /**
   * In the mock quote the first line's total is price times quantity plus
   * tax; the second line's (10038) is not (31 * 300 * 1.08 = 10044).
   */
  lemma MockQuoteLineTotals(uuid: string, now: string)
    ensures var items := MockQuote(uuid, now).items;
      && items[0].unitPrice * items[0].qty * (1.0 + items[0].tax) == items[0].lineTotal
      && items[1].unitPrice * items[1].qty * (1.0 + items[1].tax) == items[1].lineTotal + 6.0
  {
  }
}
