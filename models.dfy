/**
 * The records that the comparison and approval controllers exchange: a Bill of
 * Quantities (BOQ) with its line items, a vendor's quote with its line items,
 * and the shape of an HTTP reply. All numbers of the source are JavaScript
 * numbers; they are modelled as `real`.
 */
module Models {

  datatype Option<+T> = None | Some(value: T)

  /** One requested line of a BOQ. */
  datatype BoqItem = BoqItem(
    lineNo: int,
    sku: string,
    description: string,
    spec: string,
    qty: real,
    uom: string,
    estimatedPrice: real,
    totalEstimate: real)

  /** The buyer's itemised requirement and budget baseline. */
  datatype Boq = Boq(
    id: string,
    version: string,
    dateCreated: string,
    currency: string,
    items: seq<BoqItem>,
    totalBOQ: real)

  /** One priced line of a vendor's quote; `leadTime` may be absent. */
  datatype QuoteItem = QuoteItem(
    boqLineNo: int,
    sku: string,
    unitPrice: real,
    qty: real,
    minQty: real,
    leadTime: Option<real>,
    tax: real,
    lineTotal: real)

  /** A vendor's priced response to a BOQ. */
  datatype Quote = Quote(
    id: string,
    vendorId: string,
    vendorName: string,
    dateReceived: string,
    currency: string,
    items: seq<QuoteItem>,
    shippingCost: real,
    discountPercent: real,
    totalCost: real,
    paymentTerms: string,
    warranty: string)

  /**
   * What a controller sends back: `Ok` is a 200 reply carrying `data` (and
   * the optional `message` of the JSON body), `Err` an error status with the
   * error message of the JSON body.
   */
  datatype Response<+T> = Ok(data: T, message: Option<string>) | Err(status: nat, error: string)
}
