/**
 * The vendor-side values the library handles: purchases, response codes,
 * catalog entries, and the records of what the library reports to the host
 * application and asks of the vendor client.
 */
module Billing {
  import opened Wrappers

  /** `BillingClient.BillingResponseCode` values the library tests for. */
  const OK: int := 0
  const DEVELOPER_ERROR: int := 5
  const ERROR: int := 6
  const ITEM_NOT_OWNED: int := 8

  /** `BillingClient.SkuType` values. */
  const INAPP: string := "inapp"
  const SUBS: string := "subs"

  /** A response code with its debug message (`BillingResult`). */
  datatype BillingResult = BillingResult(responseCode: int, debugMessage: string)

  const SIGNATURE_MISMATCH: BillingResult := BillingResult(ERROR, "Public key signature doesn't match!")
  const SKU_DETAILS_NOT_FOUND: BillingResult := BillingResult(DEVELOPER_ERROR, "SkuDetails not found")

  /** `Purchase.PurchaseState`. */
  datatype PurchaseState = UnspecifiedState | Purchased | Pending

  /** What a purchase's JSON payload says. */
  datatype PurchaseInfo = PurchaseInfo(sku: string, purchaseToken: string, acknowledged: bool, state: PurchaseState)

  /**
   * A purchase: the payload exactly as the vendor sent it, its signature
   * (absent for entries stored without one) and what the payload says.
   */
  datatype Purchase = Purchase(originalJson: string, signature: Option<string>, info: PurchaseInfo)

  /** The JSON reader behind `new Purchase(json, signature)`; `None` stands for a `JSONException`. */
  type JsonReader = string -> Option<PurchaseInfo>

  /** `Security.verifyPurchase(productId, base64PublicKey, signedData, signature)`; an exception reads as false. */
  type SignatureVerifier = (string, string, string, Option<string>) -> bool

  /** `BillingCache.newPurchase`: builds a purchase, or nothing when the payload does not parse. */
  function NewPurchase(readJson: JsonReader, json: string, signature: Option<string>): (r: Option<Purchase>)
    ensures r.Some? <==> readJson(json).Some?
    ensures r.Some? ==> r.value.originalJson == json && r.value.signature == signature
    ensures r.Some? ==> r.value.info == readJson(json).value
  {
    match readJson(json)
    case None => None
    case Some(info) => Some(Purchase(json, signature, info))
  }

  /** The purchase is what `NewPurchase` builds from its own payload and signature. */
  ghost predicate Parsed(readJson: JsonReader, p: Purchase) {
    readJson(p.originalJson) == Some(p.info)
  }

  /** `Purchase.PurchasesResult` of `queryPurchases`: a code and a possibly null list. */
  datatype PurchasesResult = PurchasesResult(responseCode: int, purchases: Option<seq<Purchase>>)

  /** A catalog entry (`SkuDetails`); only its product id matters to the library. */
  datatype SkuDetails = SkuDetails(sku: string, originalJson: string)

  /** `BillingClient.FeatureType` values the library probes. */
  datatype Feature = SubscriptionsUpdate | SubscriptionsOnVR | InAppItemsOnVR

  /** Calls of the `IBillingHandler`. */
  datatype Event =
    | BillingInitialized
    | ProductPurchased(purchase: Purchase)
    | PurchaseHistoryRestored(productIds: set<string>)
    | BillingError(result: BillingResult)
    | ConsumeSuccess(transaction: Purchase)
    | AcknowledgeSuccess(transaction: Purchase)
    | QuerySkuDetails(details: seq<SkuDetails>)

  /** Requests the library makes of the vendor's `BillingClient`. */
  datatype VendorCall =
    | StartConnection
    | EndConnection
    | QueryPurchases(skuType: string)
    | LaunchBillingFlow(details: SkuDetails, vrPurchaseFlow: bool)
    | ConsumeAsync(purchaseToken: string)
    | AcknowledgePurchase(purchaseToken: string)
    | IsFeatureSupported(feature: Feature)
    | IsReady
    | QuerySkuDetailsAsync(skus: seq<string>, skuType: string)
}
