/**
 * The decisions `BillingProcessor` takes, as functions of a snapshot of its
 * state: the connection flags, the two caches (as the maps a query would
 * see), the purchase breadcrumb, the catalog, the capability flags, and the
 * logs of handler events and vendor requests. Vendor answers are inputs;
 * a callback runs as part of the call that registered it.
 */
module Coordinator {
  import opened Wrappers
  import opened Text
  import opened Billing
  import opened CacheCodec

  const SETTINGS_VERSION: string := ".v2_6"
  const MANAGED_PRODUCTS_CACHE_KEY: string := ".products.cache" + SETTINGS_VERSION
  const SUBSCRIPTIONS_CACHE_KEY: string := ".subscriptions.cache" + SETTINGS_VERSION
  const PURCHASE_PAYLOAD_CACHE_KEY: string := ".purchase.last" + SETTINGS_VERSION

  datatype Session = Session(
    connected: bool,
    hasClient: bool,
    products: map<string, Purchase>,
    subscriptions: map<string, Purchase>,
    breadcrumb: Option<string>,
    skuDetails: map<string, SkuDetails>,
    oneTimePurchasesSupported: bool,
    subsUpdateSupported: bool,
    subscriptionOnVRSupported: bool,
    oneTimePurchaseOnVRSupported: bool,
    events: seq<Event>,
    calls: seq<VendorCall>)
  {
    /** `isInitialized()`: connected, and the client not released. */
    predicate IsInitialized() {
      connected && hasClient
    }
  }

  /** What a processor is built with: the licence key, the signature check, and whether a handler is registered. */
  datatype Config = Config(licenseKey: string, verify: SignatureVerifier, hasHandler: bool)

  /** The two caches. */
  datatype Target = Products | Subscriptions

  /** Handler calls happen only when a handler is registered. */
  function Report(c: Config, es: seq<Event>): seq<Event> {
    if c.hasHandler then es else []
  }

  // ---------------------------------------------------------------------
  // Pure decisions

  /** The pending-purchase breadcrumb `type:productId[:nonce][:developerPayload]`. */
  function BreadcrumbFor(purchaseType: string, productId: string, nonce: string, developerPayload: Option<string>): string {
    var head := purchaseType + ":" + productId;
    var withNonce := if purchaseType != SUBS then head + ":" + nonce else head;
    match developerPayload
    case Some(payload) => withNonce + ":" + payload
    case None => withNonce
  }

  /** `detectPurchaseTypeFromPurchaseResponseData()`. */
  function DetectPurchaseType(breadcrumb: Option<string>): (t: string)
    ensures t == SUBS || t == INAPP
  {
    if breadcrumb.Some? && breadcrumb.value != "" && StartsWith(breadcrumb.value, SUBS) then SUBS else INAPP
  }

  /** `verifyPurchaseSignature`: an empty licence key skips the check. */
  predicate VerifyPurchaseSignature(c: Config, productId: string, purchaseData: string, signature: Option<string>) {
    c.licenseKey == "" || c.verify(productId, c.licenseKey, purchaseData, signature)
  }

  predicate Accepted(c: Config, p: Purchase) {
    VerifyPurchaseSignature(c, p.info.sku, p.originalJson, p.signature)
  }

  /** One purchase of an update: kept under its id if its signature is accepted. */
  function DeliverOne(c: Config, m: map<string, Purchase>, p: Purchase): map<string, Purchase> {
    if Accepted(c, p) then InsertIfAbsent(m, p.info.sku, p) else m
  }

  /** The accepted purchases of `ps`, put into `m` one after the other. */
  function Deliver(c: Config, m: map<string, Purchase>, ps: seq<Purchase>): map<string, Purchase> {
    if ps == [] then m else DeliverOne(c, Deliver(c, m, ps[..|ps| - 1]), ps[|ps| - 1])
  }

  function PurchaseEvent(c: Config, p: Purchase): Event {
    if Accepted(c, p) then ProductPurchased(p) else BillingError(SIGNATURE_MISMATCH)
  }

  function PurchaseEvents(c: Config, ps: seq<Purchase>): (es: seq<Event>)
    ensures |es| == |ps|
  {
    if ps == [] then [] else PurchaseEvents(c, ps[..|ps| - 1]) + [PurchaseEvent(c, ps[|ps| - 1])]
  }

  /** A purchase the restore keeps: PURCHASED or UNSPECIFIED_STATE. */
  predicate Owned(p: Purchase) {
    p.info.state == Purchased || p.info.state == UnspecifiedState
  }

  /** The owned purchases of `ps`, put into `m` one after the other. */
  function Restore(m: map<string, Purchase>, ps: seq<Purchase>): map<string, Purchase> {
    if ps == [] then m else RestoreOne(Restore(m, ps[..|ps| - 1]), ps[|ps| - 1])
  }

  /** One purchase of a restore: kept under its id if owned. */
  function RestoreOne(m: map<string, Purchase>, p: Purchase): map<string, Purchase> {
    if Owned(p) then InsertIfAbsent(m, p.info.sku, p) else m
  }

  function PutDetails(m: map<string, SkuDetails>, ds: seq<SkuDetails>): map<string, SkuDetails> {
    if ds == [] then m else PutDetails(m, ds[..|ds| - 1])[ds[|ds| - 1].sku := ds[|ds| - 1]]
  }

  /** `getPurchaseTransactionDetails(productId, cache)`: a record with a non-empty payload, or nothing. */
  function TransactionDetails(m: map<string, Purchase>, productId: string): Option<Purchase> {
    if productId in m && m[productId].originalJson != "" then Some(m[productId]) else None
  }

  function Inventory(s: Session, t: Target): map<string, Purchase> {
    match t
    case Products => s.products
    case Subscriptions => s.subscriptions
  }

  function WithCache(s: Session, t: Target, m: map<string, Purchase>): Session {
    match t
    case Products => s.(products := m)
    case Subscriptions => s.(subscriptions := m)
  }

  // ---------------------------------------------------------------------
  // Capability probes

  function FeatureFlag(s: Session, f: Feature): bool {
    match f
    case SubscriptionsUpdate => s.subsUpdateSupported
    case SubscriptionsOnVR => s.subscriptionOnVRSupported
    case InAppItemsOnVR => s.oneTimePurchaseOnVRSupported
  }

  function WithFeatureFlag(s: Session, f: Feature, b: bool): Session {
    match f
    case SubscriptionsUpdate => s.(subsUpdateSupported := b)
    case SubscriptionsOnVR => s.(subscriptionOnVRSupported := b)
    case InAppItemsOnVR => s.(oneTimePurchaseOnVRSupported := b)
  }

  /** What a probe does as written: with the flag unset it queries the client, even a released (null) one. */
  datatype ProbeOutcome = Answered(supported: bool) | NullClientDereference

  function ProbeAsWritten(flag: bool, hasClient: bool, code: int): ProbeOutcome {
    if flag then Answered(true)
    else if !hasClient then NullClientDereference
    else Answered(code == OK)
  }

  /** The probe with the missing null check: a released client answers "unsupported". */
  function ProbeAnswer(flag: bool, hasClient: bool, code: int): bool {
    flag || (hasClient && code == OK)
  }

  /**
   * `isSubscriptionUpdateSupported`, `isSubscriptionOnVRSupported`,
   * `isOneTimePurchaseWithVRSupported`: a true flag answers at once; otherwise
   * the vendor's answer `code` is asked for and remembered.
   */
  function FeatureProbe(s: Session, f: Feature, code: int): (Session, bool) {
    if FeatureFlag(s, f) then (s, true)
    else if !s.hasClient then (s, false)
    else
      var b := code == OK;
      (WithFeatureFlag(s, f, b).(calls := s.calls + [IsFeatureSupported(f)]), b)
  }

  /** `isOneTimePurchaseSupported()`: false before initialisation, otherwise sticky `isReady()`. */
  function OneTimePurchaseProbe(s: Session, ready: bool): (Session, bool) {
    if !s.IsInitialized() then (s, false)
    else if s.oneTimePurchasesSupported then (s, true)
    else (s.(oneTimePurchasesSupported := ready, calls := s.calls + [IsReady]), ready)
  }

  // ---------------------------------------------------------------------
  // Transitions

  function SetupFinished(c: Config, s: Session, code: int, inapp: PurchasesResult, subs: PurchasesResult): Session {
    if code != OK then s
    else QueryPurchasesFromGoogle(c, s.(connected := true, events := s.events + Report(c, [BillingInitialized])), inapp, subs)
  }

  /** `initialize()` / `bindPlayServices()`: connect; on success report and restore the inventory. */
  function Initialize(c: Config, s: Session, code: int, inapp: PurchasesResult, subs: PurchasesResult): Session {
    SetupFinished(c, s.(calls := s.calls + [StartConnection]), code, inapp, subs)
  }

  function Disconnected(s: Session): Session {
    s.(connected := false)
  }

  function Release(s: Session): Session {
    if s.IsInitialized() then s.(hasClient := false, calls := s.calls + [EndConnection]) else s
  }

  /** `onPurchasesUpdated(result, purchases)`. */
  function PurchasesUpdated(c: Config, s: Session, result: BillingResult, purchases: Option<seq<Purchase>>): Session {
    if result.responseCode != OK then s.(events := s.events + Report(c, [BillingError(result)]))
    else match purchases
      case None => s
      case Some(ps) =>
        var target := if DetectPurchaseType(s.breadcrumb) == INAPP then Products else Subscriptions;
        WithCache(s, target, Deliver(c, Inventory(s, target), ps)).(events := s.events + Report(c, PurchaseEvents(c, ps)))
  }

  /** One turn of the loop of `onPurchasesUpdated`: the purchase goes into cache `t` if accepted, and its outcome is reported. */
  function DeliveryTurn(c: Config, s: Session, t: Target, p: Purchase): Session {
    WithCache(s, t, DeliverOne(c, Inventory(s, t), p)).(events := s.events + Report(c, [PurchaseEvent(c, p)]))
  }

  /** The turns of the loop of `onPurchasesUpdated`, one per purchase of `ps`, in order. */
  function DeliveryTurns(c: Config, s: Session, t: Target, ps: seq<Purchase>): Session {
    if ps == [] then s else DeliveryTurn(c, DeliveryTurns(c, s, t, ps[..|ps| - 1]), t, ps[|ps| - 1])
  }

  /** Turn by turn, the loop puts the accepted purchases into one cache and reports one event per purchase. */
  lemma {:induction false} DeliveryTurnsDeliver(c: Config, s: Session, t: Target, ps: seq<Purchase>)
    ensures DeliveryTurns(c, s, t, ps)
      == WithCache(s, t, Deliver(c, Inventory(s, t), ps)).(events := s.events + Report(c, PurchaseEvents(c, ps)))
  {
    if ps != [] {
      DeliveryTurnsDeliver(c, s, t, ps[..|ps| - 1]);
    }
  }

  /** One turn of the loop of `loadPurchasesByType`: the purchase goes into cache `t` if owned. */
  function RestoreTurn(s: Session, t: Target, p: Purchase): Session {
    WithCache(s, t, RestoreOne(Inventory(s, t), p))
  }

  /** The turns of the loop of `loadPurchasesByType`, one per purchase of `ps`, in order. */
  function RestoreTurns(s: Session, t: Target, ps: seq<Purchase>): Session {
    if ps == [] then s else RestoreTurn(RestoreTurns(s, t, ps[..|ps| - 1]), t, ps[|ps| - 1])
  }

  /** Turn by turn, the loop puts the owned purchases into one cache and changes nothing else. */
  lemma {:induction false} RestoreTurnsRestore(s: Session, t: Target, ps: seq<Purchase>)
    ensures RestoreTurns(s, t, ps) == WithCache(s, t, Restore(Inventory(s, t), ps))
  {
    if ps != [] {
      RestoreTurnsRestore(s, t, ps[..|ps| - 1]);
    }
  }

  /** `loadPurchasesByType(type, cache)`: on an OK answer the cache becomes exactly the owned purchases. */
  function LoadByType(s: Session, skuType: string, t: Target, result: PurchasesResult): (r: (Session, bool))
    ensures r.0.connected == s.connected && r.0.hasClient == s.hasClient && r.0.breadcrumb == s.breadcrumb
  {
    if !s.IsInitialized() then (s, false)
    else
      var queried := s.(calls := s.calls + [QueryPurchases(skuType)]);
      if result.responseCode != OK then (queried, false)
      else
        var ps := match result.purchases case Some(ps) => ps case None => [];
        (WithCache(queried, t, Restore(map[], ps)), true)
  }

  /** `loadOwnedPurchasesFromGoogle()`: subscriptions are loaded only after the products load succeeds. */
  function LoadOwned(s: Session, inapp: PurchasesResult, subs: PurchasesResult): (r: (Session, bool))
    ensures r.0.connected == s.connected && r.0.hasClient == s.hasClient && r.0.breadcrumb == s.breadcrumb
  {
    var (s1, ok) := LoadByType(s, INAPP, Products, inapp);
    if !ok then (s1, false) else LoadByType(s1, SUBS, Subscriptions, subs)
  }

  /** `queryPurchasesFromGoogle()`. */
  function QueryPurchasesFromGoogle(c: Config, s: Session, inapp: PurchasesResult, subs: PurchasesResult): Session {
    var (s1, ok) := LoadOwned(s, inapp, subs);
    if ok && c.hasHandler && |s1.products| > 0 then s1.(events := s1.events + [PurchaseHistoryRestored(s1.products.Keys)])
    else s1
  }

  /** The six-argument `purchase`; `oldProductId` plays no part in it. */
  function PurchaseFlow(
    c: Config, s: Session, productId: string, purchaseType: string, developerPayload: Option<string>,
    isSupportVR: bool, nonce: string, launchCode: int): (r: (Session, bool))
    ensures r.0.products == s.products && r.0.subscriptions == s.subscriptions
    ensures s.IsInitialized() && productId != "" && purchaseType != "" ==>
      r.0.breadcrumb == Some(BreadcrumbFor(purchaseType, productId, nonce, developerPayload))
  {
    if !s.IsInitialized() || productId == "" || purchaseType == "" then (s, false)
    else
      var s1 := s.(breadcrumb := Some(BreadcrumbFor(purchaseType, productId, nonce, developerPayload)));
      if productId !in s.skuDetails then (s1.(events := s.events + Report(c, [BillingError(SKU_DETAILS_NOT_FOUND)])), false)
      else (s1.(calls := s.calls + [LaunchBillingFlow(s.skuDetails[productId], isSupportVR)]), launchCode == OK)
  }

  /** `updateSubscription(activity, oldProductId, productId, developerPayload)`. */
  function UpdateSubscription(
    c: Config, s: Session, oldProductId: string, productId: string, developerPayload: Option<string>,
    nonce: string, updateCode: int, launchCode: int): (Session, bool)
  {
    var (s1, supported) := if oldProductId != "" then FeatureProbe(s, SubscriptionsUpdate, updateCode) else (s, true);
    if !supported then (s1, false)
    else PurchaseFlow(c, s1, productId, SUBS, developerPayload, false, nonce, launchCode)
  }

  /** `updateSubscriptionOnVR`: falls back to `updateSubscription` when VR subscriptions are unsupported. */
  function UpdateSubscriptionOnVR(
    c: Config, s: Session, oldProductId: string, productId: string, developerPayload: Option<string>,
    nonce: string, updateCode: int, vrCode: int, launchCode: int): (Session, bool)
  {
    var (s1, supported) := if oldProductId != "" then FeatureProbe(s, SubscriptionsUpdate, updateCode) else (s, true);
    if !supported then (s1, false)
    else
      var (s2, vr) := FeatureProbe(s1, SubscriptionsOnVR, vrCode);
      if !vr then UpdateSubscription(c, s2, oldProductId, productId, developerPayload, nonce, updateCode, launchCode)
      else PurchaseFlow(c, s2, productId, SUBS, developerPayload, true, nonce, launchCode)
  }

  /** `subscribe(activity, productId, developerPayload, isVR)`: the probe runs whatever `isVR` is. */
  function SubscribeVR(
    c: Config, s: Session, productId: string, developerPayload: Option<string>, isVR: bool,
    nonce: string, vrCode: int, launchCode: int): (Session, bool)
  {
    var (s1, vr) := FeatureProbe(s, SubscriptionsOnVR, vrCode);
    PurchaseFlow(c, s1, productId, SUBS, developerPayload, vr && isVR, nonce, launchCode)
  }

  /** `purchaseOnVR(activity, productId, developerPayload)`. */
  function PurchaseOnVR(
    c: Config, s: Session, productId: string, developerPayload: Option<string>,
    nonce: string, vrCode: int, launchCode: int): (Session, bool)
  {
    var (s1, vr) := FeatureProbe(s, InAppItemsOnVR, vrCode);
    PurchaseFlow(c, s1, productId, INAPP, developerPayload, vr, nonce, launchCode)
  }

  /** The consume listener: OK and ITEM_NOT_OWNED evict the product and clear the breadcrumb. */
  function ConsumeResponse(c: Config, s: Session, productId: string, transaction: Purchase, result: BillingResult): Session {
    if result.responseCode == OK then
      s.(products := s.products - {productId}, breadcrumb := None, events := s.events + Report(c, [ConsumeSuccess(transaction)]))
    else if result.responseCode == ITEM_NOT_OWNED then
      s.(products := s.products - {productId}, breadcrumb := None, events := s.events + Report(c, [BillingError(result)]))
    else s.(events := s.events + Report(c, [BillingError(result)]))
  }

  /** `consumePurchase(productId)` with the vendor's answer `result`. */
  function Consume(c: Config, s: Session, productId: string, result: BillingResult): Session {
    var t := TransactionDetails(s.products, productId);
    if !s.IsInitialized() || t.None? || t.value.info.purchaseToken == "" then s
    else ConsumeResponse(c, s.(calls := s.calls + [ConsumeAsync(t.value.info.purchaseToken)]), productId, t.value, result)
  }

  /** The acknowledge listener: OK clears the breadcrumb. */
  function AcknowledgeResponse(c: Config, s: Session, transaction: Purchase, result: BillingResult): Session {
    if result.responseCode == OK then s.(breadcrumb := None, events := s.events + Report(c, [AcknowledgeSuccess(transaction)]))
    else s.(events := s.events + Report(c, [BillingError(result)]))
  }

  /** `acknowledgeManagedProduct` (products) and `acknowledgeSubscription` (subscriptions). */
  function Acknowledge(c: Config, s: Session, target: Target, productId: string, result: BillingResult): Session {
    var t := TransactionDetails(Inventory(s, target), productId);
    if !s.IsInitialized() || t.None? || t.value.info.purchaseToken == "" || t.value.info.acknowledged then s
    else AcknowledgeResponse(c, s.(calls := s.calls + [AcknowledgePurchase(t.value.info.purchaseToken)]), t.value, result)
  }

  /** `getSkuDetailsAsync(productIds, type)`: the catalog is filled only when a handler is registered. */
  function SkuDetailsQuery(
    c: Config, s: Session, productIds: seq<string>, skuType: string, result: BillingResult, details: seq<SkuDetails>): Session
  {
    if productIds == [] then s
    else
      var s1 := s.(calls := s.calls + [QuerySkuDetailsAsync(productIds, skuType)]);
      if result.responseCode != OK then s1.(events := s.events + Report(c, [BillingError(result)]))
      else if c.hasHandler then s1.(skuDetails := PutDetails(s.skuDetails, details), events := s.events + [QuerySkuDetails(details)])
      else s1
  }

  // ---------------------------------------------------------------------
  // Properties

  /**
   * The breadcrumb classifies the purchase that follows: it reads as a
   * subscription exactly when its type starts with "subs".
   */
  lemma BreadcrumbClassifies(purchaseType: string, productId: string, nonce: string, developerPayload: Option<string>)
    ensures DetectPurchaseType(Some(BreadcrumbFor(purchaseType, productId, nonce, developerPayload)))
      == if StartsWith(purchaseType, SUBS) then SUBS else INAPP
  {
    var b := BreadcrumbFor(purchaseType, productId, nonce, developerPayload);
    var rest := b[|purchaseType|..];
    assert b == purchaseType + rest;
    assert rest[0] == ':';
    if |purchaseType| >= |SUBS| {
      assert b[..|SUBS|] == purchaseType[..|SUBS|];
    } else {
      assert b[|purchaseType|] == ':';
    }
  }

  /** A subscription breadcrumb carries no nonce; any other carries it, so different nonces of one length give different breadcrumbs. */
  lemma BreadcrumbNonce(purchaseType: string, productId: string, n1: string, n2: string, developerPayload: Option<string>)
    ensures purchaseType == SUBS ==>
      BreadcrumbFor(purchaseType, productId, n1, developerPayload) == BreadcrumbFor(purchaseType, productId, n2, developerPayload)
    ensures purchaseType != SUBS && |n1| == |n2| && n1 != n2 ==>
      BreadcrumbFor(purchaseType, productId, n1, developerPayload) != BreadcrumbFor(purchaseType, productId, n2, developerPayload)
  {
    if purchaseType != SUBS && |n1| == |n2| && n1 != n2 {
      var head := purchaseType + ":" + productId + ":";
      var b1 := BreadcrumbFor(purchaseType, productId, n1, developerPayload);
      var b2 := BreadcrumbFor(purchaseType, productId, n2, developerPayload);
      assert b1[|head|..|head| + |n1|] == n1;
      assert b2[|head|..|head| + |n2|] == n2;
    }
  }

  /** The breadcrumb starts with `type:productId` and ends with `:developerPayload` when a payload is given. */
  lemma BreadcrumbFrame(purchaseType: string, productId: string, nonce: string, developerPayload: Option<string>)
    ensures StartsWith(BreadcrumbFor(purchaseType, productId, nonce, developerPayload), purchaseType + ":" + productId)
    ensures developerPayload.Some? ==>
      var b := BreadcrumbFor(purchaseType, productId, nonce, developerPayload);
      var tail := ":" + developerPayload.value;
      |tail| <= |b| && b[|b| - |tail|..] == tail
  {
    var head := purchaseType + ":" + productId;
    var b := BreadcrumbFor(purchaseType, productId, nonce, developerPayload);
    assert b[..|head|] == head;
  }

  /** Some accepted purchase of `ps` has the id `k`. */
  ghost predicate DeliversId(c: Config, ps: seq<Purchase>, k: string) {
    exists i :: 0 <= i < |ps| && Accepted(c, ps[i]) && ps[i].info.sku == k
  }

  /** Delivery adds exactly the ids of accepted purchases and never replaces an entry. */
  lemma {:induction false} DeliverKeys(c: Config, m: map<string, Purchase>, ps: seq<Purchase>)
    ensures forall k :: k in Deliver(c, m, ps) <==> k in m || DeliversId(c, ps, k)
    ensures forall k :: k in m ==> Deliver(c, m, ps)[k] == m[k]
  {
    if ps != [] {
      var front := ps[..|ps| - 1];
      var last := ps[|ps| - 1];
      DeliverKeys(c, m, front);
      forall k
        ensures DeliversId(c, ps, k) <==> DeliversId(c, front, k) || (Accepted(c, last) && last.info.sku == k)
      {
        if DeliversId(c, ps, k) {
          var i :| 0 <= i < |ps| && Accepted(c, ps[i]) && ps[i].info.sku == k;
          if i < |front| {
            assert front[i] == ps[i];
          }
        }
        if DeliversId(c, front, k) {
          var i :| 0 <= i < |front| && Accepted(c, front[i]) && front[i].info.sku == k;
          assert ps[i] == front[i];
        }
      }
    }
  }

  /** A delivery in which every signature fails leaves the cache as it was. */
  lemma AllRejectedChangesNothing(c: Config, m: map<string, Purchase>, ps: seq<Purchase>)
    requires forall i :: 0 <= i < |ps| ==> !Accepted(c, ps[i])
    ensures Deliver(c, m, ps) == m
  {
    DeliverKeys(c, m, ps);
  }

  /** With an empty licence key every purchase is accepted, whatever the signature check says. */
  lemma EmptyLicenceDeliversAll(c: Config, m: map<string, Purchase>, ps: seq<Purchase>)
    requires c.licenseKey == ""
    ensures forall k :: k in Deliver(c, m, ps) <==> k in m || exists i :: 0 <= i < |ps| && ps[i].info.sku == k
    ensures PurchaseEvents(c, ps) == seq(|ps|, i requires 0 <= i < |ps| => ProductPurchased(ps[i]))
  {
    DeliverKeys(c, m, ps);
    EventsAt(c, ps);
  }

  lemma {:induction false} EventsAt(c: Config, ps: seq<Purchase>)
    ensures forall i :: 0 <= i < |ps| ==> PurchaseEvents(c, ps)[i] == PurchaseEvent(c, ps[i])
  {
    if ps != [] {
      EventsAt(c, ps[..|ps| - 1]);
    }
  }

  /** Some owned purchase of `ps` has the id `k`. */
  ghost predicate RestoresId(ps: seq<Purchase>, k: string) {
    exists i :: 0 <= i < |ps| && Owned(ps[i]) && ps[i].info.sku == k
  }

  /**
   * A restore holds exactly the ids of the owned purchases, each bound to an
   * owned purchase of that id from the list.
   */
  lemma {:induction false} RestoreExactly(ps: seq<Purchase>)
    ensures forall k :: k in Restore(map[], ps) <==> RestoresId(ps, k)
    ensures forall k :: k in Restore(map[], ps) ==>
      exists i :: 0 <= i < |ps| && Owned(ps[i]) && ps[i].info.sku == k && Restore(map[], ps)[k] == ps[i]
  {
    if ps != [] {
      var front := ps[..|ps| - 1];
      var last := ps[|ps| - 1];
      RestoreExactly(front);
      forall k
        ensures RestoresId(ps, k) <==> RestoresId(front, k) || (Owned(last) && last.info.sku == k)
      {
        if RestoresId(ps, k) {
          var i :| 0 <= i < |ps| && Owned(ps[i]) && ps[i].info.sku == k;
          if i < |front| {
            assert front[i] == ps[i];
          }
        }
        if RestoresId(front, k) {
          var i :| 0 <= i < |front| && Owned(front[i]) && front[i].info.sku == k;
          assert ps[i] == front[i];
        }
      }
      var r := Restore(map[], ps);
      forall k | k in r
        ensures exists i :: 0 <= i < |ps| && Owned(ps[i]) && ps[i].info.sku == k && r[k] == ps[i]
      {
        if k in Restore(map[], front) {
          var i :| 0 <= i < |front| && Owned(front[i]) && front[i].info.sku == k && Restore(map[], front)[k] == front[i];
          assert ps[i] == front[i];
        } else {
          assert r[k] == last;
        }
      }
    }
  }

  /**
   * A purchase flow of type `t` followed by an OK purchase update delivers
   * into the subscription cache exactly when `t` starts with "subs".
   */
  lemma FlowThenUpdateRoutes(
    c: Config, s: Session, productId: string, purchaseType: string, developerPayload: Option<string>,
    isSupportVR: bool, nonce: string, launchCode: int, debugMessage: string, ps: seq<Purchase>)
    requires s.IsInitialized() && productId != "" && purchaseType != ""
    ensures var s1 := PurchaseFlow(c, s, productId, purchaseType, developerPayload, isSupportVR, nonce, launchCode).0;
      var r := PurchasesUpdated(c, s1, BillingResult(OK, debugMessage), Some(ps));
      && (StartsWith(purchaseType, SUBS) ==> r.products == s.products && r.subscriptions == Deliver(c, s.subscriptions, ps))
      && (!StartsWith(purchaseType, SUBS) ==> r.subscriptions == s.subscriptions && r.products == Deliver(c, s.products, ps))
  {
    var s1 := PurchaseFlow(c, s, productId, purchaseType, developerPayload, isSupportVR, nonce, launchCode).0;
    BreadcrumbClassifies(purchaseType, productId, nonce, developerPayload);
    UpdateFollowsBreadcrumb(c, s1, debugMessage, ps);
  }

  /** An OK purchase update delivers into the cache the breadcrumb's type names, and leaves the other one alone. */
  lemma UpdateFollowsBreadcrumb(c: Config, s: Session, debugMessage: string, ps: seq<Purchase>)
    ensures var r := PurchasesUpdated(c, s, BillingResult(OK, debugMessage), Some(ps));
      && (DetectPurchaseType(s.breadcrumb) == SUBS ==> r.products == s.products && r.subscriptions == Deliver(c, s.subscriptions, ps))
      && (DetectPurchaseType(s.breadcrumb) == INAPP ==> r.subscriptions == s.subscriptions && r.products == Deliver(c, s.products, ps))
  {
  }

  /** A failed or refused inventory query for products leaves the subscriptions unqueried and untouched. */
  lemma SubscriptionsNeedProducts(s: Session, inapp: PurchasesResult, subs: PurchasesResult)
    requires !s.IsInitialized() || inapp.responseCode != OK
    ensures var (r, ok) := LoadOwned(s, inapp, subs);
      && !ok && r.subscriptions == s.subscriptions && r.products == s.products
      && QueryPurchases(SUBS) !in r.calls[|s.calls|..]
  {
  }

  /**
   * After the load, `onPurchaseHistoryRestored` with the restored product ids
   * is the one event added, exactly when both loads succeed, a handler exists
   * and products were restored; nothing else changes.
   */
  lemma HistoryRestoredWhen(c: Config, s: Session, inapp: PurchasesResult, subs: PurchasesResult)
    ensures var (s1, ok) := LoadOwned(s, inapp, subs);
      var r := QueryPurchasesFromGoogle(c, s, inapp, subs);
      && r.events == s1.events + (if ok && c.hasHandler && |s1.products| > 0 then [PurchaseHistoryRestored(s1.products.Keys)] else [])
      && r == s1.(events := r.events)
  {
  }

  /** Once a probe has answered true, it answers true again without asking the vendor. */
  lemma ProbeSticky(s: Session, f: Feature, code1: int, code2: int)
    ensures var (s1, b1) := FeatureProbe(s, f, code1);
      b1 ==> FeatureProbe(s1, f, code2) == (s1, true)
  {
  }

  /**
   * After `release()`, a probe whose flag is unset dereferences the null
   * client as written; with the null check it answers false without a call.
   */
  lemma ProbeAfterRelease(s: Session, f: Feature, code: int)
    requires s.IsInitialized() && !FeatureFlag(s, f)
    ensures var r := Release(s);
      && ProbeAsWritten(FeatureFlag(r, f), r.hasClient, code) == NullClientDereference
      && FeatureProbe(r, f, code) == (r, false)
  {
  }

  /** The corrected probe agrees with the source wherever the source does not fail. */
  lemma ProbeAnswerAgrees(flag: bool, hasClient: bool, code: int)
    ensures ProbeAsWritten(flag, hasClient, code).Answered? ==>
      ProbeAsWritten(flag, hasClient, code).supported == ProbeAnswer(flag, hasClient, code)
    ensures ProbeAsWritten(flag, hasClient, code).NullClientDereference? <==> !flag && !hasClient
  {
  }

  /** Each call path of `subscribe(.., isVR)`, `purchaseOnVR` and `updateSubscription` ends in `FeatureProbe`, whose answer is `ProbeAnswer`. */
  lemma FeatureProbeAnswers(s: Session, f: Feature, code: int)
    ensures FeatureProbe(s, f, code).1 == ProbeAnswer(FeatureFlag(s, f), s.hasClient, code)
    ensures FeatureFlag(FeatureProbe(s, f, code).0, f) == ProbeAnswer(FeatureFlag(s, f), s.hasClient, code)
  {
  }

  /** The guards of `purchase`: no initialisation, no product id or no type means no breadcrumb, no call and false. */
  lemma PurchaseGuards(
    c: Config, s: Session, productId: string, purchaseType: string, developerPayload: Option<string>,
    isSupportVR: bool, nonce: string, launchCode: int)
    requires !s.IsInitialized() || productId == "" || purchaseType == ""
    ensures PurchaseFlow(c, s, productId, purchaseType, developerPayload, isSupportVR, nonce, launchCode) == (s, false)
  {
  }

  /** A purchase of an unknown product overwrites the breadcrumb, reports DEVELOPER_ERROR and returns false. */
  lemma MissingDetailsReported(
    c: Config, s: Session, productId: string, purchaseType: string, developerPayload: Option<string>,
    isSupportVR: bool, nonce: string, launchCode: int)
    requires s.IsInitialized() && productId != "" && purchaseType != "" && productId !in s.skuDetails
    ensures var (r, ok) := PurchaseFlow(c, s, productId, purchaseType, developerPayload, isSupportVR, nonce, launchCode);
      && !ok && r.calls == s.calls
      && r.breadcrumb == Some(BreadcrumbFor(purchaseType, productId, nonce, developerPayload))
      && r.events == s.events + Report(c, [BillingError(BillingResult(DEVELOPER_ERROR, "SkuDetails not found"))])
  {
  }

  /** Consume: OK and ITEM_NOT_OWNED evict the product and clear the breadcrumb; any other code changes neither. */
  lemma ConsumeOutcomes(c: Config, s: Session, productId: string, result: BillingResult)
    requires s.IsInitialized()
    requires productId in s.products && s.products[productId].originalJson != ""
    requires s.products[productId].info.purchaseToken != ""
    ensures var r := Consume(c, s, productId, result);
      && r.calls == s.calls + [ConsumeAsync(s.products[productId].info.purchaseToken)]
      && r.subscriptions == s.subscriptions
      && (result.responseCode == OK || result.responseCode == ITEM_NOT_OWNED ==>
            r.products == s.products - {productId} && r.breadcrumb.None?)
      && (result.responseCode != OK && result.responseCode != ITEM_NOT_OWNED ==>
            r.products == s.products && r.breadcrumb == s.breadcrumb)
      && r.events == s.events + Report(c, [if result.responseCode == OK then ConsumeSuccess(s.products[productId]) else BillingError(result)])
  {
    var p := s.products[productId];
    assert TransactionDetails(s.products, productId) == Some(p);
    var s1 := s.(calls := s.calls + [ConsumeAsync(p.info.purchaseToken)]);
    assert Consume(c, s, productId, result) == ConsumeResponse(c, s1, productId, p, result);
  }

  /** Consume and acknowledge do nothing before initialisation or without a stored transaction and token. */
  lemma NoTransactionNoEffect(c: Config, s: Session, t: Target, productId: string, result: BillingResult)
    requires !s.IsInitialized() || productId !in Inventory(s, t)
      || Inventory(s, t)[productId].originalJson == "" || Inventory(s, t)[productId].info.purchaseToken == ""
    ensures t == Products ==> Consume(c, s, productId, result) == s
    ensures Acknowledge(c, s, t, productId, result) == s
  {
  }

  /** Acknowledging a record already acknowledged makes no vendor call and changes nothing. */
  lemma AcknowledgedIsNoOp(c: Config, s: Session, t: Target, productId: string, result: BillingResult)
    requires productId in Inventory(s, t) && Inventory(s, t)[productId].info.acknowledged
    ensures Acknowledge(c, s, t, productId, result) == s
  {
  }

  /** `release()` ends the session: nothing is initialised afterwards and every purchase is refused. */
  lemma ReleaseEndsSession(
    c: Config, s: Session, productId: string, purchaseType: string, developerPayload: Option<string>,
    isSupportVR: bool, nonce: string, launchCode: int)
    ensures !Release(s).IsInitialized()
    ensures !Release(Disconnected(s)).IsInitialized()
    ensures PurchaseFlow(c, Release(s), productId, purchaseType, developerPayload, isSupportVR, nonce, launchCode).1 == false
  {
  }

  /** Setup connects only on OK, and a disconnect always clears the flag. */
  lemma ConnectionFlag(c: Config, s: Session, code: int, inapp: PurchasesResult, subs: PurchasesResult)
    ensures Initialize(c, s, code, inapp, subs).connected <==> code == OK || s.connected
    ensures !Disconnected(s).connected
  {
  }

  /** The catalog lookup finds every entry of an OK answer, the last one for a repeated id. */
  lemma {:induction false} PutDetailsFinds(m: map<string, SkuDetails>, ds: seq<SkuDetails>, i: nat)
    requires i < |ds|
    requires forall j :: i < j < |ds| ==> ds[j].sku != ds[i].sku
    ensures ds[i].sku in PutDetails(m, ds) && PutDetails(m, ds)[ds[i].sku] == ds[i]
  {
    if i < |ds| - 1 {
      PutDetailsFinds(m, ds[..|ds| - 1], i);
    }
  }
}
