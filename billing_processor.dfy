/**
 * `BillingProcessor`: the object an application talks to. It owns the two
 * caches, writes the purchase breadcrumb, keeps the connection and
 * capability flags and the catalog, and reports to the handler. Every
 * method is tied to the transition of the same name in `Coordinator`.
 */
module Processor {
  import opened Wrappers
  import opened Billing
  import opened Store
  import opened Cache
  import opened Coordinator

  function Other(t: Target): Target {
    match t
    case Products => Subscriptions
    case Subscriptions => Products
  }

  class BillingProcessor {
    const prefs: Preferences
    const baseKey: string
    const config: Config
    const cachedProducts: BillingCache
    const cachedSubscriptions: BillingCache

    var serviceConnected: bool
    /** `mBillingClient != null`. */
    var hasClient: bool
    var skuDetailsCache: map<string, SkuDetails>
    var oneTimePurchasesSupported: bool
    var subsUpdateSupported: bool
    var subscriptionOnVRSupported: bool
    var oneTimePurchaseOnVRSupported: bool
    /** Calls made on the handler, oldest first. */
    var events: seq<Event>
    /** Requests made of the vendor client, oldest first. */
    var calls: seq<VendorCall>

    /** Both caches live in this processor's store, under its base key. */
    ghost predicate Valid() {
      && cachedProducts != cachedSubscriptions
      && cachedProducts.prefs == prefs && cachedSubscriptions.prefs == prefs
      && cachedProducts.PreferencesCacheKey() == baseKey + MANAGED_PRODUCTS_CACHE_KEY
      && cachedSubscriptions.PreferencesCacheKey() == baseKey + SUBSCRIPTIONS_CACHE_KEY
    }

    function PayloadKey(): string {
      baseKey + PURCHASE_PAYLOAD_CACHE_KEY
    }

    /** `getPurchasePayload()`. */
    function GetPurchasePayload(): Option<string>
      reads prefs
    {
      prefs.Load(PayloadKey())
    }

    function CacheOf(t: Target): BillingCache {
      match t
      case Products => cachedProducts
      case Subscriptions => cachedSubscriptions
    }

    predicate IsInitialized()
      reads this
    {
      serviceConnected && hasClient
    }

    /** The processor's state as the coordinator sees it. */
    ghost function State(): Session
      reads this, cachedProducts, cachedSubscriptions, prefs, cachedProducts.prefs, cachedSubscriptions.prefs
    {
      Session(
        serviceConnected, hasClient,
        cachedProducts.View(), cachedSubscriptions.View(),
        GetPurchasePayload(),
        skuDetailsCache,
        oneTimePurchasesSupported, subsUpdateSupported, subscriptionOnVRSupported, oneTimePurchaseOnVRSupported,
        events, calls)
    }

    /** `newBillingProcessor(context, licenseKey, handler)`: both caches load, nothing is bound yet. */
    constructor (prefs: Preferences, baseKey: string, config: Config, readJson: JsonReader)
      ensures Valid() && this.prefs == prefs && this.baseKey == baseKey && this.config == config
      ensures fresh(cachedProducts) && fresh(cachedSubscriptions)
      ensures State() == Session(
        false, true,
        CacheCodec.Decode(readJson, prefs.LoadString(baseKey + MANAGED_PRODUCTS_CACHE_KEY, "")),
        CacheCodec.Decode(readJson, prefs.LoadString(baseKey + SUBSCRIPTIONS_CACHE_KEY, "")),
        prefs.Load(baseKey + PURCHASE_PAYLOAD_CACHE_KEY),
        map[], false, false, false, false, [], [])
    {
      this.prefs := prefs;
      this.baseKey := baseKey;
      this.config := config;
      cachedProducts := new BillingCache(prefs, baseKey, MANAGED_PRODUCTS_CACHE_KEY, readJson);
      cachedSubscriptions := new BillingCache(prefs, baseKey, SUBSCRIPTIONS_CACHE_KEY, readJson);
      serviceConnected := false;
      hasClient := true;
      skuDetailsCache := map[];
      oneTimePurchasesSupported := false;
      subsUpdateSupported := false;
      subscriptionOnVRSupported := false;
      oneTimePurchaseOnVRSupported := false;
      events := [];
      calls := [];
    }

    /** `reportBillingError` and the other handler calls. */
    method Notify(e: Event)
      modifies this
      ensures State() == old(State()).(events := old(events) + Report(config, [e]))
      ensures unchanged(this`serviceConnected, this`hasClient)
    {
      if config.hasHandler {
        events := events + [e];
      }
    }

    /** A request to the vendor's billing client, recorded in the call log. */
    method Call(request: VendorCall)
      modifies this`calls
      ensures State() == old(State()).(calls := old(calls) + [request])
    {
      calls := calls + [request];
    }

    /** `savePurchasePayload(value)`; `None` removes the breadcrumb. */
    method SavePurchasePayload(value: Option<string>)
      requires Valid()
      modifies prefs
      ensures State() == old(State()).(breadcrumb := value)
    {
      label Before:
      prefs.SaveString(PayloadKey(), value);
      PayloadStep@Before();
    }

    /** `initialize()`: connect; on OK, report and restore the inventory with the answers `inapp` and `subs`. */
    method Initialize(setupCode: int, inapp: PurchasesResult, subs: PurchasesResult, now: nat)
      requires Valid() && hasClient
      modifies this, cachedProducts, cachedSubscriptions, prefs
      ensures State() == Coordinator.Initialize(config, old(State()), setupCode, inapp, subs)
    {
      Call(StartConnection);
      if setupCode == OK {
        serviceConnected := true;
        Notify(BillingInitialized);
        QueryPurchasesFromGoogle(inapp, subs, now);
      }
    }

    /** `onBillingServiceDisconnected()`. */
    method OnBillingServiceDisconnected()
      modifies this
      ensures State() == Disconnected(old(State()))
    {
      serviceConnected := false;
    }

    /** `release()`: ends the connection and drops the client, only when initialised. */
    method Release()
      modifies this
      ensures State() == Coordinator.Release(old(State()))
    {
      if IsInitialized() {
        Call(EndConnection);
        hasClient := false;
      }
    }

    /** Only the breadcrumb key changed. */
    twostate lemma PayloadStep()
      requires Valid()
      requires unchanged(this) && unchanged(cachedProducts) && unchanged(cachedSubscriptions)
      requires SameExcept(prefs.values, old(prefs.values), {PayloadKey()})
      ensures State() == old(State()).(breadcrumb := GetPurchasePayload())
    {
      assert cachedProducts.StoredData() == old(cachedProducts.StoredData());
      assert cachedProducts.CurrentVersion() == old(cachedProducts.CurrentVersion());
      assert cachedSubscriptions.StoredData() == old(cachedSubscriptions.StoredData());
      assert cachedSubscriptions.CurrentVersion() == old(cachedSubscriptions.CurrentVersion());
    }

    /** Only cache `t` changed, and only under its own keys. */
    twostate lemma CacheStep(t: Target)
      requires Valid()
      requires unchanged(this) && unchanged(CacheOf(Other(t)))
      requires CacheOf(t).OwnKeysOnly(old(prefs.values))
      ensures State() == WithCache(old(State()), t, CacheOf(t).View())
      ensures CacheOf(Other(t)).Stale() == old(CacheOf(Other(t)).Stale())
    {
      var other := CacheOf(Other(t));
      assert other.StoredData() == old(other.StoredData());
      assert other.CurrentVersion() == old(other.CurrentVersion());
      assert GetPurchasePayload() == old(GetPurchasePayload());
    }

    /** `loadPurchasesByType(type, cache)` with the vendor's answer `result`. */
    method LoadPurchasesByType(skuType: string, t: Target, result: PurchasesResult, now: nat) returns (ok: bool)
      requires Valid()
      modifies this, cachedProducts, cachedSubscriptions, prefs
      ensures (State(), ok) == LoadByType(old(State()), skuType, t, result)
      ensures ok ==> !CacheOf(t).Stale()
      ensures CacheOf(Other(t)).Stale() == old(CacheOf(Other(t)).Stale())
    {
      if !IsInitialized() {
        return false;
      }
      Call(QueryPurchases(skuType));
      if result.responseCode != OK {
        return false;
      }
      var cache := CacheOf(t);
      ghost var queried := State();
      label Cleared:
      cache.Clear(now);
      CacheStep@Cleared(t);
      var ps := match result.purchases case Some(ps) => ps case None => [];
      RestorePurchases(t, ps, now);
      ok := true;
    }

    /** The loop of `loadPurchasesByType`: every owned purchase of `ps` is put into cache `t`. */
    method RestorePurchases(t: Target, ps: seq<Purchase>, now: nat)
      requires Valid() && !CacheOf(t).Stale()
      modifies this, cachedProducts, cachedSubscriptions, prefs
      ensures State() == WithCache(old(State()), t, Restore(Inventory(old(State()), t), ps))
      ensures !CacheOf(t).Stale()
      ensures CacheOf(Other(t)).Stale() == old(CacheOf(Other(t)).Stale())
    {
      var cache := CacheOf(t);
      ghost var start := State();
      for i := 0 to |ps|
        invariant State() == RestoreTurns(start, t, ps[..i])
        invariant !cache.Stale()
        invariant CacheOf(Other(t)).Stale() == old(CacheOf(Other(t)).Stale())
      {
        RestorePurchase(t, ps[i], now);
        assert ps[..i + 1][..i] == ps[..i];
      }
      assert ps[..|ps|] == ps;
      RestoreTurnsRestore(start, t, ps);
    }

    /** One turn of the loop of `loadPurchasesByType`: an owned purchase is put into cache `t`. */
    method RestorePurchase(t: Target, purchase: Purchase, now: nat)
      requires Valid() && !CacheOf(t).Stale()
      modifies this, cachedProducts, cachedSubscriptions, prefs
      ensures State() == RestoreTurn(old(State()), t, purchase)
      ensures !CacheOf(t).Stale()
      ensures CacheOf(Other(t)).Stale() == old(CacheOf(Other(t)).Stale())
    {
      if purchase.info.state == Purchased || purchase.info.state == UnspecifiedState {
        label Before:
        CacheOf(t).Put(purchase.info.sku, purchase, now);
        CacheStep@Before(t);
      }
    }

    /** `loadOwnedPurchasesFromGoogle()`. */
    method LoadOwnedPurchasesFromGoogle(inapp: PurchasesResult, subs: PurchasesResult, now: nat) returns (ok: bool)
      requires Valid()
      modifies this, cachedProducts, cachedSubscriptions, prefs
      ensures (State(), ok) == LoadOwned(old(State()), inapp, subs)
      ensures ok ==> !cachedProducts.Stale()
    {
      ok := LoadPurchasesByType(INAPP, Products, inapp, now);
      if ok {
        ok := LoadPurchasesByType(SUBS, Subscriptions, subs, now);
      }
    }

    /** `queryPurchasesFromGoogle()`. */
    method QueryPurchasesFromGoogle(inapp: PurchasesResult, subs: PurchasesResult, now: nat)
      requires Valid()
      modifies this, cachedProducts, cachedSubscriptions, prefs
      ensures State() == Coordinator.QueryPurchasesFromGoogle(config, old(State()), inapp, subs)
    {
      var ok := LoadOwnedPurchasesFromGoogle(inapp, subs, now);
      if ok && config.hasHandler {
        var contents := cachedProducts.GetContents();
        if |contents| > 0 {
          Notify(PurchaseHistoryRestored(contents));
        }
      }
    }

    /** `onPurchasesUpdated(result, purchases)` at clock reading `now`. */
    method OnPurchasesUpdated(result: BillingResult, purchases: Option<seq<Purchase>>, now: nat)
      requires Valid()
      modifies this, cachedProducts, cachedSubscriptions, prefs
      ensures State() == PurchasesUpdated(config, old(State()), result, purchases)
    {
      if result.responseCode != OK {
        Notify(BillingError(result));
        return;
      }
      if purchases.None? {
        return;
      }
      var t := if DetectPurchaseType(GetPurchasePayload()) == INAPP then Products else Subscriptions;
      DeliverAll(t, purchases.value, now);
    }

    /** The loop of `onPurchasesUpdated` over the delivered purchases `ps`. */
    method DeliverAll(t: Target, ps: seq<Purchase>, now: nat)
      requires Valid()
      requires t == if DetectPurchaseType(GetPurchasePayload()) == INAPP then Products else Subscriptions
      modifies this, cachedProducts, cachedSubscriptions, prefs
      ensures State() == WithCache(old(State()), t, Deliver(config, Inventory(old(State()), t), ps))
        .(events := old(events) + Report(config, PurchaseEvents(config, ps)))
    {
      ghost var start := State();
      for i := 0 to |ps|
        invariant GetPurchasePayload() == start.breadcrumb
        invariant State() == DeliveryTurns(config, start, t, ps[..i])
      {
        DeliverPurchase(t, ps[i], now);
        assert ps[..i + 1][..i] == ps[..i];
      }
      assert ps[..|ps|] == ps;
      DeliveryTurnsDeliver(config, start, t, ps);
    }

    /** One turn of the loop of `onPurchasesUpdated`: the signature gate, then `put` into the cache the breadcrumb names. */
    method DeliverPurchase(t: Target, purchase: Purchase, now: nat)
      requires Valid()
      requires t == if DetectPurchaseType(GetPurchasePayload()) == INAPP then Products else Subscriptions
      modifies this, cachedProducts, cachedSubscriptions, prefs
      ensures State() == DeliveryTurn(config, old(State()), t, purchase)
    {
      if VerifyPurchaseSignature(config, purchase.info.sku, purchase.originalJson, purchase.signature) {
        var cache := if DetectPurchaseType(GetPurchasePayload()) == INAPP then cachedProducts else cachedSubscriptions;
        label Before:
        cache.Put(purchase.info.sku, purchase, now);
        CacheStep@Before(t);
        Notify(ProductPurchased(purchase));
      } else {
        Notify(BillingError(SIGNATURE_MISMATCH));
      }
    }

    /**
     * The six-argument `purchase`: guards, breadcrumb, catalog lookup, then
     * the billing flow whose answer is `launchCode`. `oldProductId` is not used.
     */
    method Purchase(
      oldProductId: string, productId: string, purchaseType: string, developerPayload: Option<string>,
      isSupportVR: bool, nonce: string, launchCode: int) returns (ok: bool)
      requires Valid()
      modifies this, prefs
      ensures (State(), ok) == PurchaseFlow(config, old(State()), productId, purchaseType, developerPayload, isSupportVR, nonce, launchCode)
    {
      if !IsInitialized() || productId == "" || purchaseType == "" {
        return false;
      }
      SavePurchasePayload(Some(BreadcrumbFor(purchaseType, productId, nonce, developerPayload)));
      var details := GetSkuDetails(productId);
      if details.None? {
        Notify(BillingError(SKU_DETAILS_NOT_FOUND));
        return false;
      }
      Call(LaunchBillingFlow(details.value, isSupportVR));
      ok := launchCode == OK;
    }

    /** `purchase(activity, productId, developerPayload)`. */
    method PurchaseProduct(productId: string, developerPayload: Option<string>, nonce: string, launchCode: int) returns (ok: bool)
      requires Valid()
      modifies this, prefs
      ensures (State(), ok) == PurchaseFlow(config, old(State()), productId, INAPP, developerPayload, false, nonce, launchCode)
    {
      ok := Purchase("", productId, INAPP, developerPayload, false, nonce, launchCode);
    }

    /** `subscribe(activity, productId, developerPayload)`. */
    method Subscribe(productId: string, developerPayload: Option<string>, nonce: string, launchCode: int) returns (ok: bool)
      requires Valid()
      modifies this, prefs
      ensures (State(), ok) == PurchaseFlow(config, old(State()), productId, SUBS, developerPayload, false, nonce, launchCode)
    {
      ok := Purchase("", productId, SUBS, developerPayload, false, nonce, launchCode);
    }

    /** `getSkuDetails(productId)`, also `getPurchaseListingDetails` and `getSubscriptionListingDetails`. */
    function GetSkuDetails(productId: string): Option<SkuDetails>
      reads this
    {
      if productId in skuDetailsCache then Some(skuDetailsCache[productId]) else None
    }

    /** The three feature probes, with the vendor's answer `code`. */
    method FeatureSupported(f: Feature, code: int) returns (supported: bool)
      modifies this
      ensures (State(), supported) == FeatureProbe(old(State()), f, code)
    {
      var flag := match f
        case SubscriptionsUpdate => subsUpdateSupported
        case SubscriptionsOnVR => subscriptionOnVRSupported
        case InAppItemsOnVR => oneTimePurchaseOnVRSupported;
      if flag {
        return true;
      }
      if !hasClient {
        return false;
      }
      Call(IsFeatureSupported(f));
      supported := code == OK;
      match f
      case SubscriptionsUpdate => subsUpdateSupported := supported;
      case SubscriptionsOnVR => subscriptionOnVRSupported := supported;
      case InAppItemsOnVR => oneTimePurchaseOnVRSupported := supported;
    }

    /** `isOneTimePurchaseSupported()` with the vendor's `isReady()` answer. */
    method IsOneTimePurchaseSupported(ready: bool) returns (supported: bool)
      modifies this
      ensures (State(), supported) == OneTimePurchaseProbe(old(State()), ready)
    {
      if !IsInitialized() {
        return false;
      }
      if oneTimePurchasesSupported {
        return true;
      }
      Call(IsReady);
      oneTimePurchasesSupported := ready;
      supported := ready;
    }

    /** `updateSubscription(activity, oldProductId, productId, developerPayload)`. */
    method UpdateSubscription(
      oldProductId: string, productId: string, developerPayload: Option<string>,
      nonce: string, updateCode: int, launchCode: int) returns (ok: bool)
      requires Valid()
      modifies this, prefs
      ensures (State(), ok) == Coordinator.UpdateSubscription(
        config, old(State()), oldProductId, productId, developerPayload, nonce, updateCode, launchCode)
    {
      if oldProductId != "" {
        var supported := FeatureSupported(SubscriptionsUpdate, updateCode);
        if !supported {
          return false;
        }
      }
      ok := Purchase(oldProductId, productId, SUBS, developerPayload, false, nonce, launchCode);
    }

    /** `updateSubscriptionOnVR(activity, oldProductId, productId, developerPayload)`. */
    method UpdateSubscriptionOnVR(
      oldProductId: string, productId: string, developerPayload: Option<string>,
      nonce: string, updateCode: int, vrCode: int, launchCode: int) returns (ok: bool)
      requires Valid()
      modifies this, prefs
      ensures (State(), ok) == Coordinator.UpdateSubscriptionOnVR(
        config, old(State()), oldProductId, productId, developerPayload, nonce, updateCode, vrCode, launchCode)
    {
      if oldProductId != "" {
        var supported := FeatureSupported(SubscriptionsUpdate, updateCode);
        if !supported {
          return false;
        }
      }
      var vr := FeatureSupported(SubscriptionsOnVR, vrCode);
      if !vr {
        ok := UpdateSubscription(oldProductId, productId, developerPayload, nonce, updateCode, launchCode);
        return;
      }
      ok := Purchase(oldProductId, productId, SUBS, developerPayload, true, nonce, launchCode);
    }

    /** `subscribe(activity, productId, developerPayload, isVR)`. */
    method SubscribeVR(
      productId: string, developerPayload: Option<string>, isVR: bool,
      nonce: string, vrCode: int, launchCode: int) returns (ok: bool)
      requires Valid()
      modifies this, prefs
      ensures (State(), ok) == Coordinator.SubscribeVR(config, old(State()), productId, developerPayload, isVR, nonce, vrCode, launchCode)
    {
      var vr := FeatureSupported(SubscriptionsOnVR, vrCode);
      ok := Purchase("", productId, SUBS, developerPayload, vr && isVR, nonce, launchCode);
    }

    /** `purchaseOnVR(activity, productId, developerPayload)`. */
    method PurchaseOnVR(
      productId: string, developerPayload: Option<string>,
      nonce: string, vrCode: int, launchCode: int) returns (ok: bool)
      requires Valid()
      modifies this, prefs
      ensures (State(), ok) == Coordinator.PurchaseOnVR(config, old(State()), productId, developerPayload, nonce, vrCode, launchCode)
    {
      var vr := FeatureSupported(InAppItemsOnVR, vrCode);
      if !vr {
        ok := PurchaseProduct(productId, developerPayload, nonce, launchCode);
      } else {
        ok := Purchase("", productId, INAPP, developerPayload, true, nonce, launchCode);
      }
    }

    /** `getPurchaseTransactionDetails(productId)` / `getSubscriptionTransactionDetails(productId)`. */
    method TransactionDetailsIn(t: Target, productId: string) returns (details: Option<Purchase>)
      requires Valid()
      modifies CacheOf(t)
      ensures details == TransactionDetails(Inventory(old(State()), t), productId)
      ensures State() == old(State())
    {
      label Before:
      var found := CacheOf(t).GetDetails(productId);
      CacheStep@Before(t);
      details := if found.Some? && found.value.originalJson != "" then found else None;
    }

    /** `isPurchased(productId)` / `isSubscribed(productId)`. */
    method Owns(t: Target, productId: string) returns (owned: bool)
      requires Valid()
      modifies CacheOf(t)
      ensures owned <==> productId in Inventory(old(State()), t)
      ensures State() == old(State())
    {
      label Before:
      owned := CacheOf(t).IncludesProduct(productId);
      CacheStep@Before(t);
    }

    /** `consumePurchase(productId)` with the vendor's answer `result`, at clock reading `now`. */
    method ConsumePurchase(productId: string, result: BillingResult, now: nat)
      requires Valid()
      modifies this, cachedProducts, prefs
      ensures State() == Consume(config, old(State()), productId, result)
    {
      if !IsInitialized() {
        return;
      }
      var transaction := TransactionDetailsIn(Products, productId);
      if transaction.None? || transaction.value.info.purchaseToken == "" {
        return;
      }
      Call(ConsumeAsync(transaction.value.info.purchaseToken));
      OnConsumeResponse(productId, transaction.value, result, now);
    }

    /** The `ConsumeResponseListener` of `consumePurchase`, run on the vendor's answer `result`. */
    method OnConsumeResponse(productId: string, transaction: Purchase, result: BillingResult, now: nat)
      requires Valid()
      modifies this, cachedProducts, prefs
      ensures State() == ConsumeResponse(config, old(State()), productId, transaction, result)
    {
      if result.responseCode == OK || result.responseCode == ITEM_NOT_OWNED {
        label Before:
        cachedProducts.Remove(productId, now);
        CacheStep@Before(Products);
        SavePurchasePayload(None);
      }
      if result.responseCode == OK {
        Notify(ConsumeSuccess(transaction));
      } else {
        Notify(BillingError(result));
      }
    }

    /** `acknowledgeManagedProduct(productId)` / `acknowledgeSubscription(productId)` with the vendor's answer `result`. */
    method Acknowledge(t: Target, productId: string, result: BillingResult)
      requires Valid()
      modifies this, CacheOf(t), prefs
      ensures State() == Coordinator.Acknowledge(config, old(State()), t, productId, result)
    {
      if !IsInitialized() {
        return;
      }
      var transaction := TransactionDetailsIn(t, productId);
      if transaction.None? || transaction.value.info.purchaseToken == "" {
        return;
      }
      if transaction.value.info.acknowledged {
        return;
      }
      Call(AcknowledgePurchase(transaction.value.info.purchaseToken));
      OnAcknowledgePurchaseResponse(transaction.value, result);
    }

    /** The `AcknowledgePurchaseResponseListener` of both acknowledge methods. */
    method OnAcknowledgePurchaseResponse(transaction: Purchase, result: BillingResult)
      requires Valid()
      modifies this, prefs
      ensures State() == AcknowledgeResponse(config, old(State()), transaction, result)
    {
      if result.responseCode == OK {
        SavePurchasePayload(None);
        Notify(AcknowledgeSuccess(transaction));
      } else {
        Notify(BillingError(result));
      }
    }

    /** `getSkuDetailsAsync(productIds, type)` with the vendor's answer `result` and `details`. */
    method GetSkuDetailsAsync(productIds: seq<string>, skuType: string, result: BillingResult, details: seq<SkuDetails>)
      requires hasClient || productIds == []
      modifies this
      ensures State() == SkuDetailsQuery(config, old(State()), productIds, skuType, result, details)
    {
      if productIds == [] {
        return;
      }
      Call(QuerySkuDetailsAsync(productIds, skuType));
      ghost var queried := State();
      if result.responseCode != OK {
        Notify(BillingError(result));
        return;
      }
      if config.hasHandler {
        CacheSkuDetails(details);
        assert State() == queried.(skuDetails := PutDetails(old(skuDetailsCache), details));
        Notify(QuerySkuDetails(details));
      }
    }

    /** The loop of the `SkuDetailsResponseListener`: each answered entry replaces the cached one for its id. */
    method CacheSkuDetails(details: seq<SkuDetails>)
      modifies this`skuDetailsCache
      ensures skuDetailsCache == PutDetails(old(skuDetailsCache), details)
    {
      for i := 0 to |details|
        invariant skuDetailsCache == PutDetails(old(skuDetailsCache), details[..i])
      {
        skuDetailsCache := skuDetailsCache[details[i].sku := details[i]];
        assert details[..i + 1][..i] == details[..i];
      }
      assert details[..|details|] == details;
    }
  }
}
