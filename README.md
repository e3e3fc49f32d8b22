# Android In-App Billing v3 library: the purchase cache and the billing processor

This project models the core of the `com.anjlab.android.iab.v3` library:

- **`BillingCache`**: a map from product id to purchase. It is mirrored into one
  string of the application's shared preferences and guarded by a version token.
- **`BillingProcessor`**: the object an application talks to. It connects to the
  vendor's billing client, restores the owned products and subscriptions into two
  caches, starts purchase flows and leaves a "breadcrumb" behind for the answer
  that comes back later, consumes and acknowledges purchases, probes optional
  capabilities, and fills a catalog of product details.

Modules:

| file | module | what it holds |
|---|---|---|
| `wrappers.dfy` | `Wrappers` | `Option` |
| `text.dfy` | `Text` | Java's `String.split(Pattern.quote(d))` (trailing empty pieces dropped), `TextUtils.join`, `startsWith`, `equalsIgnoreCase`, `Long.toString`, and their lemmas |
| `billing.dfy` | `Billing` | response codes, purchases, catalog entries, the events a handler receives, the requests made of the vendor client, `newPurchase` |
| `store.dfy` | `Store` | class `Preferences`: the shared preference map, with `loadString` and `saveString` |
| `cache_codec.dfy` | `CacheCodec` | the cache's text format: the entries `productId>>>>>json>>>>>signature` joined by `#####`, the forgiving reader, and the round trip |
| `billing_cache.dfy` | `Cache` | class `BillingCache`, imperative, with the `data` map and `version` fields that its methods update |
| `coordinator.dfy` | `Coordinator` | every decision of the processor as a function of a `Session` snapshot, and the lemmas about those decisions |
| `billing_processor.dfy` | `Processor` | class `BillingProcessor`, imperative. Every method ensures `State() == F(old(State()), …)`, where `F` is the matching `Coordinator` function |

How the pieces fit:

- The processor's ghost `State()` reads both caches through their `View()`, which
  is the map a query would see after `reloadDataIfNeeded`. It also reads the
  breadcrumb from the preference store.
- The vendor's answers are parameters of the calls that receive them: the setup
  code, the query results, the launch code, the consume and acknowledge results,
  `isFeatureSupported` and `isReady`. A listener runs inside the call that
  registered it.
- The handler's callbacks and the client's requests are recorded in two logs,
  `events` and `calls`.
- The wall clock read by `flush` (`new Date().getTime()`) is the parameter `now`.
  The UUID nonce of a purchase is the parameter `nonce`.
- JSON parsing (`new Purchase(json, signature)`) and `Security.verifyPurchase` are
  function-valued parameters: `JsonReader` and `SignatureVerifier`.

## Model

| member | source | states |
|---|---|---|
| `Billing.NewPurchase` | library/src/main/java/com/anjlab/android/iab/v3/BillingCache.java:75-83 | a purchase is built exactly when the payload parses; it keeps the payload and the signature verbatim and carries what the payload says |
| `Store.Preferences.SaveString` | library/src/main/java/com/anjlab/android/iab/v3/BillingProcessor.java:701-707 | after saving, loading the key gives back the value, and saving null removes it; every other key is untouched |
| `Text.SplitJoin` | library/src/main/java/com/anjlab/android/iab/v3/BillingCache.java:56-59 | splitting on a delimiter undoes joining with it, when every piece but the last is clean (no delimiter inside and none completed across its end), the last holds no delimiter, and the last is non-empty when there are several pieces |
| `Text.LongToStringInjective` | library/src/main/java/com/anjlab/android/iab/v3/BillingCache.java:93 | different clock readings give different version tokens |
| `CacheCodec.EntryShape` | library/src/main/java/com/anjlab/android/iab/v3/BillingCache.java:89-90 | an entry of a storable record is non-empty, holds no entry delimiter, ends in a character other than `#`, and splits back into its fields |
| `CacheCodec.EntryRoundTrip` | library/src/main/java/com/anjlab/android/iab/v3/BillingCache.java:58-70 | reading the entry of a storable record yields its product id and the same record |
| `CacheCodec.EntriesAt` | library/src/main/java/com/anjlab/android/iab/v3/BillingCache.java:86-91 | the i-th line written is the entry of the i-th key in iteration order |
| `CacheCodec.DecodeLastEntry` | library/src/main/java/com/anjlab/android/iab/v3/BillingCache.java:57-71 | reading the entry of one more storable record binds its key to that record |
| `CacheCodec.DecodeEntries` | library/src/main/java/com/anjlab/android/iab/v3/BillingCache.java:57-71 | reading the entries of a storable map for keys `order` rebuilds the map restricted to those keys |
| `CacheCodec.SplitEntries` | library/src/main/java/com/anjlab/android/iab/v3/BillingCache.java:56 | splitting the stored string gives back exactly the lines that were joined |
| `CacheCodec.DecodeEncode` | library/src/main/java/com/anjlab/android/iab/v3/BillingCache.java:55-73 | round trip of the format: reading an encoding of a storable map, in any key order, gives back the map |
| `CacheCodec.SerialisedReadsBack` | library/src/main/java/com/anjlab/android/iab/v3/BillingCache.java:55-73 | any string that serialises a storable map loads as that map |
| `CacheCodec.Stored` | library/src/main/java/com/anjlab/android/iab/v3/BillingCache.java:88-90 | a record as flush writes it keeps its payload and what the payload says, always has a signature, and is unchanged when it had one |
| `CacheCodec.EntryAsWrittenIsEntry` | library/src/main/java/com/anjlab/android/iab/v3/BillingCache.java:89-90 | the three-field line flush writes for a record is the entry of that record as stored |
| `CacheCodec.SignedStoredUnchanged` | library/src/main/java/com/anjlab/android/iab/v3/BillingCache.java:89-90 | a map whose every record has a signature is written as it is |
| `CacheCodec.FlushableStored` | library/src/main/java/com/anjlab/android/iab/v3/BillingCache.java:89-90 | the text `null` is a safe field, so every map with safe fields and parsing payloads is storable once written |
| `CacheCodec.FlushLoadRoundTrip` | library/src/main/java/com/anjlab/android/iab/v3/BillingCache.java:55-95 | round trip of flush and load: what a flush of a map writes, in any key order, loads as that map with each missing signature turned into `"null"`, and as the map itself when every record has a signature |
| `CacheCodec.DroppedEntries` | library/src/main/java/com/anjlab/android/iab/v3/BillingCache.java:58-69 | an empty line, a line with fewer than two fields and a payload that does not parse are all skipped |
| `CacheCodec.SignatureFromFieldCount` | library/src/main/java/com/anjlab/android/iab/v3/BillingCache.java:61-66 | a line with three or more fields gives its third field as the signature; a line with two fields gives none |
| `CacheCodec.DecodeIntoAppend` | library/src/main/java/com/anjlab/android/iab/v3/BillingCache.java:57-71 | the load loop over two runs of lines is the loop over the first continued with the second |
| `CacheCodec.DroppedEntryKeepsSiblings` | library/src/main/java/com/anjlab/android/iab/v3/BillingCache.java:57-71 | a corrupt line costs only itself: the other lines load as if it were absent |
| `CacheCodec.DecodedRecordsReparse` | library/src/main/java/com/anjlab/android/iab/v3/BillingCache.java:57-71 | every loaded record is what `newPurchase` builds from its own payload and signature |
| `CacheCodec.NullSignatureReadsBackAsText` | library/src/main/java/com/anjlab/android/iab/v3/BillingCache.java:89-90 | as written, a record without a signature reloads with the signature `"null"` and so differs from the record that was stored |
| `CacheCodec.NullSignatureRoundTrips` | library/src/main/java/com/anjlab/android/iab/v3/BillingCache.java:85-95 | when the missing signature writes no field, a record without a signature reloads unchanged |
| `Cache.BillingCache.constructor` | library/src/main/java/com/anjlab/android/iab/v3/BillingCache.java:40-45 | a new cache holds what the store holds under its key and is not stale |
| `Cache.BillingCache.Load` | library/src/main/java/com/anjlab/android/iab/v3/BillingCache.java:55-73 | every stored line is read into `data` in order, and the stored token (default "0") becomes the cache's version |
| `Cache.BillingCache.ReadEntry` | library/src/main/java/com/anjlab/android/iab/v3/BillingCache.java:58-70 | one turn of the load loop binds the line's product id exactly when the line parses |
| `Cache.BillingCache.WrittenEntries` | library/src/main/java/com/anjlab/android/iab/v3/BillingCache.java:86-91 | the loop of flush: one line per key in some iteration order of the keys, each the three-field line the source writes |
| `Cache.BillingCache.Flush` | library/src/main/java/com/anjlab/android/iab/v3/BillingCache.java:85-95 | the store then holds the lines the source writes for `data` (a missing signature as `null`), in some key order, and the token `Long.toString(now)`; `data` is kept and no key other than the cache's two changes |
| `Cache.BillingCache.ReloadDataIfNeeded` | library/src/main/java/com/anjlab/android/iab/v3/BillingCache.java:144-149 | a stale cache reloads the stored map; a current one keeps its data and version |
| `Cache.BillingCache.IncludesProduct` | library/src/main/java/com/anjlab/android/iab/v3/BillingCache.java:97-100 | the answer is membership in the current view, both ways |
| `Cache.BillingCache.GetDetails` | library/src/main/java/com/anjlab/android/iab/v3/BillingCache.java:102-105 | the record of a present id, and nothing exactly when the id is absent |
| `Cache.BillingCache.PutRecord` | library/src/main/java/com/anjlab/android/iab/v3/BillingCache.java:107-116 | an absent id whose text parses is added and flushed; otherwise the view is kept and the store is untouched |
| `Cache.BillingCache.Put` | library/src/main/java/com/anjlab/android/iab/v3/BillingCache.java:118-124 | inserts only when the id is absent, never overwrites, and flushes only on insertion |
| `Cache.BillingCache.Remove` | library/src/main/java/com/anjlab/android/iab/v3/BillingCache.java:126-132 | the view minus the id; a flush happens only when the id was present |
| `Cache.BillingCache.Clear` | library/src/main/java/com/anjlab/android/iab/v3/BillingCache.java:134-138 | the cache becomes empty and the store holds the empty string, always flushed |
| `Cache.BillingCache.GetContents` | library/src/main/java/com/anjlab/android/iab/v3/BillingCache.java:151-153 | the ids held in memory, with no version check |
| `Cache.EmptySerialisation` | library/src/main/java/com/anjlab/android/iab/v3/BillingCache.java:134-138 | the only serialisation of an empty map is the empty string |
| `Cache.FlushedReloadsSame` | library/src/main/java/com/anjlab/android/iab/v3/BillingCache.java:144-149 | a cache whose store holds its own flush reloads its map as stored (a missing signature as `"null"`), and the map itself when every record is signed |
| `Cache.PeerWriteVisible` | library/src/main/java/com/anjlab/android/iab/v3/BillingCache.java:144-149 | a flush by another cache on the same key, with a different token, makes the reader stale and its view the writer's map as stored |
| `Cache.DistinctClocksDistinctTokens` | library/src/main/java/com/anjlab/android/iab/v3/BillingCache.java:93 | flushes at different clock readings leave tokens that differ even ignoring case |
| `Coordinator.DetectPurchaseType` | library/src/main/java/com/anjlab/android/iab/v3/BillingProcessor.java:671-678 | the breadcrumb always classifies as "subs" or "inapp" |
| `Coordinator.PurchaseEvents` | library/src/main/java/com/anjlab/android/iab/v3/BillingProcessor.java:127-147 | one handler event per purchase of the update |
| `Coordinator.LoadByType` | library/src/main/java/com/anjlab/android/iab/v3/BillingProcessor.java:254-273 | loading never touches the connection, the client or the breadcrumb |
| `Coordinator.LoadOwned` | library/src/main/java/com/anjlab/android/iab/v3/BillingProcessor.java:280-283 | the same for loading both caches |
| `Coordinator.PurchaseFlow` | library/src/main/java/com/anjlab/android/iab/v3/BillingProcessor.java:475-505 | a purchase never changes the caches; once the guards pass, it leaves the breadcrumb of its type, id, nonce and payload |
| `Coordinator.DeliveryTurnsDeliver` | library/src/main/java/com/anjlab/android/iab/v3/BillingProcessor.java:127-147 | the update loop, turn by turn, puts the accepted purchases into one cache and reports one event per purchase |
| `Coordinator.RestoreTurnsRestore` | library/src/main/java/com/anjlab/android/iab/v3/BillingProcessor.java:264-268 | the restore loop, turn by turn, puts the owned purchases into one cache and changes nothing else |
| `Coordinator.BreadcrumbClassifies` | library/src/main/java/com/anjlab/android/iab/v3/BillingProcessor.java:481-488 | the breadcrumb a purchase leaves reads back as "subs" exactly when its type starts with "subs" |
| `Coordinator.BreadcrumbNonce` | library/src/main/java/com/anjlab/android/iab/v3/BillingProcessor.java:481-484 | a subscription breadcrumb does not depend on the nonce; any other includes it, so different nonces of one length give different breadcrumbs |
| `Coordinator.BreadcrumbFrame` | library/src/main/java/com/anjlab/android/iab/v3/BillingProcessor.java:481-487 | the breadcrumb starts with `type:productId` and ends with `:developerPayload` when a payload is given |
| `Coordinator.DeliverKeys` | library/src/main/java/com/anjlab/android/iab/v3/BillingProcessor.java:127-147 | an update adds exactly the ids of the accepted purchases and never replaces an entry |
| `Coordinator.AllRejectedChangesNothing` | library/src/main/java/com/anjlab/android/iab/v3/BillingProcessor.java:128-146 | when every signature fails, the cache is unchanged |
| `Coordinator.EmptyLicenceDeliversAll` | library/src/main/java/com/anjlab/android/iab/v3/BillingProcessor.java:681-692 | with an empty licence key every purchase is kept and reported as purchased |
| `Coordinator.EventsAt` | library/src/main/java/com/anjlab/android/iab/v3/BillingProcessor.java:137-145 | the i-th event is the i-th purchase's success or signature error |
| `Coordinator.RestoreExactly` | library/src/main/java/com/anjlab/android/iab/v3/BillingProcessor.java:262-268 | a restore holds exactly the ids of the owned purchases, each bound to an owned purchase of that id |
| `Coordinator.FlowThenUpdateRoutes` | library/src/main/java/com/anjlab/android/iab/v3/BillingProcessor.java:122-136 | a purchase of a type, then an OK update, delivers into the subscriptions exactly when the type starts with "subs", and leaves the other cache alone |
| `Coordinator.UpdateFollowsBreadcrumb` | library/src/main/java/com/anjlab/android/iab/v3/BillingProcessor.java:130-136 | an OK update delivers into the cache the breadcrumb names and leaves the other one alone |
| `Coordinator.SubscriptionsNeedProducts` | library/src/main/java/com/anjlab/android/iab/v3/BillingProcessor.java:280-283 | a failed products load fails the whole load and never queries the subscriptions |
| `Coordinator.HistoryRestoredWhen` | library/src/main/java/com/anjlab/android/iab/v3/BillingProcessor.java:182-188 | after the load, the only added event is `onPurchaseHistoryRestored` with the restored product ids, exactly when both loads succeeded, a handler exists and products were restored; nothing else changes |
| `Coordinator.ProbeSticky` | library/src/main/java/com/anjlab/android/iab/v3/BillingProcessor.java:351-363 | a capability probe that answered true answers true again without asking the vendor |
| `Coordinator.ProbeAfterRelease` | library/src/main/java/com/anjlab/android/iab/v3/BillingProcessor.java:351-399 | as written, a probe with its flag unset after `release()` dereferences the null client; the corrected probe answers false with no call |
| `Coordinator.ProbeAnswerAgrees` | library/src/main/java/com/anjlab/android/iab/v3/BillingProcessor.java:351-399 | the corrected probe answers as the source does wherever the source does not fail, and the source fails exactly when the flag is unset and the client is gone |
| `Coordinator.FeatureProbeAnswers` | library/src/main/java/com/anjlab/android/iab/v3/BillingProcessor.java:351-399 | the modelled probe's answer and remembered flag are the corrected answer |
| `Coordinator.PurchaseGuards` | library/src/main/java/com/anjlab/android/iab/v3/BillingProcessor.java:477-479 | no initialisation, no product id or no type: nothing changes and the answer is false |
| `Coordinator.MissingDetailsReported` | library/src/main/java/com/anjlab/android/iab/v3/BillingProcessor.java:488-497 | an unknown product leaves the breadcrumb, reports DEVELOPER_ERROR "SkuDetails not found", makes no call and answers false |
| `Coordinator.ConsumeOutcomes` | library/src/main/java/com/anjlab/android/iab/v3/BillingProcessor.java:431-463 | consuming a stored transaction asks the vendor once; OK and ITEM_NOT_OWNED remove exactly that id and clear the breadcrumb, any other code changes neither; one event in each case |
| `Coordinator.NoTransactionNoEffect` | library/src/main/java/com/anjlab/android/iab/v3/BillingProcessor.java:431-441 | consume and acknowledge do nothing before initialisation, or without a stored transaction with a token |
| `Coordinator.AcknowledgedIsNoOp` | library/src/main/java/com/anjlab/android/iab/v3/BillingProcessor.java:551-560 | acknowledging a record already acknowledged makes no call and changes nothing |
| `Coordinator.ReleaseEndsSession` | library/src/main/java/com/anjlab/android/iab/v3/BillingProcessor.java:227-236 | after `release()` nothing is initialised and every purchase answers false |
| `Coordinator.ConnectionFlag` | library/src/main/java/com/anjlab/android/iab/v3/BillingProcessor.java:51-71 | setup connects only on OK; a disconnect always clears the flag |
| `Coordinator.PutDetailsFinds` | library/src/main/java/com/anjlab/android/iab/v3/BillingProcessor.java:635-639 | after an OK catalog answer every entry is found under its id, the last one for a repeated id |
| `Processor.BillingProcessor.constructor` | library/src/main/java/com/anjlab/android/iab/v3/BillingProcessor.java:104-119 | a new processor is unconnected with a client, its caches hold what the store holds under the two keys, and its catalog, flags and logs are empty |
| `Processor.BillingProcessor.Notify` | library/src/main/java/com/anjlab/android/iab/v3/BillingProcessor.java:709-713 | an event reaches the log only when a handler is registered; nothing else changes |
| `Processor.BillingProcessor.Call` | library/src/main/java/com/anjlab/android/iab/v3/BillingProcessor.java:51-52 | a request to the vendor client is appended to the request log; nothing else changes |
| `Processor.BillingProcessor.SavePurchasePayload` | library/src/main/java/com/anjlab/android/iab/v3/BillingProcessor.java:701-703 | only the breadcrumb changes |
| `Processor.BillingProcessor.Initialize` | library/src/main/java/com/anjlab/android/iab/v3/BillingProcessor.java:158-180 | the new state is `Coordinator.Initialize`: connect, and on OK report and restore both caches |
| `Processor.BillingProcessor.OnBillingServiceDisconnected` | library/src/main/java/com/anjlab/android/iab/v3/BillingProcessor.java:65-69 | only the connection flag drops |
| `Processor.BillingProcessor.Release` | library/src/main/java/com/anjlab/android/iab/v3/BillingProcessor.java:227-232 | an initialised processor ends the connection and drops the client; otherwise nothing happens |
| `Processor.BillingProcessor.LoadPurchasesByType` | library/src/main/java/com/anjlab/android/iab/v3/BillingProcessor.java:254-273 | on OK the cache becomes exactly the owned purchases of the answer; the state and answer are those of `Coordinator.LoadByType` |
| `Processor.BillingProcessor.RestorePurchases` | library/src/main/java/com/anjlab/android/iab/v3/BillingProcessor.java:264-268 | the loop puts the owned purchases into one cache and changes nothing else |
| `Processor.BillingProcessor.RestorePurchase` | library/src/main/java/com/anjlab/android/iab/v3/BillingProcessor.java:265-267 | one turn: an owned purchase is put into the cache |
| `Processor.BillingProcessor.LoadOwnedPurchasesFromGoogle` | library/src/main/java/com/anjlab/android/iab/v3/BillingProcessor.java:280-283 | products first, subscriptions only if that succeeded, as `Coordinator.LoadOwned` |
| `Processor.BillingProcessor.QueryPurchasesFromGoogle` | library/src/main/java/com/anjlab/android/iab/v3/BillingProcessor.java:182-188 | the load, then `onPurchaseHistoryRestored` with the product ids as `Coordinator.QueryPurchasesFromGoogle` decides |
| `Processor.BillingProcessor.OnPurchasesUpdated` | library/src/main/java/com/anjlab/android/iab/v3/BillingProcessor.java:121-151 | a failed update reports its error; an OK one delivers the accepted purchases into the cache the breadcrumb names, with one event per purchase |
| `Processor.BillingProcessor.DeliverAll` | library/src/main/java/com/anjlab/android/iab/v3/BillingProcessor.java:127-147 | the loop's total effect: accepted purchases are inserted, one event each, nothing else changes |
| `Processor.BillingProcessor.DeliverPurchase` | library/src/main/java/com/anjlab/android/iab/v3/BillingProcessor.java:128-146 | one turn: insert if the signature is accepted, then report success or the signature error |
| `Processor.BillingProcessor.Purchase` | library/src/main/java/com/anjlab/android/iab/v3/BillingProcessor.java:475-505 | the state and answer of `Coordinator.PurchaseFlow`: guards, breadcrumb, catalog lookup, launch |
| `Processor.BillingProcessor.PurchaseProduct` | library/src/main/java/com/anjlab/android/iab/v3/BillingProcessor.java:285-295 | a purchase of type "inapp" without VR |
| `Processor.BillingProcessor.Subscribe` | library/src/main/java/com/anjlab/android/iab/v3/BillingProcessor.java:289-299 | a purchase of type "subs" without VR |
| `Processor.BillingProcessor.FeatureSupported` | library/src/main/java/com/anjlab/android/iab/v3/BillingProcessor.java:351-399 | a sticky capability probe, as `Coordinator.FeatureProbe` |
| `Processor.BillingProcessor.IsOneTimePurchaseSupported` | library/src/main/java/com/anjlab/android/iab/v3/BillingProcessor.java:339-349 | false before initialisation, otherwise a sticky `isReady()` |
| `Processor.BillingProcessor.UpdateSubscription` | library/src/main/java/com/anjlab/android/iab/v3/BillingProcessor.java:410-429 | with an old id, the update probe must pass before a "subs" purchase |
| `Processor.BillingProcessor.UpdateSubscriptionOnVR` | library/src/main/java/com/anjlab/android/iab/v3/BillingProcessor.java:201-218 | the update probe, then the VR probe; falls back to `updateSubscription` when VR subscriptions are unsupported |
| `Processor.BillingProcessor.SubscribeVR` | library/src/main/java/com/anjlab/android/iab/v3/BillingProcessor.java:329-337 | the VR probe always runs; VR is used only when asked for and supported |
| `Processor.BillingProcessor.PurchaseOnVR` | library/src/main/java/com/anjlab/android/iab/v3/BillingProcessor.java:311-317 | the in-app VR probe decides the VR flag of an "inapp" purchase |
| `Processor.BillingProcessor.TransactionDetailsIn` | library/src/main/java/com/anjlab/android/iab/v3/BillingProcessor.java:508-515 | the stored record when its payload is non-empty, else nothing; the observable state is unchanged |
| `Processor.BillingProcessor.Owns` | library/src/main/java/com/anjlab/android/iab/v3/BillingProcessor.java:238-244 | `isPurchased` / `isSubscribed`: membership in the cache's view, both ways, with no observable change |
| `Processor.BillingProcessor.ConsumePurchase` | library/src/main/java/com/anjlab/android/iab/v3/BillingProcessor.java:431-463 | the state of `Coordinator.Consume`, whose outcomes `ConsumeOutcomes` and `NoTransactionNoEffect` state |
| `Processor.BillingProcessor.OnConsumeResponse` | library/src/main/java/com/anjlab/android/iab/v3/BillingProcessor.java:443-459 | the consume listener: OK and ITEM_NOT_OWNED evict and clear the breadcrumb; every code is reported |
| `Processor.BillingProcessor.Acknowledge` | library/src/main/java/com/anjlab/android/iab/v3/BillingProcessor.java:517-583 | `acknowledgeSubscription` and `acknowledgeManagedProduct`: a stored, unacknowledged transaction with a token is sent to the vendor |
| `Processor.BillingProcessor.OnAcknowledgePurchaseResponse` | library/src/main/java/com/anjlab/android/iab/v3/BillingProcessor.java:568-579 | the acknowledge listener: OK clears the breadcrumb and reports success; any other code reports the error |
| `Processor.BillingProcessor.GetSkuDetailsAsync` | library/src/main/java/com/anjlab/android/iab/v3/BillingProcessor.java:626-650 | an empty list does nothing; otherwise one query; an OK answer fills the catalog only with a handler registered; an error is reported |
| `Processor.BillingProcessor.CacheSkuDetails` | library/src/main/java/com/anjlab/android/iab/v3/BillingProcessor.java:637-639 | each returned entry is stored under its id, later ones winning |

The catalog getter `getSkuDetails(productId)` (lines 607-612) and its public
aliases `getPurchaseListingDetails` / `getSubscriptionListingDetails` (652-658)
are the function `Processor.BillingProcessor.GetSkuDetails`. `PutDetailsFinds`
states what that getter finds. `isValidTransactionDetails` (694-699) is
`Coordinator.Accepted`. The public constructor that binds at once (100-102) is
the constructor followed by `Initialize`.

Points where the code behaves in ways a caller may not expect, which the model
follows:

- The six-argument `purchase` never passes `oldProductId` to the vendor, although
  the Javadoc of `updateSubscription` (BillingProcessor.java:402) describes it as
  "Change subscription i.e. upgrade or downgrade".
- `onPurchasesUpdated` does not check `isInitialized()`, so an answer that arrives
  after `release()` is still delivered.
- A flush writes a record without a signature with the text `null` as its
  signature, so the record reloads with the signature `"null"` (see Findings).
- `getContents()` does no version check.
- Catalog entries are stored only when a handler is registered.

## Left out

- `BillingBase` is not part of this model. Its preference helpers
  (`loadString`, `saveString`, `getPreferencesBaseKey`) are the `Preferences`
  class and the `baseKey` constant. `saveString(key, null)` removes the key, as
  Android's `SharedPreferences` does.
- Activities, intents and `Log` calls are left out: they carry no state the
  library reads back.
- `BillingCache.toString` is left out, for the same reason.
- The list overload `getSkuDetails(List)` is left out because nothing calls it.
- JSON parsing and RSA signature checking are opaque function parameters. An
  exception from either reads as "does not parse" or "does not verify", as the
  source's `catch` blocks do.
- The clock is the parameter `now`, the UUID nonce is the parameter `nonce`, and
  the vendor's answers are parameters.
- Each listener runs inline, inside the call that registered it. Orders in
  which another call lands between a request and its answer (a `release()` or a
  second `purchase()` between `consumeAsync` and its listener, say) are not
  captured.
- A Java null string is modelled as `""` where the source tests
  `TextUtils.isEmpty`, and as `Option` where null is a distinct value (a signature,
  the breadcrumb, the purchase list).
- HashMap iteration order is not fixed: a flush may write the keys in any order
  (`Serialises`).
- `Processor.BillingProcessor.Initialize` requires a client. After `release()`,
  `initialize()` dereferences the null client and throws; that path is not
  modelled.
- `Processor.BillingProcessor.GetSkuDetailsAsync` requires a client or an empty
  list, for the same reason.
- `Processor.BillingProcessor.FeatureSupported` follows the corrected probe, which
  answers false after `release()`. The probe as written is `ProbeAsWritten` (see
  Findings).
- `Processor.BillingProcessor.UpdateSubscription` probes with the corrected probe,
  so the null-client dereference after `release()` is not modelled.
- `Processor.BillingProcessor.UpdateSubscriptionOnVR` probes with the corrected
  probe, for the same reason.
- `Processor.BillingProcessor.SubscribeVR` probes with the corrected probe, for
  the same reason.
- `Processor.BillingProcessor.PurchaseOnVR` probes with the corrected probe, for
  the same reason.
- `CacheCodec.FlushLoadRoundTrip` holds only for records whose id, payload and
  signature are safe fields. A field that contains a `#####` or `>>>>>` run, or
  ends in `#` or `>`, is split differently when read back, and an empty signature
  is dropped. No round trip is stated for such records.

## Findings

| source | as written | input that shows it | evidently intended | confidence | as-written member | corrected member |
|---|---|---|---|---|---|---|
| library/src/main/java/com/anjlab/android/iab/v3/BillingCache.java:89-90 | `flush` concatenates `info.getSignature()`, so a purchase without a signature is written with the text `null` as a third field | a cached purchase whose signature is null, flushed, then reloaded by a fresh cache: it comes back with the signature `"null"` | a missing signature writes no third field, so it reloads as missing | not executed | `CacheCodec.NullSignatureReadsBackAsText` | `CacheCodec.NullSignatureRoundTrips` |
| library/src/main/java/com/anjlab/android/iab/v3/BillingProcessor.java:351-399 | the capability probes call `mBillingClient.isFeatureSupported` without checking that the client is still there | `release()` on an initialised processor, then `isSubscriptionOnVRSupported()` (reached from `subscribe(.., isVR)`, `purchaseOnVR`, `updateSubscription` with an old id) while its flag is false: null dereference | a released client answers "unsupported", as `isOneTimePurchaseSupported` does through its `isInitialized()` guard | not executed | `Coordinator.ProbeAfterRelease` | `Coordinator.FeatureProbeAnswers` |
