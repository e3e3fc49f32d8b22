/**
 * `BillingCache`: a map from product id to purchase, mirrored into one
 * preference value and guarded by a version token so that an instance
 * notices when another one has rewritten the store.
 */
module Cache {
  import opened Wrappers
  import opened Text
  import opened Billing
  import opened Store
  import opened CacheCodec

  class BillingCache {
    /** The shared preference store (`BillingBase.loadString` / `saveString`). */
    const prefs: Preferences
    /** `getPreferencesBaseKey()`. */
    const baseKey: string
    /** The key suffix this cache was built with. */
    const cacheKey: string
    /** The JSON reader behind `newPurchase`. */
    const readJson: JsonReader

    var data: map<string, Purchase>
    var version: string

    function PreferencesCacheKey(): string {
      baseKey + cacheKey
    }

    function PreferencesVersionKey(): string {
      PreferencesCacheKey() + VERSION_KEY
    }

    /** `getCurrentVersion()`: the stored token, "0" when there is none. */
    function CurrentVersion(): string
      reads prefs
    {
      prefs.LoadString(PreferencesVersionKey(), "0")
    }

    function StoredData(): string
      reads prefs
    {
      prefs.LoadString(PreferencesCacheKey(), "")
    }

    /** The test of `reloadDataIfNeeded`. */
    predicate Stale()
      reads this, prefs
    {
      !EqualsIgnoreCase(version, CurrentVersion())
    }

    /** The map every query and mutation works on: the stored one when the token is stale. */
    function View(): map<string, Purchase>
      reads this, prefs
    {
      if Stale() then Decode(readJson, StoredData()) else data
    }

    /**
     * The store holds what a flush of `data` writes (a missing signature as
     * the text "null") under this cache's key, and `version` under its version key.
     */
    ghost predicate Flushed()
      reads this, prefs
    {
      && PreferencesCacheKey() in prefs.values
      && Serialises(prefs.values[PreferencesCacheKey()], AsStored(data))
      && PreferencesVersionKey() in prefs.values
      && prefs.values[PreferencesVersionKey()] == version
    }

    /** Only this cache's two keys may have changed in the store. */
    ghost predicate OwnKeysOnly(before: map<string, string>)
      reads prefs
    {
      SameExcept(prefs.values, before, {PreferencesCacheKey(), PreferencesVersionKey()})
    }

    constructor (prefs: Preferences, baseKey: string, cacheKey: string, readJson: JsonReader)
      ensures this.prefs == prefs && this.baseKey == baseKey && this.cacheKey == cacheKey
      ensures this.readJson == readJson
      ensures data == Decode(readJson, StoredData()) && !Stale()
    {
      this.prefs := prefs;
      this.baseKey := baseKey;
      this.cacheKey := cacheKey;
      this.readJson := readJson;
      data := map[];
      version := "";
      new;
      Load();
    }

    /** `load()`: adds every entry of the stored string to `data`, then adopts the stored token. */
    method Load()
      modifies this
      ensures data == DecodeInto(old(data), readJson, Split(StoredData(), ENTRY_DELIMITER))
      ensures version == CurrentVersion() && !Stale()
    {
      var entries := Split(prefs.LoadString(PreferencesCacheKey(), ""), ENTRY_DELIMITER);
      for i := 0 to |entries|
        invariant data == DecodeInto(old(data), readJson, entries[..i])
      {
        ReadEntry(entries[i]);
        assert entries[..i + 1][..i] == entries[..i];
      }
      assert entries[..|entries|] == entries;
      version := prefs.LoadString(PreferencesVersionKey(), "0");
      EqualsIgnoreCaseReflexive(version);
    }

    /** One turn of the loop of `load()`: a line with a payload, and possibly a signature, binds its product id. */
    method ReadEntry(entry: string)
      modifies this`data
      ensures data == AddEntry(old(data), readJson, entry)
    {
      if entry != "" {
        var parts := Split(entry, LINE_DELIMITER);
        var purchase: Option<Purchase> := None;
        if |parts| > 2 {
          purchase := NewPurchase(readJson, parts[1], Some(parts[2]));
        } else if |parts| > 1 {
          purchase := NewPurchase(readJson, parts[1], None);
        }
        if purchase.Some? {
          data := data[parts[0] := purchase.value];
        }
      }
    }

    /**
     * The loop of `flush()`: one line per key, in the order the keys come out
     * of the map, each written as the source does (three fields, a missing
     * signature as "null").
     */
    method WrittenEntries() returns (output: seq<string>, ghost order: seq<string>)
      ensures IsKeyOrder(order, AsStored(data))
      ensures output == Entries(order, AsStored(data))
    {
      output := [];
      order := [];
      ghost var stored := AsStored(data);
      var pending := data.Keys;
      while pending != {}
        invariant forall k :: k in order ==> k in data
        invariant forall i, j :: 0 <= i < j < |order| ==> order[i] != order[j]
        invariant forall k :: k in data <==> k in order || k in pending
        invariant forall k :: k in order ==> k !in pending
        invariant output == Entries(order, stored)
        decreases |pending|
      {
        var productId :| productId in pending;
        output := output + [EntryAsWritten(productId, data[productId])];
        EntryAsWrittenIsEntry(productId, data[productId]);
        order := order + [productId];
        pending := pending - {productId};
      }
    }

    /**
     * `flush()` at clock reading `now`: writes the entries of `data`, then the
     * new token `Long.toString(now)`.
     */
    method Flush(now: nat)
      modifies this, prefs
      ensures data == old(data)
      ensures version == LongToString(now)
      ensures Flushed() && !Stale()
      ensures OwnKeysOnly(old(prefs.values))
    {
      var output, order := WrittenEntries();
      var written := Join(output, ENTRY_DELIMITER);
      prefs.SaveString(PreferencesCacheKey(), Some(written));
      version := LongToString(now);
      prefs.SaveString(PreferencesVersionKey(), Some(version));
      EqualsIgnoreCaseReflexive(version);
    }

    /** `reloadDataIfNeeded()`. */
    method ReloadDataIfNeeded()
      modifies this
      ensures data == old(View()) && !Stale()
      ensures !old(Stale()) ==> version == old(version)
    {
      if !EqualsIgnoreCase(version, prefs.LoadString(PreferencesVersionKey(), "0")) {
        data := map[];
        Load();
      }
    }

    /** `includesProduct(productId)`. */
    method IncludesProduct(productId: string) returns (found: bool)
      modifies this
      ensures found <==> productId in old(View())
      ensures data == old(View()) && !Stale()
    {
      ReloadDataIfNeeded();
      found := productId in data;
    }

    /** `getDetails(productId)`: the record, or nothing when the id is absent. */
    method GetDetails(productId: string) returns (details: Option<Purchase>)
      modifies this
      ensures details.Some? <==> productId in old(View())
      ensures details.Some? ==> details.value == old(View())[productId]
      ensures data == old(View()) && !Stale()
    {
      ReloadDataIfNeeded();
      details := if productId in data then Some(data[productId]) else None;
    }

    /** `put(productId, details, signature)`: inserts a record built from its text, if absent and if it parses. */
    method PutRecord(productId: string, json: string, signature: Option<string>, now: nat)
      modifies this, prefs
      ensures var inserted := productId !in old(View()) && NewPurchase(readJson, json, signature).Some?;
        && data == (if inserted then old(View())[productId := NewPurchase(readJson, json, signature).value] else old(View()))
        && (inserted ==> Flushed() && version == LongToString(now))
        && (!inserted ==> prefs.values == old(prefs.values))
      ensures !Stale() && OwnKeysOnly(old(prefs.values))
    {
      ReloadDataIfNeeded();
      if productId !in data {
        var purchase := NewPurchase(readJson, json, signature);
        if purchase.Some? {
          data := data[productId := purchase.value];
          Flush(now);
        }
      }
    }

    /** `put(productId, purchase)`: inserts the purchase unless the id is already present. */
    method Put(productId: string, purchase: Purchase, now: nat)
      modifies this, prefs
      ensures data == InsertIfAbsent(old(View()), productId, purchase)
      ensures productId !in old(View()) ==> Flushed() && version == LongToString(now)
      ensures productId in old(View()) ==> prefs.values == old(prefs.values)
      ensures !Stale() && OwnKeysOnly(old(prefs.values))
    {
      ReloadDataIfNeeded();
      if productId !in data {
        data := data[productId := purchase];
        Flush(now);
      }
    }

    /** `remove(productId)`: evicts a present id and flushes; an absent id changes nothing. */
    method Remove(productId: string, now: nat)
      modifies this, prefs
      ensures data == old(View()) - {productId}
      ensures productId in old(View()) ==> Flushed() && version == LongToString(now)
      ensures productId !in old(View()) ==> prefs.values == old(prefs.values)
      ensures !Stale() && OwnKeysOnly(old(prefs.values))
    {
      ReloadDataIfNeeded();
      if productId in data {
        data := data - {productId};
        Flush(now);
      }
    }

    /** `clear()`: empties the map and always flushes. */
    method Clear(now: nat)
      modifies this, prefs
      ensures data == map[]
      ensures StoredData() == "" && Flushed() && version == LongToString(now)
      ensures !Stale() && OwnKeysOnly(old(prefs.values))
    {
      ReloadDataIfNeeded();
      data := map[];
      Flush(now);
      assert AsStored(data) == map[];
      EmptySerialisation(prefs.values[PreferencesCacheKey()]);
    }

    /** `getContents()`: the ids in memory, without the version check. */
    method GetContents() returns (productIds: set<string>)
      ensures productIds == data.Keys
    {
      productIds := data.Keys;
    }
  }

  /** The only serialisation of the empty map is the empty string. */
  lemma EmptySerialisation(s: string)
    requires Serialises(s, map[])
    ensures s == ""
  {
    var order :| IsKeyOrder(order, map[]) && s == Encode(order, map[]);
    FirstIsMember(order);
  }

  lemma FirstIsMember(s: seq<string>)
    ensures s == [] || s[0] in s
  {
  }

  /**
   * A cache whose store holds a flush of its own map reloads that map, with
   * each missing signature read back as "null"; a map of signed records
   * reloads unchanged.
   */
  lemma FlushedReloadsSame(c: BillingCache)
    requires c.Flushed() && Flushable(c.readJson, c.data)
    ensures Decode(c.readJson, c.StoredData()) == AsStored(c.data)
    ensures (forall k :: k in c.data ==> c.data[k].signature.Some?) ==> Decode(c.readJson, c.StoredData()) == c.data
  {
    FlushLoadRoundTrip(c.readJson, c.prefs.values[c.PreferencesCacheKey()], c.data);
  }

  /**
   * A write by another instance on the same store and key becomes visible:
   * once the writer's token differs from the reader's, the reader's next
   * query sees the writer's map as stored.
   */
  lemma PeerWriteVisible(writer: BillingCache, reader: BillingCache)
    requires writer.prefs == reader.prefs
    requires writer.PreferencesCacheKey() == reader.PreferencesCacheKey()
    requires writer.readJson == reader.readJson
    requires writer.Flushed() && Flushable(writer.readJson, writer.data)
    requires !EqualsIgnoreCase(reader.version, writer.version)
    ensures reader.Stale() && reader.View() == AsStored(writer.data)
  {
    FlushedReloadsSame(writer);
  }

  /** Two flushes at different clock readings leave different tokens, so a reader holding the first sees the second. */
  lemma DistinctClocksDistinctTokens(a: nat, b: nat)
    requires a != b
    ensures !EqualsIgnoreCase(LongToString(a), LongToString(b))
  {
    if EqualsIgnoreCase(LongToString(a), LongToString(b)) {
      LongToStringInjective(a, b);
    }
  }
}
