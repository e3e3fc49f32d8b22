/**
 * The text format in which a `BillingCache` persists its map: entries
 * `productId>>>>>json>>>>>signature` joined by `#####`, read back with a
 * forgiving parser that drops whatever it cannot rebuild.
 */
module CacheCodec {
  import opened Wrappers
  import opened Text
  import opened Billing

  const ENTRY_DELIMITER: string := "#####"
  const LINE_DELIMITER: string := ">>>>>"
  const VERSION_KEY: string := ".version"

  lemma DelimitersAreRuns()
    ensures ENTRY_DELIMITER == Run('#') && LINE_DELIMITER == Run('>')
  {
  }

  /** `put` semantics: an existing entry is never overwritten. */
  function InsertIfAbsent(m: map<string, Purchase>, productId: string, p: Purchase): map<string, Purchase> {
    if productId in m then m else m[productId := p]
  }

  // ---------------------------------------------------------------------
  // Writing

  /**
   * The fields of one entry in the corrected format: an absent signature
   * contributes no field. `flush` itself writes `EntryAsWritten`, which is
   * this entry of the record as stored (`EntryAsWrittenIsEntry`).
   */
  function Fields(productId: string, p: Purchase): seq<string> {
    [productId, p.originalJson] + match p.signature case Some(sig) => [sig] case None => []
  }

  function Entry(productId: string, p: Purchase): string {
    Join(Fields(productId, p), LINE_DELIMITER)
  }

  /** `String` concatenation renders a null signature as the text "null". */
  function SignatureText(signature: Option<string>): string {
    match signature
    case Some(sig) => sig
    case None => "null"
  }

  /** The entry `flush` writes: always three fields, the third "null" for a missing signature. */
  function EntryAsWritten(productId: string, p: Purchase): string {
    Join([productId, p.originalJson, SignatureText(p.signature)], LINE_DELIMITER)
  }

  /** A record as `flush` writes it: the signature is always there, "null" when the record had none. */
  function Stored(p: Purchase): (q: Purchase)
    ensures q.originalJson == p.originalJson && q.info == p.info && q.signature.Some?
    ensures p.signature.Some? ==> q == p
  {
    p.(signature := Some(SignatureText(p.signature)))
  }

  /** The map a flush of `m` writes, record by record. */
  function AsStored(m: map<string, Purchase>): map<string, Purchase> {
    map k | k in m :: Stored(m[k])
  }

  /** The entry `flush` writes for a record is the entry of that record as stored. */
  lemma EntryAsWrittenIsEntry(productId: string, p: Purchase)
    ensures EntryAsWritten(productId, p) == Entry(productId, Stored(p))
  {
    assert Fields(productId, Stored(p)) == [productId, p.originalJson, SignatureText(p.signature)];
  }

  /** A map whose every record carries a signature is stored as it is. */
  lemma SignedStoredUnchanged(m: map<string, Purchase>)
    requires forall k :: k in m ==> m[k].signature.Some?
    ensures AsStored(m) == m
  {
  }

  /** The entries of `m`, in the iteration order `order`. */
  function Entries(order: seq<string>, m: map<string, Purchase>): (r: seq<string>)
    requires forall k :: k in order ==> k in m
    ensures |r| == |order|
  {
    if order == [] then []
    else Entries(order[..|order| - 1], m) + [Entry(order[|order| - 1], m[order[|order| - 1]])]
  }

  function Encode(order: seq<string>, m: map<string, Purchase>): string
    requires forall k :: k in order ==> k in m
  {
    Join(Entries(order, m), ENTRY_DELIMITER)
  }

  /** `order` lists every key of `m` exactly once, as iterating `keySet()` does. */
  ghost predicate IsKeyOrder(order: seq<string>, m: map<string, Purchase>) {
    && (forall i, j :: 0 <= i < j < |order| ==> order[i] != order[j])
    && (forall k :: k in order <==> k in m)
  }

  /** `s` joins the entries of `m` in some iteration order of its keys; a flush of `data` writes one for `AsStored(data)`. */
  ghost predicate Serialises(s: string, m: map<string, Purchase>) {
    exists order :: IsKeyOrder(order, m) && s == Encode(order, m)
  }

  // ---------------------------------------------------------------------
  // Reading

  /** The key and purchase one entry yields, if any. */
  function ParseEntry(readJson: JsonReader, entry: string): Option<(string, Purchase)> {
    if entry == "" then None
    else
      var parts := Split(entry, LINE_DELIMITER);
      var purchase :=
        if |parts| > 2 then NewPurchase(readJson, parts[1], Some(parts[2]))
        else if |parts| > 1 then NewPurchase(readJson, parts[1], None)
        else None;
      if purchase.Some? then Some((parts[0], purchase.value)) else None
  }

  function AddEntry(m: map<string, Purchase>, readJson: JsonReader, entry: string): map<string, Purchase> {
    match ParseEntry(readJson, entry)
    case Some((productId, p)) => m[productId := p]
    case None => m
  }

  /** `m` after the entries are read in order; a later entry for a key replaces an earlier one. */
  function DecodeInto(m: map<string, Purchase>, readJson: JsonReader, entries: seq<string>): map<string, Purchase> {
    if entries == [] then m
    else AddEntry(DecodeInto(m, readJson, entries[..|entries| - 1]), readJson, entries[|entries| - 1])
  }

  function Decode(readJson: JsonReader, s: string): map<string, Purchase> {
    DecodeInto(map[], readJson, Split(s, ENTRY_DELIMITER))
  }

  // ---------------------------------------------------------------------
  // Round trip

  /** A field the format carries unchanged: no delimiter inside, none completed by its last character. */
  ghost predicate SafeField(f: string) {
    && !Contains(f, ENTRY_DELIMITER)
    && !Contains(f, LINE_DELIMITER)
    && (f == "" || (f[|f| - 1] != '#' && f[|f| - 1] != '>'))
  }

  /** An entry whose fields survive the trip through the store. */
  ghost predicate Storable(productId: string, p: Purchase) {
    && SafeField(productId)
    && SafeField(p.originalJson)
    && match p.signature
       case Some(sig) => sig != "" && SafeField(sig)
       case None => p.originalJson != ""
  }

  ghost predicate AllStorable(readJson: JsonReader, m: map<string, Purchase>) {
    forall k :: k in m ==> Storable(k, m[k]) && Parsed(readJson, m[k])
  }

  lemma SeparatorHasNoHash()
    ensures forall j :: 0 <= j < |LINE_DELIMITER| ==> LINE_DELIMITER[j] != '#'
  {
  }

  /** An entry never contains the entry delimiter, ends in a character other than '#', and splits into its fields. */
  lemma EntryShape(productId: string, p: Purchase)
    requires Storable(productId, p)
    ensures var e := Entry(productId, p);
      && e != ""
      && !Contains(e, Run('#'))
      && e[|e| - 1] != '#'
      && Split(e, LINE_DELIMITER) == Fields(productId, p)
  {
    DelimitersAreRuns();
    SeparatorHasNoHash();
    var f := Fields(productId, p);
    var e := Entry(productId, p);
    CleanBeforeRun(productId, '>');
    match p.signature
    case None =>
      assert f == [productId, p.originalJson];
      assert f[1..] == [p.originalJson];
      assert Join(f[1..], LINE_DELIMITER) == p.originalJson;
      assert e == productId + LINE_DELIMITER + p.originalJson;
      NoRunAcrossSeparator(productId, LINE_DELIMITER, p.originalJson, '#');
      SplitJoin(f, LINE_DELIMITER);
    case Some(sig) =>
      assert f == [productId, p.originalJson, sig];
      assert f[1..] == [p.originalJson, sig];
      assert f[1..][1..] == [sig];
      assert Join(f[1..][1..], LINE_DELIMITER) == sig;
      assert Join(f[1..], LINE_DELIMITER) == p.originalJson + LINE_DELIMITER + sig;
      assert e == productId + LINE_DELIMITER + (p.originalJson + LINE_DELIMITER + sig);
      NoRunAcrossSeparator(p.originalJson, LINE_DELIMITER, sig, '#');
      NoRunAcrossSeparator(productId, LINE_DELIMITER, p.originalJson + LINE_DELIMITER + sig, '#');
      CleanBeforeRun(p.originalJson, '>');
      SplitJoin(f, LINE_DELIMITER);
  }

  /** Reading back the entry of a storable, parsed purchase gives the same key and purchase. */
  lemma EntryRoundTrip(readJson: JsonReader, productId: string, p: Purchase)
    requires Storable(productId, p) && Parsed(readJson, p)
    ensures ParseEntry(readJson, Entry(productId, p)) == Some((productId, p))
  {
    EntryShape(productId, p);
  }

  lemma {:induction false} EntriesAt(order: seq<string>, m: map<string, Purchase>, i: nat)
    requires forall k :: k in order ==> k in m
    requires i < |order|
    ensures Entries(order, m)[i] == Entry(order[i], m[order[i]])
  {
    if i < |order| - 1 {
      EntriesAt(order[..|order| - 1], m, i);
    }
  }

  /** Reading the entries of `order` is reading all but the last, then binding the last key to its purchase. */
  lemma DecodeLastEntry(readJson: JsonReader, order: seq<string>, m: map<string, Purchase>)
    requires forall k :: k in order ==> k in m
    requires order != [] && Storable(order[|order| - 1], m[order[|order| - 1]]) && Parsed(readJson, m[order[|order| - 1]])
    ensures var k := order[|order| - 1];
      DecodeInto(map[], readJson, Entries(order, m))
      == DecodeInto(map[], readJson, Entries(order[..|order| - 1], m))[k := m[k]]
  {
    var front := order[..|order| - 1];
    var k := order[|order| - 1];
    var es := Entries(order, m);
    var d0 := DecodeInto(map[], readJson, Entries(front, m));
    assert es[..|es| - 1] == Entries(front, m) && es[|es| - 1] == Entry(k, m[k]);
    assert DecodeInto(map[], readJson, es) == AddEntry(d0, readJson, Entry(k, m[k]));
    EntryRoundTrip(readJson, k, m[k]);
  }

  /** Reading the entries of `order` yields exactly the keys of `order`, bound as in `m`. */
  lemma {:induction false} DecodeEntries(readJson: JsonReader, order: seq<string>, m: map<string, Purchase>)
    requires forall k :: k in order ==> k in m
    requires AllStorable(readJson, m)
    ensures DecodeInto(map[], readJson, Entries(order, m)) == map k | k in order :: m[k]
  {
    if order != [] {
      var front := order[..|order| - 1];
      var k := order[|order| - 1];
      DecodeLastEntry(readJson, order, m);
      DecodeEntries(readJson, front, m);
      RestrictionGrows(m, order);
    }
  }

  lemma RestrictionGrows(m: map<string, Purchase>, order: seq<string>)
    requires order != [] && forall x :: x in order ==> x in m
    ensures var k := order[|order| - 1];
      (map x | x in order[..|order| - 1] :: m[x])[k := m[k]] == map x | x in order :: m[x]
  {
    var front, k := order[..|order| - 1], order[|order| - 1];
    assert order == front + [k];
    assert forall x :: x in order <==> x in front || x == k;
  }

  /** Splitting a flush's text at the entry delimiter gives back its entries. */
  lemma SplitEntries(readJson: JsonReader, order: seq<string>, m: map<string, Purchase>)
    requires forall k :: k in order ==> k in m
    requires AllStorable(readJson, m) && order != []
    ensures Split(Encode(order, m), ENTRY_DELIMITER) == Entries(order, m)
  {
    var es := Entries(order, m);
    DelimitersAreRuns();
    forall i | 0 <= i < |es|
      ensures es[i] != "" && !Contains(es[i], ENTRY_DELIMITER) && Clean(es[i], ENTRY_DELIMITER)
    {
      EntriesAt(order, m, i);
      EntryShape(order[i], m[order[i]]);
      CleanBeforeRun(es[i], '#');
    }
    SplitJoin(es, ENTRY_DELIMITER);
  }

  lemma RestrictionToAllKeys(m: map<string, Purchase>, order: seq<string>)
    requires forall k :: k in order <==> k in m
    ensures (map k | k in order :: m[k]) == m
  {
  }

  /**
   * Round trip of the format: reading an encoding of a storable map rebuilds
   * the map, whatever order the keys were written in.
   */
  lemma DecodeEncode(readJson: JsonReader, order: seq<string>, m: map<string, Purchase>)
    requires IsKeyOrder(order, m)
    requires AllStorable(readJson, m)
    ensures Decode(readJson, Encode(order, m)) == m
  {
    if order == [] {
      assert m == map[];
      assert Split("", ENTRY_DELIMITER) == [""];
    } else {
      SplitEntries(readJson, order, m);
    }
    DecodeEntries(readJson, order, m);
    RestrictionToAllKeys(m, order);
  }

  /** Any encoding of `m` reads back as `m`. */
  lemma SerialisedReadsBack(readJson: JsonReader, s: string, m: map<string, Purchase>)
    requires Serialises(s, m)
    requires AllStorable(readJson, m)
    ensures Decode(readJson, s) == m
  {
    var order :| IsKeyOrder(order, m) && s == Encode(order, m);
    DecodeEncode(readJson, order, m);
  }

  /** The records `flush` can write and `load` read back: safe id, payload and signature, and a payload that parses. */
  ghost predicate Flushable(readJson: JsonReader, m: map<string, Purchase>) {
    forall k :: k in m ==>
      && SafeField(k) && SafeField(m[k].originalJson) && Parsed(readJson, m[k])
      && (m[k].signature.Some? ==> m[k].signature.value != "" && SafeField(m[k].signature.value))
  }

  /** The text "null" is a safe field, so a flushable map is storable once stored. */
  lemma FlushableStored(readJson: JsonReader, m: map<string, Purchase>)
    requires Flushable(readJson, m)
    ensures AllStorable(readJson, AsStored(m))
  {
    ShortHasNoRun("null", '#');
    ShortHasNoRun("null", '>');
    DelimitersAreRuns();
  }

  /**
   * Round trip of `flush` and `load`: what a flush of `m` writes, in any key
   * order, loads as `m` with every missing signature turned into "null", and
   * as `m` itself when every record has a signature.
   */
  lemma FlushLoadRoundTrip(readJson: JsonReader, s: string, m: map<string, Purchase>)
    requires Serialises(s, AsStored(m)) && Flushable(readJson, m)
    ensures Decode(readJson, s) == AsStored(m)
    ensures (forall k :: k in m ==> m[k].signature.Some?) ==> Decode(readJson, s) == m
  {
    FlushableStored(readJson, m);
    SerialisedReadsBack(readJson, s, AsStored(m));
    if forall k :: k in m ==> m[k].signature.Some? {
      SignedStoredUnchanged(m);
    }
  }

  // ---------------------------------------------------------------------
  // The forgiving parser

  /** An entry with no usable record: empty, fewer than two fields, or a payload that does not parse. */
  lemma DroppedEntries(readJson: JsonReader, entry: string)
    ensures entry == "" ==> ParseEntry(readJson, entry).None?
    ensures entry != "" && |Split(entry, LINE_DELIMITER)| < 2 ==> ParseEntry(readJson, entry).None?
    ensures entry != "" && |Split(entry, LINE_DELIMITER)| >= 2 && readJson(Split(entry, LINE_DELIMITER)[1]).None?
      ==> ParseEntry(readJson, entry).None?
  {
  }

  /** A two-field entry yields a purchase without a signature; a longer one takes the third field as signature. */
  lemma SignatureFromFieldCount(readJson: JsonReader, entry: string)
    requires ParseEntry(readJson, entry).Some?
    ensures var parts := Split(entry, LINE_DELIMITER);
      var p := ParseEntry(readJson, entry).value.1;
      && |parts| >= 2
      && (|parts| == 2 ==> p.signature.None?)
      && (|parts| > 2 ==> p.signature == Some(parts[2]))
      && p.originalJson == parts[1]
  {
  }

  /** Reading `a + b` is reading `a`, then reading `b` on top of the result. */
  lemma {:induction false} DecodeIntoAppend(readJson: JsonReader, m: map<string, Purchase>, a: seq<string>, b: seq<string>)
    ensures DecodeInto(m, readJson, a + b) == DecodeInto(DecodeInto(m, readJson, a), readJson, b)
  {
    if b == [] {
      assert a + b == a;
    } else {
      var front := b[..|b| - 1];
      DecodeIntoAppend(readJson, m, a, front);
      assert (a + b)[..|a + b| - 1] == a + front;
    }
  }

  /** An entry that yields nothing leaves every sibling's contribution as it was. */
  lemma DroppedEntryKeepsSiblings(
    readJson: JsonReader, m: map<string, Purchase>, before: seq<string>, bad: string, after: seq<string>)
    requires ParseEntry(readJson, bad).None?
    ensures DecodeInto(m, readJson, before + [bad] + after) == DecodeInto(m, readJson, before + after)
  {
    var head := DecodeInto(m, readJson, before);
    DecodeIntoAppend(readJson, m, before + [bad], after);
    DecodeIntoAppend(readJson, m, before, [bad]);
    assert [bad][..0] == [];
    assert DecodeInto(head, readJson, [bad]) == head;
    DecodeIntoAppend(readJson, m, before, after);
  }

  /** Every record the parser keeps is what `NewPurchase` builds from its own stored fields. */
  lemma {:induction false} DecodedRecordsReparse(readJson: JsonReader, m: map<string, Purchase>, entries: seq<string>)
    requires forall k :: k in m ==> NewPurchase(readJson, m[k].originalJson, m[k].signature) == Some(m[k])
    ensures forall k :: k in DecodeInto(m, readJson, entries) ==>
      var p := DecodeInto(m, readJson, entries)[k];
      NewPurchase(readJson, p.originalJson, p.signature) == Some(p)
  {
    if entries != [] {
      var e := entries[|entries| - 1];
      var front := DecodeInto(m, readJson, entries[..|entries| - 1]);
      DecodedRecordsReparse(readJson, m, entries[..|entries| - 1]);
      assert DecodeInto(m, readJson, entries) == AddEntry(front, readJson, e);
      match ParseEntry(readJson, e)
      case None =>
        assert AddEntry(front, readJson, e) == front;
      case Some((k, p)) =>
        SignatureFromFieldCount(readJson, e);
        assert readJson(p.originalJson) == Some(p.info);
    }
  }

  // ---------------------------------------------------------------------
  // A missing signature

  /**
   * A record without a signature, written as the source writes it and read
   * back, comes back with the signature "null".
   */
  lemma NullSignatureReadsBackAsText(readJson: JsonReader, productId: string, p: Purchase)
    requires SafeField(productId) && SafeField(p.originalJson) && Parsed(readJson, p)
    requires p.signature.None?
    ensures Decode(readJson, EntryAsWritten(productId, p)) == map[productId := p.(signature := Some("null"))]
    ensures Decode(readJson, EntryAsWritten(productId, p)) != map[productId := p]
  {
    var q := p.(signature := Some("null"));
    ShortHasNoRun("null", '#');
    ShortHasNoRun("null", '>');
    DelimitersAreRuns();
    assert Storable(productId, q);
    assert Fields(productId, q) == [productId, p.originalJson, "null"];
    assert EntryAsWritten(productId, p) == Entry(productId, q);
    assert Entries([productId], map[productId := q]) == [Entry(productId, q)];
    assert Encode([productId], map[productId := q]) == Entry(productId, q);
    DecodeEncode(readJson, [productId], map[productId := q]);
    assert map[productId := q][productId] != map[productId := p][productId];
  }

  /** With the signature field omitted instead, the same record reads back unchanged. */
  lemma NullSignatureRoundTrips(readJson: JsonReader, productId: string, p: Purchase)
    requires Storable(productId, p) && Parsed(readJson, p)
    requires p.signature.None?
    ensures Decode(readJson, Entry(productId, p)) == map[productId := p]
  {
    assert Encode([productId], map[productId := p]) == Entry(productId, p);
    DecodeEncode(readJson, [productId], map[productId := p]);
  }
}
