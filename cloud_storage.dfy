/**
 * The remote-document backend: one JSON document on a hosted bin, with the
 * products key as a local backup and fallback.
 */
module CloudStorage {
  import opened Records
  import opened LocalStore
  import opened Http

  /**
   * The body of a GET of the bin: its `record` field, `None` when that
   * field is absent or null.
   */
  type BinDocument = Option<seq<Record>>

  /** What `getCloudProducts` resolves to (`Throws` when it rejects). */
  function CloudRead(entries: map<string, Entry>, reply: Reply<BinDocument>): Load {
    if !reply.IsOk() && reply.Response? && reply.status == 404 then Loaded([])
    else if reply.IsOk() && reply.body.Some? then
      Loaded(match reply.body.value case Some(record) => record case None => [])
    else ParseSaved(entries)
  }

  /**
   * `getCloudProducts`. A 404 means the bin does not exist yet: the empty
   * list, whatever is stored locally. Any other failure (a non-ok status, a
   * rejected fetch, a body that is not JSON) falls back to the stored list;
   * a stored text that does not parse makes the call reject.
   */
  method GetCloudProducts(ls: LocalStorage, reply: Reply<BinDocument>) returns (r: Load)
    ensures reply.Response? && reply.status == 404 ==> r == Loaded([])
    ensures reply.IsOk() && reply.body.Some? && reply.body.value.Some? ==> r == Loaded(reply.body.value.value)
    ensures reply.IsOk() && reply.body == Some(None) ==> r == Loaded([])
    ensures !reply.IsOk() && !(reply.Response? && reply.status == 404) ==> r == ParseSaved(ls.entries)
    ensures reply.IsOk() && reply.body.None? ==> r == ParseSaved(ls.entries)
    ensures r == CloudRead(ls.entries, reply)
  {
    if !reply.IsOk() {
      if reply.Response? && reply.status == 404 {
        return Loaded([]);
      }
      // the thrown HTTP error and a rejected fetch both land in the catch
      return ParseSaved(ls.entries);
    }
    match reply.body {
      case None =>
        r := ParseSaved(ls.entries);
      case Some(record) =>
        r := Loaded(if record.Some? then record.value else []);
    }
  }

  /**
   * `saveCloudProducts`. `sent` is the list whose JSON text the PUT carries
   * as the bin's new content; it is always sent. The PUT's outcome decides
   * the result, and the products key holds the saved list on both paths.
   */
  method SaveCloudProducts(ls: LocalStorage, products: seq<Record>, put: Reply<()>) returns (ok: bool, sent: seq<Record>)
    modifies ls
    ensures sent == products
    ensures ls.entries == old(ls.entries)[PRODUCTS_KEY := Catalogue(products)]
    ensures ok <==> put.IsOk()
  {
    sent := products;
    if !put.IsOk() {
      ls.SetItem(PRODUCTS_KEY, Catalogue(products));
      return false, sent;
    }
    ls.SetItem(PRODUCTS_KEY, Catalogue(products));
    ok := true;
  }

  /** `addCloudProduct`: saves what the GET gave plus the product; a rejected GET saves nothing. */
  method AddCloudProduct(ls: LocalStorage, product: Record, fetched: Reply<BinDocument>, put: Reply<()>)
    returns (ok: bool, sent: Option<seq<Record>>)
    modifies ls
    ensures CloudRead(old(ls.entries), fetched).Throws? ==> !ok && sent.None? && ls.entries == old(ls.entries)
    ensures CloudRead(old(ls.entries), fetched).Loaded? ==>
      var updated := CloudRead(old(ls.entries), fetched).items + [product];
      && ok == put.IsOk()
      && sent == Some(updated)
      && ls.entries == old(ls.entries)[PRODUCTS_KEY := Catalogue(updated)]
  {
    var existing := GetCloudProducts(ls, fetched);
    if existing.Throws? {
      return false, None;
    }
    var body;
    ok, body := SaveCloudProducts(ls, existing.items + [product], put);
    sent := Some(body);
  }

  /** `deleteCloudProduct`: saves what the GET gave without that id. */
  method DeleteCloudProduct(ls: LocalStorage, id: Id, fetched: Reply<BinDocument>, put: Reply<()>)
    returns (ok: bool, sent: Option<seq<Record>>)
    modifies ls
    ensures CloudRead(old(ls.entries), fetched).Throws? ==> !ok && sent.None? && ls.entries == old(ls.entries)
    ensures CloudRead(old(ls.entries), fetched).Loaded? ==>
      var updated := Without(CloudRead(old(ls.entries), fetched).items, id);
      && ok == put.IsOk()
      && sent == Some(updated)
      && ls.entries == old(ls.entries)[PRODUCTS_KEY := Catalogue(updated)]
  {
    var existing := GetCloudProducts(ls, fetched);
    if existing.Throws? {
      return false, None;
    }
    var body;
    ok, body := SaveCloudProducts(ls, Without(existing.items, id), put);
    sent := Some(body);
  }

  /** `clearCloudProducts`: saves the empty list. */
  method ClearCloudProducts(ls: LocalStorage, put: Reply<()>) returns (ok: bool, sent: seq<Record>)
    modifies ls
    ensures sent == []
    ensures ls.entries == old(ls.entries)[PRODUCTS_KEY := Catalogue([])]
    ensures ok <==> put.IsOk()
  {
    ok, sent := SaveCloudProducts(ls, [], put);
  }

  /**
   * A bin whose content a save PUT reads back, on an ok GET, as the list
   * that save sent, whatever the local backup holds.
   */
  lemma SavedBinReadsBack(entries: map<string, Entry>, sent: seq<Record>, status: int)
    requires 200 <= status <= 299
    ensures CloudRead(entries, Response(status, Some(Some(sent)))) == Loaded(sent)
  {
  }

  /**
   * With the remote store failing every call (anything but a 404), a read
   * after a save returns the list that save wrote, though the save reported
   * failure.
   */
  lemma OutageReadsLastSave(entries: map<string, Entry>, saved: seq<Record>, reply: Reply<BinDocument>)
    requires !reply.IsOk() && !(reply.Response? && reply.status == 404)
    ensures CloudRead(entries[PRODUCTS_KEY := Catalogue(saved)], reply) == Loaded(saved)
  {
  }

  /** A bin that does not exist yet reads as empty, whatever the local backup holds. */
  lemma NotFoundIgnoresLocal(entries1: map<string, Entry>, entries2: map<string, Entry>, body: Option<BinDocument>)
    ensures CloudRead(entries1, Response(404, body)) == CloudRead(entries2, Response(404, body)) == Loaded([])
  {
  }
}
