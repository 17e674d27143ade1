/**
 * The echo-service backend: localStorage first, with a remote copy that, when
 * it answers with an array, replaces the local one.
 */
module InstantStorage {
  import opened Records
  import opened LocalStore
  import opened Http

  /** The remote list: present when the response is ok and its `json` field is an array. */
  function RemoteList(reply: Reply<JsonValue>): Option<seq<Record>> {
    if reply.IsOk() && reply.body.Some? && reply.body.value.JArray? then Some(reply.body.value.items) else None
  }

  /** What `getInstantProducts` returns. */
  function InstantRead(entries: map<string, Entry>, reply: Reply<JsonValue>): seq<Record> {
    match ParseSaved(entries)
    case Throws => []
    case Loaded(local) => if RemoteList(reply).Some? then RemoteList(reply).value else local
  }

  /** The products key after `getInstantProducts`. */
  function InstantReadEffect(entries: map<string, Entry>, reply: Reply<JsonValue>): map<string, Entry> {
    if ParseSaved(entries).Loaded? && RemoteList(reply).Some? then
      entries[PRODUCTS_KEY := Catalogue(RemoteList(reply).value)]
    else entries
  }

  /**
   * `getInstantProducts`. The local list is read before the fetch; a stored
   * text that does not parse ends the call at once with `[]`. A remote array
   * overwrites the products key and is returned; otherwise, including a
   * rejected fetch, the local list read before is returned.
   */
  method GetInstantProducts(ls: LocalStorage, reply: Reply<JsonValue>) returns (items: seq<Record>)
    modifies ls
    ensures ParseSaved(old(ls.entries)).Throws? ==> items == [] && ls.entries == old(ls.entries)
    ensures ParseSaved(old(ls.entries)).Loaded? && RemoteList(reply).Some? ==>
      items == RemoteList(reply).value && ls.entries == old(ls.entries)[PRODUCTS_KEY := Catalogue(items)]
    ensures ParseSaved(old(ls.entries)).Loaded? && RemoteList(reply).None? ==>
      items == ParseSaved(old(ls.entries)).items && ls.entries == old(ls.entries)
    ensures items == InstantRead(old(ls.entries), reply)
    ensures ls.entries == InstantReadEffect(old(ls.entries), reply)
  {
    var local := ParseSaved(ls.entries);
    if local.Throws? {
      return [];
    }
    var products := local.items;
    if reply.IsOk() && reply.body.Some? {
      var data := reply.body.value;
      if data.JArray? {
        ls.SetItem(PRODUCTS_KEY, Catalogue(data.items));
        return data.items;
      }
    }
    items := products;
  }

  /** `saveInstantProducts`: writes the products key before the POST, and succeeds whatever the POST does. */
  method SaveInstantProducts(ls: LocalStorage, products: seq<Record>) returns (ok: bool)
    modifies ls
    ensures ls.entries == old(ls.entries)[PRODUCTS_KEY := Catalogue(products)]
    ensures ok
  {
    ls.SetItem(PRODUCTS_KEY, Catalogue(products));
    // the POST of the list: its outcome, failure included, is ignored
    ok := true;
  }

  /** `addInstantProduct`: stores what the read returned plus the product. */
  method AddInstantProduct(ls: LocalStorage, product: Record, fetched: Reply<JsonValue>) returns (ok: bool)
    modifies ls
    ensures ls.entries == old(ls.entries)[PRODUCTS_KEY := Catalogue(InstantRead(old(ls.entries), fetched) + [product])]
    ensures ok
  {
    var existing := GetInstantProducts(ls, fetched);
    ok := SaveInstantProducts(ls, existing + [product]);
  }

  /** `deleteInstantProduct`: stores what the read returned without that id; a missing id keeps it as read. */
  method DeleteInstantProduct(ls: LocalStorage, id: Id, fetched: Reply<JsonValue>) returns (ok: bool)
    modifies ls
    ensures ls.entries == old(ls.entries)[PRODUCTS_KEY := Catalogue(Without(InstantRead(old(ls.entries), fetched), id))]
    ensures id !in IdsOf(InstantRead(old(ls.entries), fetched)) ==>
      ls.entries == old(ls.entries)[PRODUCTS_KEY := Catalogue(InstantRead(old(ls.entries), fetched))]
    ensures ok
  {
    var existing := GetInstantProducts(ls, fetched);
    ok := SaveInstantProducts(ls, Without(existing, id));
  }

  /** `clearInstantProducts`: stores the empty list. */
  method ClearInstantProducts(ls: LocalStorage) returns (ok: bool)
    modifies ls
    ensures ls.entries == old(ls.entries)[PRODUCTS_KEY := Catalogue([])]
    ensures ok
  {
    ok := SaveInstantProducts(ls, []);
  }

  /** After a read, the products key holds exactly the list that read returned, unless it did not parse. */
  lemma ReadLeavesWhatItReturns(entries: map<string, Entry>, reply: Reply<JsonValue>)
    requires ParseSaved(entries).Loaded?
    ensures ParseSaved(InstantReadEffect(entries, reply)) == Loaded(InstantRead(entries, reply))
  {
  }
}
