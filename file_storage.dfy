/**
 * The static-file backend: reads the catalogue from a JSON file served with
 * the site, and writes only to the products key, since a browser cannot
 * write that file.
 */
module FileStorage {
  import opened Records
  import opened LocalStore
  import opened Http

  /** What `getFileProducts` resolves to (`Throws` when it rejects). */
  function FileRead(entries: map<string, Entry>, reply: Reply<JsonValue>): Load {
    if reply.IsOk() && reply.body.Some? then
      Loaded(match reply.body.value case JArray(items) => items case JOther => [])
    else ParseSaved(entries)
  }

  /**
   * `getFileProducts`: an ok fetch yields the file when it is an array and
   * `[]` when it is not; a failed fetch, a non-ok status or a body that is
   * not JSON falls back to the stored list.
   */
  method GetFileProducts(ls: LocalStorage, reply: Reply<JsonValue>) returns (r: Load)
    ensures reply.IsOk() && reply.body.Some? && reply.body.value.JArray? ==> r == Loaded(reply.body.value.items)
    ensures reply.IsOk() && reply.body == Some(JOther) ==> r == Loaded([])
    ensures !(reply.IsOk() && reply.body.Some?) ==> r == ParseSaved(ls.entries)
    ensures r == FileRead(ls.entries, reply)
  {
    if !reply.IsOk() || reply.body.None? {
      return ParseSaved(ls.entries);
    }
    var products := reply.body.value;
    r := Loaded(if products.JArray? then products.items else []);
  }

  /** `saveFileProducts`: writes the products key only, and always reports success. */
  method SaveFileProducts(ls: LocalStorage, products: seq<Record>) returns (ok: bool)
    modifies ls
    ensures ls.entries == old(ls.entries)[PRODUCTS_KEY := Catalogue(products)]
    ensures ok
  {
    ls.SetItem(PRODUCTS_KEY, Catalogue(products));
    ok := true;
  }

  /** `addFileProduct`: stores the fetched list (or its fallback) plus the product. */
  method AddFileProduct(ls: LocalStorage, product: Record, fetched: Reply<JsonValue>) returns (ok: bool)
    modifies ls
    ensures FileRead(old(ls.entries), fetched).Throws? ==> !ok && ls.entries == old(ls.entries)
    ensures FileRead(old(ls.entries), fetched).Loaded? ==>
      && ok
      && ls.entries == old(ls.entries)[PRODUCTS_KEY := Catalogue(FileRead(old(ls.entries), fetched).items + [product])]
  {
    var existing := GetFileProducts(ls, fetched);
    if existing.Throws? {
      return false;
    }
    ok := SaveFileProducts(ls, existing.items + [product]);
  }

  /** `deleteFileProduct`: stores the fetched list (or its fallback) without that id. */
  method DeleteFileProduct(ls: LocalStorage, id: Id, fetched: Reply<JsonValue>) returns (ok: bool)
    modifies ls
    ensures FileRead(old(ls.entries), fetched).Throws? ==> !ok && ls.entries == old(ls.entries)
    ensures FileRead(old(ls.entries), fetched).Loaded? ==>
      && ok
      && ls.entries == old(ls.entries)[PRODUCTS_KEY := Catalogue(Without(FileRead(old(ls.entries), fetched).items, id))]
  {
    var existing := GetFileProducts(ls, fetched);
    if existing.Throws? {
      return false;
    }
    ok := SaveFileProducts(ls, Without(existing.items, id));
  }

  /** `clearFileProducts`: stores the empty list. */
  method ClearFileProducts(ls: LocalStorage) returns (ok: bool)
    modifies ls
    ensures ls.entries == old(ls.entries)[PRODUCTS_KEY := Catalogue([])]
    ensures ok
  {
    ok := SaveFileProducts(ls, []);
  }

  /**
   * When the file is served, an add starts from the file's contents and not
   * from the local list: local edits made since the file was published are
   * overwritten.
   */
  lemma AddStartsFromServedFile(entries: map<string, Entry>, served: seq<Record>, status: int)
    requires 200 <= status <= 299
    ensures FileRead(entries, Response(status, Some(JArray(served)))) == Loaded(served)
  {
  }

  /** Once the file is unreachable, a read returns what the last save stored. */
  lemma OutageReadsLastSave(entries: map<string, Entry>, saved: seq<Record>, reply: Reply<JsonValue>)
    requires !reply.IsOk()
    ensures FileRead(entries[PRODUCTS_KEY := Catalogue(saved)], reply) == Loaded(saved)
  {
  }
}
