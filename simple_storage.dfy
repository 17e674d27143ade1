/**
 * The local-first backend: localStorage is the store, and every read of a
 * non-empty list and every save pushes a copy to a remote bin, whose id is
 * remembered under its own key. Sync failures are swallowed.
 */
module SimpleStorage {
  import opened Records
  import opened LocalStore
  import opened Http

  /** The `metadata` of a created bin; `id` is `None` when the field is missing. */
  datatype BinMetadata = BinMetadata(id: Option<string>)

  /**
   * The reply to the bin-creating POST; its body is the `metadata` field,
   * `None` when that field is missing (reading `.id` of it throws).
   */
  type SyncReply = Reply<Option<BinMetadata>>

  /** The text written under the bin id key: the id, or "undefined" when the id is missing. */
  function BinIdText(meta: BinMetadata): string {
    match meta.id
    case Some(id) => id
    case None => "undefined"
  }

  /** localStorage after `syncToOnlineStorage`: only an ok reply with metadata writes, and only the bin id key. */
  function SyncEffect(entries: map<string, Entry>, reply: SyncReply): (r: map<string, Entry>)
    ensures forall k :: k != BIN_ID_KEY ==> (k in r <==> k in entries)
    ensures forall k :: k != BIN_ID_KEY && k in r ==> r[k] == entries[k]
    ensures !reply.IsOk() ==> r == entries
  {
    if reply.IsOk() && reply.body.Some? && reply.body.value.Some? then
      entries[BIN_ID_KEY := Opaque(BinIdText(reply.body.value.value))]
    else entries
  }

  /** `syncToOnlineStorage`: never throws; writes the bin id key only on an ok response. */
  method SyncToOnlineStorage(ls: LocalStorage, products: seq<Record>, reply: SyncReply)
    modifies ls
    ensures ls.entries == SyncEffect(old(ls.entries), reply)
  {
    // POST of `products`: a rejected fetch, a non-ok status, a body that is
    // not JSON and a missing `metadata` are all caught here
    if reply.IsOk() && reply.body.Some? {
      var metadata := reply.body.value;
      if metadata.Some? {
        ls.SetItem(BIN_ID_KEY, Opaque(BinIdText(metadata.value)));
      }
    }
  }

  /** localStorage after a read: the sync runs only for a non-empty list and when no sync is in progress. */
  function ReadEffect(entries: map<string, Entry>, syncInProgress: bool, reply: SyncReply): map<string, Entry> {
    if |SavedOrEmpty(entries)| > 0 && !syncInProgress then SyncEffect(entries, reply) else entries
  }

  /** The module's state: the `syncInProgress` flag, and the localStorage it works on. */
  class SimpleStore {
    var syncInProgress: bool
    const local: LocalStorage

    constructor(local: LocalStorage)
      ensures this.local == local && !syncInProgress
    {
      this.local := local;
      syncInProgress := false;
    }

    /**
     * `getSimpleProducts`: always the local list (or `[]`), whatever the sync
     * does; the flag is back to what it was when the call returns.
     */
    method GetSimpleProducts(reply: SyncReply) returns (items: seq<Record>)
      modifies this, local
      ensures items == SavedOrEmpty(old(local.entries))
      ensures local.entries == ReadEffect(old(local.entries), old(syncInProgress), reply)
      ensures syncInProgress == old(syncInProgress)
    {
      var saved := ParseSaved(local.entries);
      if saved.Throws? {
        return [];
      }
      var products := saved.items;
      if |products| > 0 && !syncInProgress {
        syncInProgress := true;
        SyncToOnlineStorage(local, products, reply);
        syncInProgress := false;
      }
      items := products;
    }

    /** `saveSimpleProducts`: writes the products key, then syncs, and succeeds whatever the sync does. */
    method SaveSimpleProducts(products: seq<Record>, reply: SyncReply) returns (ok: bool)
      modifies local
      ensures local.entries == SyncEffect(old(local.entries)[PRODUCTS_KEY := Catalogue(products)], reply)
      ensures PRODUCTS_KEY in local.entries && local.entries[PRODUCTS_KEY] == Catalogue(products)
      ensures ok
    {
      local.SetItem(PRODUCTS_KEY, Catalogue(products));
      SyncToOnlineStorage(local, products, reply);
      ok := true;
    }

    /** `addSimpleProduct`: stores the local list plus the product. */
    method AddSimpleProduct(product: Record, readSync: SyncReply, saveSync: SyncReply) returns (ok: bool)
      modifies this, local
      ensures local.entries == SyncEffect(
        ReadEffect(old(local.entries), old(syncInProgress), readSync)
          [PRODUCTS_KEY := Catalogue(SavedOrEmpty(old(local.entries)) + [product])], saveSync)
      ensures PRODUCTS_KEY in local.entries
      ensures local.entries[PRODUCTS_KEY] == Catalogue(SavedOrEmpty(old(local.entries)) + [product])
      ensures syncInProgress == old(syncInProgress)
      ensures ok
    {
      var existing := GetSimpleProducts(readSync);
      ok := SaveSimpleProducts(existing + [product], saveSync);
    }

    /** `deleteSimpleProduct`: stores the local list without that id. */
    method DeleteSimpleProduct(id: Id, readSync: SyncReply, saveSync: SyncReply) returns (ok: bool)
      modifies this, local
      ensures local.entries == SyncEffect(
        ReadEffect(old(local.entries), old(syncInProgress), readSync)
          [PRODUCTS_KEY := Catalogue(Without(SavedOrEmpty(old(local.entries)), id))], saveSync)
      ensures PRODUCTS_KEY in local.entries
      ensures local.entries[PRODUCTS_KEY] == Catalogue(Without(SavedOrEmpty(old(local.entries)), id))
      ensures syncInProgress == old(syncInProgress)
      ensures ok
    {
      var existing := GetSimpleProducts(readSync);
      ok := SaveSimpleProducts(Without(existing, id), saveSync);
    }

    /** `clearSimpleProducts`: stores the empty list. */
    method ClearSimpleProducts(saveSync: SyncReply) returns (ok: bool)
      modifies local
      ensures local.entries == SyncEffect(old(local.entries)[PRODUCTS_KEY := Catalogue([])], saveSync)
      ensures PRODUCTS_KEY in local.entries && local.entries[PRODUCTS_KEY] == Catalogue([])
      ensures ok
    {
      ok := SaveSimpleProducts([], saveSync);
    }
  }

  /** Syncing never touches the products key, so a read leaves the stored list as it found it. */
  lemma ReadKeepsStoredList(entries: map<string, Entry>, syncInProgress: bool, reply: SyncReply)
    ensures SavedOrEmpty(ReadEffect(entries, syncInProgress, reply)) == SavedOrEmpty(entries)
  {
    assert PRODUCTS_KEY != BIN_ID_KEY;
  }

  /** An empty catalogue is never synced on read, whatever the flag and the remote reply. */
  lemma EmptyListIsNotSynced(entries: map<string, Entry>, syncInProgress: bool, reply: SyncReply)
    requires SavedOrEmpty(entries) == []
    ensures ReadEffect(entries, syncInProgress, reply) == entries
  {
  }
}
