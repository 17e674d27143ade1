/**
 * The browser's localStorage as every component of the catalogue sees it: a
 * map from key to stored text, of which the catalogue uses two keys.
 */
module LocalStore {
  import opened Records

  /** The key under which the whole catalogue is kept, as one JSON array. */
  const PRODUCTS_KEY := "aliexpress-products"

  /** The key under which the simple backend remembers the id of its remote bin. */
  const BIN_ID_KEY := "aliexpress-bin-id"

  /**
   * The text stored under a key. `Catalogue(items)` is the text that
   * `JSON.stringify(items)` wrote; `Opaque(text)` is any other text, which
   * `JSON.parse` rejects (the empty text is never parsed: it is falsy).
   */
  datatype Entry = Catalogue(items: seq<Record>) | Opaque(text: string)

  /** The outcome of a read: the list returned, or an exception that escapes the read. */
  datatype Load = Loaded(items: seq<Record>) | Throws

  class LocalStorage {
    var entries: map<string, Entry>

    constructor(entries: map<string, Entry>)
      ensures this.entries == entries
    {
      this.entries := entries;
    }

    /** `localStorage.setItem(key, value)`: overwrites one key and no other. */
    method SetItem(key: string, value: Entry)
      modifies this
      ensures entries == old(entries)[key := value]
    {
      entries := entries[key := value];
    }
  }

  /**
   * `const saved = localStorage.getItem(PRODUCTS_KEY);
   *  return saved ? JSON.parse(saved) : [];` with a parse error left to the caller.
   */
  function ParseSaved(entries: map<string, Entry>): (r: Load)
    ensures PRODUCTS_KEY !in entries ==> r == Loaded([])
    ensures r.Throws? <==> PRODUCTS_KEY in entries && entries[PRODUCTS_KEY].Opaque? && entries[PRODUCTS_KEY].text != ""
    ensures r.Loaded? && PRODUCTS_KEY in entries && entries[PRODUCTS_KEY].Catalogue? ==>
      r.items == entries[PRODUCTS_KEY].items
    ensures r.Loaded? && r.items != [] ==> PRODUCTS_KEY in entries && entries[PRODUCTS_KEY] == Catalogue(r.items)
  {
    if PRODUCTS_KEY !in entries then Loaded([])
    else match entries[PRODUCTS_KEY]
      case Catalogue(items) => Loaded(items)
      case Opaque(text) => if text == "" then Loaded([]) else Throws
  }

  /** The same read inside a `try` whose `catch` returns `[]`. */
  function SavedOrEmpty(entries: map<string, Entry>): (r: seq<Record>)
    ensures PRODUCTS_KEY in entries && entries[PRODUCTS_KEY].Catalogue? ==> r == entries[PRODUCTS_KEY].items
    ensures !(PRODUCTS_KEY in entries && entries[PRODUCTS_KEY].Catalogue?) ==> r == []
  {
    match ParseSaved(entries)
    case Loaded(items) => items
    case Throws => []
  }

  /** Writing a list under the products key and reading it back gives the list. */
  lemma ReadBackAfterWrite(entries: map<string, Entry>, items: seq<Record>)
    ensures ParseSaved(entries[PRODUCTS_KEY := Catalogue(items)]) == Loaded(items)
    ensures SavedOrEmpty(entries[PRODUCTS_KEY := Catalogue(items)]) == items
  {
  }

  /** A read that cannot parse the stored text yields the empty list when caught. */
  lemma CaughtParseErrorIsEmpty(entries: map<string, Entry>)
    requires ParseSaved(entries).Throws?
    ensures SavedOrEmpty(entries) == []
    ensures PRODUCTS_KEY in entries && entries[PRODUCTS_KEY].Opaque?
  {
  }
}
