/**
 * The local-only backend: every operation reads or overwrites the products
 * key, and a JSON file carries the catalogue between devices.
 */
module BasicStorage {
  import opened Records
  import opened LocalStore

  /** `getBasicProducts`: the stored list, or `[]` when the key is absent or does not parse. */
  method GetBasicProducts(ls: LocalStorage) returns (items: seq<Record>)
    ensures PRODUCTS_KEY !in ls.entries ==> items == []
    ensures PRODUCTS_KEY in ls.entries && ls.entries[PRODUCTS_KEY].Catalogue? ==> items == ls.entries[PRODUCTS_KEY].items
    ensures PRODUCTS_KEY in ls.entries && ls.entries[PRODUCTS_KEY].Opaque? ==> items == []
    ensures items == SavedOrEmpty(ls.entries)
  {
    if PRODUCTS_KEY in ls.entries {
      var saved := ls.entries[PRODUCTS_KEY];
      if saved.Catalogue? {
        return saved.items;
      }
    }
    return [];
  }

  /** `saveBasicProducts`: the key holds exactly the argument afterwards. */
  method SaveBasicProducts(ls: LocalStorage, products: seq<Record>) returns (ok: bool)
    modifies ls
    ensures ls.entries == old(ls.entries)[PRODUCTS_KEY := Catalogue(products)]
    ensures SavedOrEmpty(ls.entries) == products
    ensures ok
  {
    ls.SetItem(PRODUCTS_KEY, Catalogue(products));
    ok := true;
  }

  /** `addBasicProduct`: the stored list with the product appended. */
  method AddBasicProduct(ls: LocalStorage, product: Record) returns (ok: bool)
    modifies ls
    ensures ls.entries == old(ls.entries)[PRODUCTS_KEY := Catalogue(SavedOrEmpty(old(ls.entries)) + [product])]
    ensures ok
  {
    var existing := GetBasicProducts(ls);
    ok := SaveBasicProducts(ls, existing + [product]);
  }

  /** `deleteBasicProduct`: the stored list without that id; a missing id still reports success. */
  method DeleteBasicProduct(ls: LocalStorage, id: Id) returns (ok: bool)
    modifies ls
    ensures ls.entries == old(ls.entries)[PRODUCTS_KEY := Catalogue(Without(SavedOrEmpty(old(ls.entries)), id))]
    ensures id !in IdsOf(SavedOrEmpty(old(ls.entries))) ==>
      ls.entries == old(ls.entries)[PRODUCTS_KEY := Catalogue(SavedOrEmpty(old(ls.entries)))]
    ensures ok
  {
    var existing := GetBasicProducts(ls);
    ok := SaveBasicProducts(ls, Without(existing, id));
  }

  /** `clearBasicProducts`: the stored list is empty. */
  method ClearBasicProducts(ls: LocalStorage) returns (ok: bool)
    modifies ls
    ensures ls.entries == old(ls.entries)[PRODUCTS_KEY := Catalogue([])]
    ensures ok
  {
    ok := SaveBasicProducts(ls, []);
  }

  /**
   * The serialise step of `exportProducts`: the document written to the
   * download is the stored list as a JSON array.
   */
  method ExportProducts(ls: LocalStorage) returns (ok: bool, document: JsonValue)
    ensures document == JArray(SavedOrEmpty(ls.entries))
    ensures ok
  {
    var products := GetBasicProducts(ls);
    document := JArray(products);
    ok := true;
  }

  /** The list an import would store: the parsed file when it is an array, nothing otherwise. */
  function ImportedList(file: Option<JsonValue>): Option<seq<Record>> {
    match file
    case Some(JArray(items)) => Some(items)
    case _ => None
  }

  /**
   * `importProducts`: `file` is the parsed text, `None` when reading or
   * parsing failed. An array replaces the stored list; anything else
   * reports failure and leaves storage untouched.
   */
  method ImportProducts(ls: LocalStorage, file: Option<JsonValue>) returns (ok: bool)
    modifies ls
    ensures ok <==> ImportedList(file).Some?
    ensures ok ==> ls.entries == old(ls.entries)[PRODUCTS_KEY := Catalogue(ImportedList(file).value)]
    ensures !ok ==> ls.entries == old(ls.entries)
  {
    if file.None? {
      return false;
    }
    var parsed := file.value;
    if parsed.JArray? {
      ok := SaveBasicProducts(ls, parsed.items);
    } else {
      ok := false;
    }
  }

  /**
   * Importing the document that an export produced, with nothing in between,
   * restores the same stored list.
   */
  lemma ExportThenImportRestores(entries: map<string, Entry>)
    ensures ImportedList(Some(JArray(SavedOrEmpty(entries)))) == Some(SavedOrEmpty(entries))
    ensures SavedOrEmpty(entries[PRODUCTS_KEY := Catalogue(SavedOrEmpty(entries))]) == SavedOrEmpty(entries)
  {
  }

  /** An import replaces rather than merges: the stored list afterwards does not depend on the one before. */
  lemma ImportReplaces(before1: map<string, Entry>, before2: map<string, Entry>, items: seq<Record>)
    ensures SavedOrEmpty(before1[PRODUCTS_KEY := Catalogue(items)]) == SavedOrEmpty(before2[PRODUCTS_KEY := Catalogue(items)])
  {
  }
}
