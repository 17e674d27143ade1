/**
 * The `useProducts` hook: the in-memory catalogue and the effect that mirrors
 * every change of it to localStorage.
 */
module App {
  import opened Records
  import opened LocalStore

  class ProductsHook {
    var products: seq<Record>
    const storage: LocalStorage

    /** The state the effect establishes after every render: the stored list is the in-memory list. */
    predicate Mirrored()
      reads this, storage
    {
      PRODUCTS_KEY in storage.entries && storage.entries[PRODUCTS_KEY] == Catalogue(products)
    }

    /**
     * The lazy initial state (the saved list, or `[]` when there is none or it
     * does not parse), followed by the effect's first run.
     */
    constructor(storage: LocalStorage)
      modifies storage
      ensures this.storage == storage
      ensures products == SavedOrEmpty(old(storage.entries))
      ensures storage.entries == old(storage.entries)[PRODUCTS_KEY := Catalogue(products)]
      ensures Mirrored()
    {
      this.storage := storage;
      products := SavedOrEmpty(storage.entries);
      new;
      SaveEffect();
    }

    /** The effect: `localStorage.setItem(PRODUCTS_KEY, JSON.stringify(products))`. */
    method SaveEffect()
      modifies storage
      ensures storage.entries == old(storage.entries)[PRODUCTS_KEY := Catalogue(products)]
      ensures Mirrored()
    {
      storage.SetItem(PRODUCTS_KEY, Catalogue(products));
    }

    /** `updateProducts`: the list is replaced wholesale. */
    method UpdateProducts(newProducts: seq<Record>)
      modifies this, storage
      ensures products == newProducts
      ensures storage.entries == old(storage.entries)[PRODUCTS_KEY := Catalogue(newProducts)]
      ensures Mirrored()
    {
      products := newProducts;
      SaveEffect();
    }

    /** `addProduct`: one element appended at the end, the prefix untouched. */
    method AddProduct(product: Record)
      modifies this, storage
      ensures products == old(products) + [product]
      ensures products[..|old(products)|] == old(products)
      ensures storage.entries == old(storage.entries)[PRODUCTS_KEY := Catalogue(products)]
      ensures Mirrored()
    {
      products := products + [product];
      SaveEffect();
    }

    /** `deleteProduct`: the products whose id differs, in order; an absent id changes nothing. */
    method DeleteProduct(id: Id)
      modifies this, storage
      ensures products == Without(old(products), id)
      ensures |products| <= |old(products)|
      ensures id !in IdsOf(old(products)) ==> products == old(products)
      ensures storage.entries == old(storage.entries)[PRODUCTS_KEY := Catalogue(products)]
      ensures Mirrored()
    {
      products := Without(products, id);
      SaveEffect();
    }

    /** `clearAllProducts`: the empty list. */
    method ClearAllProducts()
      modifies this, storage
      ensures products == []
      ensures storage.entries == old(storage.entries)[PRODUCTS_KEY := Catalogue([])]
      ensures Mirrored()
    {
      products := [];
      SaveEffect();
    }
  }

  /**
   * A page reload re-reads what the effect stored, so the hook comes back
   * with the list it held.
   */
  lemma ReloadRestoresProducts(entries: map<string, Entry>, products: seq<Record>)
    requires PRODUCTS_KEY in entries && entries[PRODUCTS_KEY] == Catalogue(products)
    ensures SavedOrEmpty(entries) == products
  {
  }
}
