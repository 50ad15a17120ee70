/** The favorites screen: the catalog products whose id is a stored
    favorite, and the trash button that removes one. */
module FavoritesScreen {
  import opened Lists
  import opened Catalog
  import opened Storage

  /** Removing an id from the stored favorites removes exactly the product
      with that id from the resolved list and keeps the others in order. */
  lemma RemoveCommutesWithResolution(ids: seq<string>, id: string)
    ensures ProductsWithIds(Without(ids, id)) == Filter((p: Product) => p.id != id, ProductsWithIds(ids))
  {
    var isFavorite := (p: Product) => p.id in ids;
    var isKept := (p: Product) => p.id != id;
    var both := (p: Product) => p.id in Without(ids, id);
    FilterFilter(isKept, isFavorite, both, MockProducts);
  }

  class FavoritesView {
    const store: Store
    /** The `favorites` state cell. */
    var favorites: seq<Product>

    /** The screen shows the resolution of the stored ids. */
    ghost predicate Synced()
      reads this`favorites, store`favorites
    {
      favorites == ProductsWithIds(store.FavoritesGet())
    }

    /** The mount effect: catalog order, not the order the ids were added. */
    constructor (store: Store)
      ensures this.store == store && Synced()
      ensures forall p :: p in favorites <==> p in MockProducts && p.id in store.FavoritesGet()
    {
      this.store := store;
      favorites := ProductsWithIds(store.FavoritesGet());
    }

    /** `removeFavorite`: the id leaves the store and the product leaves the
        screen; the other products stay, in order. */
    method RemoveFavorite(id: string)
      modifies this`favorites, store`favorites
      ensures store.FavoritesGet() == Without(old(store.FavoritesGet()), id)
      ensures favorites == Filter((p: Product) => p.id != id, old(favorites))
      ensures id !in store.FavoritesGet() && forall p :: p in favorites ==> p.id != id
      ensures Subsequence(favorites, old(favorites))
      ensures old(Synced()) ==> Synced()
      ensures old(store.Tidy()) ==> store.Tidy()
    {
      store.FavoritesRemove(id);
      favorites := Filter((p: Product) => p.id != id, favorites);
      RemoveCommutesWithResolution(old(store.FavoritesGet()), id);
    }
  }
}
