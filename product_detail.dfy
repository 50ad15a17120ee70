/** The product detail screen: opening it records the product in the
    history log and reads its favorite flag; the heart button toggles the
    favorite in the store and mirrors the answer in the flag. */
module ProductDetail {
  import opened Lists
  import opened Catalog
  import opened Storage

  class ProductDetailView {
    const store: Store
    const product: Product
    /** The `isFavorite` state cell. */
    var isFavorite: bool

    /** The flag shows the stored membership of the product. */
    ghost predicate Synced()
      reads this`isFavorite, store`favorites
    {
      isFavorite == (product.id in store.FavoritesGet())
    }

    /** The mount effect: the flag starts as the stored membership and the
        product id is promoted to the head of the history log. */
    constructor (store: Store, product: Product)
      modifies store`history
      ensures this.store == store && this.product == product
      ensures Synced()
      ensures store.history == Stored(Promote(old(store.HistoryGet()), product.id, HistoryCap))
      ensures store.HistoryGet()[0] == product.id
      ensures old(store.Tidy()) ==> store.Tidy()
    {
      this.store := store;
      this.product := product;
      var favorites := store.FavoritesGet();
      isFavorite := product.id in favorites;
      new;
      store.HistoryAdd(product.id);
    }

    /** `toggleFavorite`: the flag takes the membership the store reports,
        which is the negation of the membership before. */
    method ToggleFavorite()
      modifies this`isFavorite, store`favorites
      ensures isFavorite == (product.id !in old(store.FavoritesGet()))
      ensures Synced()
      ensures store.FavoritesGet() ==
                if isFavorite then old(store.FavoritesGet()) + [product.id]
                else Without(old(store.FavoritesGet()), product.id)
      ensures old(store.Tidy()) ==> store.Tidy()
    {
      var newIsFavorite := store.FavoritesToggle(product.id);
      isFavorite := newIsFavorite;
    }
  }
}
