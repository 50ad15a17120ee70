/** The history screen: the stored id log resolved to catalog products, in
    log order, and the button that deletes the log. */
module HistoryScreen {
  import opened Wrappers
  import opened Lists
  import opened Catalog
  import opened Storage

  /** The history log resolved for display: each id mapped to its catalog
      product with `find`, the misses dropped by `filter(Boolean)`, in log
      order. */
  function ResolveIds(ids: seq<string>): (r: seq<Product>)
    ensures |r| <= |ids|
    ensures forall p :: p in r ==> p in MockProducts && p.id in ids
  {
    var r := FilterMap(FindProductById, ids);
    forall p | p in r ensures p in MockProducts && p.id in ids {
      FilterMapMembership(FindProductById, ids, p);
    }
    r
  }

  /** The screen shows exactly the catalog products that some entry names. */
  lemma ResolveMembership(ids: seq<string>)
    ensures forall p :: p in ResolveIds(ids) <==> p in MockProducts && p.id in ids
  {
    forall p | p in MockProducts && p.id in ids ensures p in ResolveIds(ids) {
      IdLookupUnique(p);
      FilterMapMembership(FindProductById, ids, p);
    }
  }

  /** Resolution is done entry by entry, so it follows the log's order. */
  lemma ResolveAppend(a: seq<string>, b: seq<string>)
    ensures ResolveIds(a + b) == ResolveIds(a) + ResolveIds(b)
  {
    FilterMapAppend(FindProductById, a, b);
  }

  /** When every logged id is in the catalog nothing is dropped: the screen
      shows one product per entry, entry `i` showing the product with id
      `ids[i]`. */
  lemma ResolveKnownIds(ids: seq<string>)
    requires forall i :: 0 <= i < |ids| ==> FindProductById(ids[i]).Some?
    ensures |ResolveIds(ids)| == |ids|
    ensures forall i :: 0 <= i < |ids| ==> ResolveIds(ids)[i].id == ids[i]
  {
    FilterMapAllSome(FindProductById, ids);
  }

  /** Unknown ids vanish from the screen. */
  lemma UnknownIdDropped(ids: seq<string>, id: string)
    requires FindProductById(id).None?
    ensures ResolveIds(ids + [id]) == ResolveIds(ids)
  {
    ResolveAppend(ids, [id]);
    assert [id][1..] == [];
  }

  class HistoryView {
    const store: Store
    /** The `history` state cell: products, most recent first. */
    var history: seq<Product>

    /** The mount effect: the stored log, resolved. */
    constructor (store: Store)
      ensures this.store == store
      ensures Synced() && |history| <= |store.HistoryGet()|
      ensures store.Tidy() ==> |history| <= HistoryCap
    {
      this.store := store;
      history := ResolveIds(store.HistoryGet());
    }

    /** The screen shows the resolution of the stored log. */
    ghost predicate Synced()
      reads this`history, store`history
    {
      history == ResolveIds(store.HistoryGet())
    }

    /** Tapping entry `i` hands exactly that product on; it is a catalog
        product that the stored log names. */
    method Select(i: nat) returns (p: Product)
      requires i < |history| && Synced()
      ensures p == history[i]
      ensures p in MockProducts && p.id in store.HistoryGet()
    {
      p := history[i];
    }

    /** `clearHistory`: the key is deleted and the screen emptied; the next
        read of the log finds nothing. */
    method ClearHistory()
      modifies this`history, store`history
      ensures store.history == Missing && store.HistoryGet() == []
      ensures history == [] && Synced()
    {
      store.history := Missing;
      history := [];
    }
  }
}
