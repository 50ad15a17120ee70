/** The custom-lists screen: named product lists held in the screen's own
    state (never persisted), a create form and a delete button per list,
    and a thumbnail preview of each list's products. */
module CustomLists {
  import opened Wrappers
  import opened Lists
  import opened Text
  import opened Catalog

  datatype Category = Routine | Shopping | Custom

  /** `createdAt` is a timestamp in milliseconds. */
  datatype CustomList = CustomList(
    id: string,
    name: string,
    description: Option<string>,
    productIds: seq<string>,
    createdAt: int,
    category: Option<Category>)

  /** The two lists the mount effect installs, both stamped `now`. */
  function MockLists(now: int): (r: seq<CustomList>)
    ensures |r| == 2 && r[0].id == "1" && r[1].id == "2"
    ensures forall l :: l in r ==> l.createdAt == now && l.category.Some?
  {
    [
      CustomList("1", "Routine visage", Some("Mes produits de soin du visage"), ["1", "3"], now, Some(Routine)),
      CustomList("2", "Liste d'achats", Some("Produits à acheter ce mois"), ["2"], now, Some(Shopping))
    ]
  }

  /** The products of a list: catalog entries whose id the list holds, in
      catalog order. */
  function ListProducts(l: CustomList): (r: seq<Product>)
    ensures forall p :: p in r <==> p in MockProducts && p.id in l.productIds
    ensures |r| <= |MockProducts| && NoDup(r)
    ensures Subsequence(r, MockProducts)
  {
    ProductsWithIds(l.productIds)
  }

  /** Ids naming products "1" and "3" but not "2" resolve to those two. */
  lemma ResolveOneAndThree(ids: seq<string>)
    requires "1" in ids && "2" !in ids && "3" in ids
    ensures ProductsWithIds(ids) == [MockProducts[0], MockProducts[2]]
  {
    ProductsWithIdsSpelled(ids);
    assert [MockProducts[0]] + [] + [MockProducts[2]] == [MockProducts[0], MockProducts[2]];
  }

  /** Ids naming product "2" alone resolve to it. */
  lemma ResolveTwo(ids: seq<string>)
    requires "1" !in ids && "2" in ids && "3" !in ids
    ensures ProductsWithIds(ids) == [MockProducts[1]]
  {
    ProductsWithIdsSpelled(ids);
    assert [] + [MockProducts[1]] + [] == [MockProducts[1]];
  }

  /** The first mock list shows products "1" and "3". */
  lemma MockRoutineContents(now: int)
    ensures ListProducts(MockLists(now)[0]) == [MockProducts[0], MockProducts[2]]
  {
    ResolveOneAndThree(MockLists(now)[0].productIds);
  }

  /** The second mock list shows product "2". */
  lemma MockShoppingContents(now: int)
    ensures ListProducts(MockLists(now)[1]) == [MockProducts[1]]
  {
    ResolveTwo(MockLists(now)[1].productIds);
  }

  /** What a list card shows below its title: nothing for an empty list,
      otherwise up to three thumbnails and, past three, a `+n` badge. */
  datatype Preview = Hidden | Shown(thumbnails: seq<Product>, more: Option<nat>)

  function PreviewOf(products: seq<Product>): (r: Preview)
    ensures r.Hidden? <==> products == []
    ensures r.Shown? ==> 1 <= |r.thumbnails| <= 3 && |r.thumbnails| <= |products| && r.thumbnails == products[..|r.thumbnails|]
    ensures r.Shown? ==> (r.more.Some? <==> |products| > 3)
    ensures r.Shown? ==> |r.thumbnails| + r.more.GetOr(0) == |products|
  {
    if |products| > 0 then
      Shown(Take(products, 3), if |products| > 3 then Some(|products| - 3) else None)
    else
      Hidden
  }

  /** With a three-product catalog no list ever shows the `+n` badge. */
  lemma NoOverflowBadge(l: CustomList)
    ensures PreviewOf(ListProducts(l)).Hidden? || PreviewOf(ListProducts(l)).more.None?
  {
  }

  class CustomListsView {
    /** The `lists` state cell. */
    var lists: seq<CustomList>
    var showCreateModal: bool
    var newListName: string
    var selectedCategory: Category

    /** Mounting: the mock lists, the form closed, empty and on `Custom`. */
    constructor (now: int)
      ensures lists == MockLists(now)
      ensures !showCreateModal && newListName == "" && selectedCategory == Custom
    {
      lists := MockLists(now);
      showCreateModal := false;
      newListName := "";
      selectedCategory := Custom;
    }

    method OpenCreateModal()
      modifies this`showCreateModal
      ensures showCreateModal
    {
      showCreateModal := true;
    }

    /** The cancel button closes the form; the typed name and the category
        are kept for the next opening. */
    method CloseCreateModal()
      modifies this`showCreateModal
      ensures !showCreateModal
    {
      showCreateModal := false;
    }

    method SetNewListName(name: string)
      modifies this`newListName
      ensures newListName == name
    {
      newListName := name;
    }

    method SelectCategory(c: Category)
      modifies this`selectedCategory
      ensures selectedCategory == c
    {
      selectedCategory := c;
    }

    /** `createList`, with the clock reading `now` and the id it yields as
        parameters. A blank name changes nothing; otherwise one empty list,
        with the name as typed and the selected category, is appended, and
        the form is reset and closed. */
    method CreateList(id: string, now: int)
      modifies this`lists, this`newListName, this`showCreateModal
      ensures IsBlank(old(newListName)) ==>
                lists == old(lists) && newListName == old(newListName) && showCreateModal == old(showCreateModal)
      ensures !IsBlank(old(newListName)) ==>
                lists == old(lists) + [CustomList(id, old(newListName), None, [], now, Some(selectedCategory))]
      ensures !IsBlank(old(newListName)) ==> newListName == "" && !showCreateModal
    {
      TrimEmptyIffBlank(newListName);
      if Trim(newListName) != "" {
        var newList := CustomList(id, newListName, None, [], now, Some(selectedCategory));
        lists := lists + [newList];
        newListName := "";
        showCreateModal := false;
      }
    }

    /** `deleteList`: every list with that id goes, every other one stays
        (copies included) in its order; an unknown id changes nothing. */
    method DeleteList(listId: string)
      modifies this`lists
      ensures lists == Filter((l: CustomList) => l.id != listId, old(lists))
      ensures forall l :: l in lists <==> l in old(lists) && l.id != listId
      ensures Subsequence(lists, old(lists))
      ensures (forall l :: l in old(lists) ==> l.id != listId) ==> lists == old(lists)
    {
      var isKept := (l: CustomList) => l.id != listId;
      if forall l :: l in lists ==> l.id != listId {
        FilterKeepsAll(isKept, lists);
      }
      lists := Filter(isKept, lists);
    }
  }
}
