/**
 * The shopping-list modal: deleting an item and the filter that hides empty
 * categories. The list is an object holding category objects; deleting copies
 * the list object but filters the items of the shared category object in
 * place, so the list it was copied from loses the item as well.
 */
module ShoppingListModal {
  import opened Wrappers
  import opened Types
  import opened Lists

  /** The index of the first category with the name, if any. */
  function FirstNamed(cats: seq<ShoppingListCategory>, name: string): (r: Option<nat>)
    ensures r.Some? ==> (r.value < |cats| && cats[r.value].nombre == name &&
      forall j :: 0 <= j < r.value ==> cats[j].nombre != name)
    ensures r.None? ==> forall j :: 0 <= j < |cats| ==> cats[j].nombre != name
  {
    if cats == [] then None
    else if cats[0].nombre == name then Some(0)
    else
      var r := FirstNamed(cats[1..], name);
      if r.Some? then Some(r.value + 1) else None
  }

  function WithoutItem(items: seq<ShoppingListItem>, itemId: string): seq<ShoppingListItem>
  {
    Filter(items, (it: ShoppingListItem) => it.id != itemId)
  }

  /** The list after deleting an item: only the first category with the name loses its items with the id. */
  function DeleteItem(l: ShoppingList, categoryName: string, itemId: string): ShoppingList
  {
    var k := FirstNamed(l.categorias, categoryName);
    if k.None? then l
    else
      var c := l.categorias[k.value];
      ShoppingList(l.categorias[k.value := c.(items := WithoutItem(c.items, itemId))])
  }

  /** The categories shown: those with at least one item, in their order. */
  function Visible(l: ShoppingList): seq<ShoppingListCategory>
  {
    Filter(l.categorias, (c: ShoppingListCategory) => |c.items| > 0)
  }

  // ---------------------------------------------------------------------
  // Properties

  /**
   * Deleting keeps the categories, their order and names; the first category
   * with the name loses exactly its items with the id, and every other
   * category is untouched.
   */
  lemma DeleteItemEffect(l: ShoppingList, categoryName: string, itemId: string)
    ensures var r := DeleteItem(l, categoryName, itemId);
      |r.categorias| == |l.categorias| &&
      (forall j :: 0 <= j < |l.categorias| ==> r.categorias[j].nombre == l.categorias[j].nombre) &&
      (forall j :: (0 <= j < |l.categorias| && (l.categorias[j].nombre != categoryName ||
          exists i :: 0 <= i < j && l.categorias[i].nombre == categoryName)) ==>
        r.categorias[j] == l.categorias[j])
    ensures var k := FirstNamed(l.categorias, categoryName);
      k.Some? ==>
        forall it :: it in DeleteItem(l, categoryName, itemId).categorias[k.value].items <==>
          it in l.categorias[k.value].items && it.id != itemId
    ensures var k := FirstNamed(l.categorias, categoryName);
      k.Some? ==>
        var before := l.categorias[k.value].items;
        var after := DeleteItem(l, categoryName, itemId).categorias[k.value].items;
        after == WithoutItem(before, itemId) &&
        (forall n :: 0 <= n <= |before| ==>
          WithoutItem(before, itemId) == WithoutItem(before[..n], itemId) + WithoutItem(before[n..], itemId)) &&
        (forall n :: 0 <= n < |before| ==>
          WithoutItem([before[n]], itemId) == (if before[n].id != itemId then [before[n]] else []))
  {
    var k := FirstNamed(l.categorias, categoryName);
    if k.Some? {
      FilterOrder(l.categorias[k.value].items, (x: ShoppingListItem) => x.id != itemId);
      forall it
        ensures it in WithoutItem(l.categorias[k.value].items, itemId) <==> it in l.categorias[k.value].items && it.id != itemId
      {
        FilterMembership(l.categorias[k.value].items, (x: ShoppingListItem) => x.id != itemId, it);
      }
    }
  }

  /** Without a category of that name the list is unchanged. */
  lemma DeleteWithoutCategory(l: ShoppingList, categoryName: string, itemId: string)
    requires forall j :: 0 <= j < |l.categorias| ==> l.categorias[j].nombre != categoryName
    ensures DeleteItem(l, categoryName, itemId) == l
  {
  }

  /** Deleting the same item twice is deleting it once. */
  lemma DeleteItemIdempotent(l: ShoppingList, categoryName: string, itemId: string)
    ensures DeleteItem(DeleteItem(l, categoryName, itemId), categoryName, itemId) == DeleteItem(l, categoryName, itemId)
  {
    var k := FirstNamed(l.categorias, categoryName);
    var once := DeleteItem(l, categoryName, itemId);
    DeleteItemEffect(l, categoryName, itemId);
    if k.Some? {
      assert FirstNamed(once.categorias, categoryName) == k;
      FilterIdempotent(l.categorias[k.value].items, (x: ShoppingListItem) => x.id != itemId);
    } else {
      assert once == l;
    }
  }

  /** A category is shown exactly when it has items. */
  lemma VisibleExactly(l: ShoppingList)
    ensures forall c :: c in Visible(l) <==> c in l.categorias && |c.items| > 0
    ensures forall k :: 0 <= k <= |l.categorias| ==>
      Visible(l) == Visible(ShoppingList(l.categorias[..k])) + Visible(ShoppingList(l.categorias[k..]))
    ensures forall k :: 0 <= k < |l.categorias| ==>
      Visible(ShoppingList([l.categorias[k]])) ==
        (if |l.categorias[k].items| > 0 then [l.categorias[k]] else [])
  {
    FilterOrder(l.categorias, (x: ShoppingListCategory) => |x.items| > 0);
    forall c
      ensures c in Visible(l) <==> c in l.categorias && |c.items| > 0
    {
      FilterMembership(l.categorias, (x: ShoppingListCategory) => |x.items| > 0, c);
    }
  }

  /** Deleting the only item of a category hides it. */
  lemma LastItemHidesCategory(l: ShoppingList, k: nat, it: ShoppingListItem)
    requires k < |l.categorias| && l.categorias[k].items == [it]
    requires forall j :: 0 <= j < k ==> l.categorias[j].nombre != l.categorias[k].nombre
    ensures DeleteItem(l, l.categorias[k].nombre, it.id).categorias[k].items == []
    ensures l.categorias[k].(items := []) !in Visible(DeleteItem(l, l.categorias[k].nombre, it.id))
  {
    var name := l.categorias[k].nombre;
    var r := DeleteItem(l, name, it.id);
    assert FirstNamed(l.categorias, name) == Some(k);
    assert Filter([it], (x: ShoppingListItem) => x.id != it.id) == [];
    VisibleExactly(r);
  }

  // ---------------------------------------------------------------------
  // The objects

  class CategoryObj {
    var nombre: string
    var items: seq<ShoppingListItem>

    constructor (c: ShoppingListCategory)
      ensures View() == c
    {
      nombre := c.nombre;
      items := c.items;
    }

    function View(): ShoppingListCategory
      reads this
    {
      ShoppingListCategory(nombre, items)
    }
  }

  /** The category objects a list holds. */
  function Objects(cats: seq<CategoryObj>): set<CategoryObj>
  {
    set c | c in cats
  }

  function Views(cats: seq<CategoryObj>): (r: seq<ShoppingListCategory>)
    reads Objects(cats)
    ensures |r| == |cats|
  {
    seq(|cats|, i requires 0 <= i < |cats| reads Objects(cats) => cats[i].View())
  }

  /** No category object appears twice. */
  predicate Distinct(cats: seq<CategoryObj>)
  {
    forall i, j :: 0 <= i < j < |cats| ==> cats[i] != cats[j]
  }

  class ListObj {
    var categorias: seq<CategoryObj>

    /** `{ ...list }`: a new object holding the same category objects. */
    constructor (categorias: seq<CategoryObj>)
      ensures this.categorias == categorias
    {
      this.categorias := categorias;
    }

    function View(): ShoppingList
      reads this, Objects(categorias)
    {
      ShoppingList(Views(categorias))
    }
  }

  /**
   * `handleDeleteItem`: a shallow copy of the list, whose first category with
   * the name has its items filtered in place. The copy shows the deletion,
   * and so does the list it was copied from.
   */
  method HandleDeleteItem(list: ListObj, categoryName: string, itemId: string) returns (updated: ListObj)
    requires Distinct(list.categorias)
    modifies Objects(list.categorias)
    ensures fresh(updated) && updated.categorias == list.categorias
    ensures updated.View() == DeleteItem(old(list.View()), categoryName, itemId)
    ensures list.View() == updated.View()
  {
    ghost var before := list.View();
    updated := new ListObj(list.categorias);
    var cats := updated.categorias;
    var i := 0;
    while i < |cats| && cats[i].nombre != categoryName
      invariant 0 <= i <= |cats|
      invariant forall j :: 0 <= j < i ==> cats[j].nombre != categoryName
    {
      i := i + 1;
    }
    assert forall j :: 0 <= j < |cats| ==> before.categorias[j].nombre == cats[j].nombre;
    assert FirstNamed(before.categorias, categoryName) == (if i < |cats| then Some(i) else None);
    if i < |cats| {
      var category := cats[i];
      category.items := WithoutItem(category.items, itemId);
      assert forall j :: 0 <= j < |cats| && j != i ==> cats[j] != category;
      assert Views(cats) == before.categorias[i := category.View()];
    } else {
      assert Views(cats) == before.categorias;
    }
  }
}
