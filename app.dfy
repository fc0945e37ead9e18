/**
 * The shopping-list component: its state fields and the handlers that
 * update them. Each handler is one atomic state transition. Values the
 * component obtains from the browser are parameters: the fresh id
 * (`Date.now().toString()`), the timestamps (`toLocaleString()`),
 * `parseFloat` (`parse`) and the number-to-string conversion (`show`).
 */
module App {
  import opened Items
  import opened SearchFilter

  datatype Option<T> = None | Some(value: T)

  class ShoppingList {
    var items: seq<Item>
    var newItem: string
    var newPrice: string
    var searchTerm: string
    /** `None` is the idle edit session; `Some(id)` is editing the items carrying `id`. */
    var editItemId: Option<string>
    var editItemName: string
    var editItemPrice: string

    /**
     * The draft inputs are only on screen while an edit is in progress, so an
     * idle session has both drafts empty.
     */
    ghost predicate Valid()
      reads this
    {
      editItemId == None ==> editItemName == "" && editItemPrice == ""
    }

    /** The component's initial state: empty list, empty inputs, no edit session. */
    constructor ()
      ensures Valid()
      ensures items == [] && newItem == "" && newPrice == "" && searchTerm == ""
      ensures editItemId == None && editItemName == "" && editItemPrice == ""
    {
      items := [];
      newItem, newPrice, searchTerm := "", "", "";
      editItemId, editItemName, editItemPrice := None, "", "";
    }

    /**
     * The displayed total: the sum of every item's price. It reads only
     * `items`, so neither the search term nor any input can change it.
     */
    function Total(): (r: real)
      reads this`items
      ensures items == [] ==> r == 0.0
      ensures (forall i :: 0 <= i < |items| ==> items[i].price >= 0.0) ==> r >= 0.0
    {
      SumPrices(items)
    }

    /** The list as displayed under the current search term. */
    function FilteredItems(): (r: seq<Item>)
      reads this`items, this`searchTerm
      ensures |r| <= |items|
      ensures forall i :: 0 <= i < |r| ==> r[i] in items && Matches(r[i], searchTerm)
      ensures searchTerm == "" ==> r == items
    {
      SearchEmptyTerm(items);
      Search(items, searchTerm)
    }

    /** Typing into the item-name input. */
    method SetNewItem(text: string)
      requires Valid()
      modifies this`newItem
      ensures Valid() && newItem == text
    {
      newItem := text;
    }

    /** Typing into the price input. */
    method SetNewPrice(text: string)
      requires Valid()
      modifies this`newPrice
      ensures Valid() && newPrice == text
    {
      newPrice := text;
    }

    /** Typing into the search input: the view changes, the list and its total do not. */
    method SetSearchTerm(text: string)
      requires Valid()
      modifies this`searchTerm
      ensures Valid() && searchTerm == text
      ensures items == old(items) && Total() == old(Total())
      ensures FilteredItems() == Search(items, text)
    {
      searchTerm := text;
    }

    /** Typing into the draft name input, shown only while editing. */
    method SetEditItemName(text: string)
      requires Valid() && editItemId.Some?
      modifies this`editItemName
      ensures Valid() && editItemName == text
    {
      editItemName := text;
    }

    /** Typing into the draft price input, shown only while editing. */
    method SetEditItemPrice(text: string)
      requires Valid() && editItemId.Some?
      modifies this`editItemPrice
      ensures Valid() && editItemPrice == text
    {
      editItemPrice := text;
    }

    /**
     * `addItem`: with both inputs non-empty, append one item built from them
     * and clear the inputs; otherwise do nothing.
     */
    method AddItem(id: string, created: string, updated: string, parse: string -> real)
      requires Valid()
      modifies this`items, this`newItem, this`newPrice
      ensures Valid()
      ensures old(newItem) != "" && old(newPrice) != "" ==>
                && items == old(items) + [Item(id, old(newItem), parse(old(newPrice)), created, updated)]
                && newItem == "" && newPrice == ""
      ensures old(newItem) == "" || old(newPrice) == "" ==>
                items == old(items) && newItem == old(newItem) && newPrice == old(newPrice)
    {
      if newItem != "" && newPrice != "" {
        var added := Item(id, newItem, parse(newPrice), created, updated);
        items := items + [added];
        newItem := "";
        newPrice := "";
      }
    }

    /** `deleteItem(id)`: keep exactly the items whose id differs, in order. */
    method DeleteItem(id: string)
      requires Valid()
      modifies this`items
      ensures Valid()
      ensures items == WithoutId(old(items), id)
      ensures forall i :: 0 <= i < |items| ==> items[i].id != id
      ensures (forall i :: 0 <= i < |old(items)| ==> old(items)[i].id != id) ==> items == old(items)
      ensures Total() == old(Total()) - SumPrices(WithId(old(items), id))
    {
      RemovalPartition(items, id);
      ghost var before := items;
      items := WithoutId(items, id);
      if forall i :: 0 <= i < |before| ==> before[i].id != id {
        RemovalAbsent(before, id);
      }
    }

    /** `startEdit(item)`: open an edit session on `item.id` with drafts seeded from it. */
    method StartEdit(item: Item, show: real -> string)
      requires Valid()
      modifies this`editItemId, this`editItemName, this`editItemPrice
      ensures Valid()
      ensures editItemId == Some(item.id)
      ensures editItemName == item.name && editItemPrice == show(item.price)
      ensures items == old(items)
    {
      editItemId := Some(item.id);
      editItemName := item.name;
      editItemPrice := show(item.price);
    }

    /**
     * `saveEdit`: when a session is open on a non-empty id and both drafts
     * are non-empty, revise every item carrying that id and close the
     * session; otherwise do nothing. `stamps[i]` is the clock reading the
     * `map` callback takes at position `i`.
     */
    method SaveEdit(parse: string -> real, stamps: seq<string>)
      requires Valid() && |stamps| == |items|
      modifies this`items, this`editItemId, this`editItemName, this`editItemPrice
      ensures Valid()
      ensures var ok := old(editItemId).Some? && old(editItemId).value != ""
                        && old(editItemName) != "" && old(editItemPrice) != "";
              if ok then
                && items == Edited(old(items), old(editItemId).value, old(editItemName), parse(old(editItemPrice)), stamps)
                && editItemId == None && editItemName == "" && editItemPrice == ""
              else
                && items == old(items) && editItemId == old(editItemId)
                && editItemName == old(editItemName) && editItemPrice == old(editItemPrice)
      ensures old(editItemId) == None ==> editItemName == "" && editItemPrice == ""
    {
      if editItemId.Some? && editItemId.value != "" && editItemName != "" && editItemPrice != "" {
        items := Edited(items, editItemId.value, editItemName, parse(editItemPrice), stamps);
        editItemId := None;
        editItemName := "";
        editItemPrice := "";
      }
    }
  }

  /** The total of a two-item list. */
  lemma SumOfPair(a: Item, b: Item)
    ensures SumPrices([a, b]) == a.price + b.price
  {
    assert SumPrices([a]) == a.price by {
      assert [a][..0] == [];
    }
    assert [a, b][..1] == [a];
    assert [a, b][1] == b;
  }

  /** Editing the first of two items whose ids differ revises that item alone. */
  lemma EditFirstOfPair(a: Item, b: Item, name: string, price: real, stamps: seq<string>)
    requires a.id != b.id && |stamps| == 2
    ensures Edited([a, b], a.id, name, price, stamps) == [Revise(a, name, price, stamps[0]), b]
  {
  }

  /** Deleting the second of two items whose ids differ leaves the first alone. */
  lemma DeleteSecondOfPair(a: Item, b: Item)
    requires a.id != b.id
    ensures WithoutId([a, b], b.id) == [a]
  {
    RemovalPartition([a, b], b.id);
    assert b in WithId([a, b], b.id);
    assert a in WithoutId([a, b], b.id);
  }

  /**
   * A sample session: add Milk at 4.50 and Bread at 2.25, reprice Milk to
   * 5.00, delete Bread. Distinct ids are needed: were they equal, deleting
   * Bread would delete Milk too.
   */
  method Scenario(parse: string -> real, show: real -> string, milkId: string, breadId: string, now: string)
    returns (firstTotal: real, secondTotal: real, remaining: seq<Item>)
    requires parse("4.50") == 4.5 && parse("2.25") == 2.25 && parse("5.00") == 5.0
    requires milkId != "" && milkId != breadId
    ensures firstTotal == 6.75 && secondTotal == 7.25
    ensures |remaining| == 1 && remaining[0].id == milkId
    ensures remaining[0].name == "Milk" && remaining[0].price == 5.0
  {
    var milk := Item(milkId, "Milk", 4.5, now, now);
    var bread := Item(breadId, "Bread", 2.25, now, now);
    var list := new ShoppingList();
    list.SetNewItem("Milk");
    list.SetNewPrice("4.50");
    list.AddItem(milkId, now, now, parse);
    list.SetNewItem("Bread");
    list.SetNewPrice("2.25");
    list.AddItem(breadId, now, now, parse);
    assert list.items == [milk, bread];
    SumOfPair(milk, bread);
    firstTotal := list.Total();

    list.StartEdit(milk, show);
    list.SetEditItemName("Milk");
    list.SetEditItemPrice("5.00");
    list.SaveEdit(parse, [now, now]);
    var repriced := Revise(milk, "Milk", 5.0, now);
    EditFirstOfPair(milk, bread, "Milk", 5.0, [now, now]);
    assert list.items == [repriced, bread];
    SumOfPair(repriced, bread);
    secondTotal := list.Total();

    list.DeleteItem(breadId);
    DeleteSecondOfPair(repriced, bread);
    remaining := list.items;
  }
}
