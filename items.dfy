/**
 * The shopping-list item and the pure list operations behind the component's
 * handlers: the running total, removal by id and the edit applied by id.
 * Ids are not assumed unique: removal and edit act on every matching item.
 */
module Items {
  import opened Sequences

  /** One shopping-list entry; `price` is the value `parseFloat` produced. */
  datatype Item = Item(id: string, name: string, price: real, createdAt: string, updatedAt: string)

  /** Sum of the prices, folded from the left starting at 0, as `reduce` does. */
  function SumPrices(items: seq<Item>): (r: real)
    ensures (forall i :: 0 <= i < |items| ==> items[i].price >= 0.0) ==> r >= 0.0
  {
    if items == [] then 0.0
    else SumPrices(items[..|items| - 1]) + items[|items| - 1].price
  }

  /** The total of a concatenation is the sum of the totals. */
  lemma {:induction false} SumAppend(a: seq<Item>, b: seq<Item>)
    ensures SumPrices(a + b) == SumPrices(a) + SumPrices(b)
  {
    if b != [] {
      var b' := b[..|b| - 1];
      assert (a + b)[..|a + b| - 1] == a + b';
      calc {
        SumPrices(a + b);
        SumPrices(a + b') + b[|b| - 1].price;
        { SumAppend(a, b'); }
        SumPrices(a) + SumPrices(b') + b[|b| - 1].price;
        SumPrices(a) + SumPrices(b);
      }
    } else {
      assert a + b == a;
    }
  }

  /**
   * `x` added `n` times, starting from 0: what a running sum over `n` items
   * that all cost `x` produces.
   */
  function Times(n: nat, x: real): (r: real)
  {
    if n == 0 then 0.0 else Times(n - 1, x) + x
  }

  /** Items all priced `price` total `price` once for each of them. */
  lemma {:induction false} SumUniform(items: seq<Item>, price: real)
    requires forall i :: 0 <= i < |items| ==> items[i].price == price
    ensures SumPrices(items) == Times(|items|, price)
  {
    if items != [] {
      SumUniform(items[..|items| - 1], price);
    }
  }

  /** The items whose id differs from `id`: what `deleteItem(id)` keeps. */
  function WithoutId(items: seq<Item>, id: string): (r: seq<Item>)
    ensures forall i :: 0 <= i < |r| ==> r[i].id != id && r[i] in items
    ensures forall j :: 0 <= j < |items| && items[j].id != id ==> items[j] in r
  {
    Filter(items, (it: Item) => it.id != id)
  }

  /** The items carrying `id`: what `deleteItem(id)` drops. */
  function WithId(items: seq<Item>, id: string): (r: seq<Item>)
    ensures forall i :: 0 <= i < |r| ==> r[i].id == id && r[i] in items
    ensures forall j :: 0 <= j < |items| && items[j].id == id ==> items[j] in r
  {
    Filter(items, (it: Item) => it.id == id)
  }

  /** Removal keeps every other item in its original relative order, and only those. */
  lemma RemovalSelects(items: seq<Item>, id: string) returns (idx: seq<int>)
    ensures Embeds(WithoutId(items, id), items, idx)
    ensures forall j :: 0 <= j < |items| ==> (j in idx <==> items[j].id != id)
  {
    idx := FilterSelects(items, (it: Item) => it.id != id);
  }

  /** Removing an id nobody carries leaves the list as it was. */
  lemma RemovalAbsent(items: seq<Item>, id: string)
    requires forall i :: 0 <= i < |items| ==> items[i].id != id
    ensures WithoutId(items, id) == items
  {
    FilterKeepsAll(items, (it: Item) => it.id != id);
  }

  /** Removing the same id twice is the same as removing it once. */
  lemma RemovalIdempotent(items: seq<Item>, id: string)
    ensures WithoutId(WithoutId(items, id), id) == WithoutId(items, id)
  {
    RemovalAbsent(WithoutId(items, id), id);
  }

  /**
   * Removal partitions the list: the kept and the dropped items together
   * account for its whole length and its whole total.
   */
  lemma {:induction false} RemovalPartition(items: seq<Item>, id: string)
    ensures |WithoutId(items, id)| + |WithId(items, id)| == |items|
    ensures SumPrices(WithoutId(items, id)) + SumPrices(WithId(items, id)) == SumPrices(items)
  {
    if items != [] {
      var x, tail := items[0], items[1..];
      RemovalPartition(tail, id);
      assert items == [x] + tail;
      SumAppend([x], tail);
      if x.id == id {
        assert WithId(items, id) == [x] + WithId(tail, id);
        assert WithoutId(items, id) == WithoutId(tail, id);
        SumAppend([x], WithId(tail, id));
      } else {
        assert WithoutId(items, id) == [x] + WithoutId(tail, id);
        assert WithId(items, id) == WithId(tail, id);
        SumAppend([x], WithoutId(tail, id));
      }
    }
  }

  /** With ids unique, deleting a present id shortens the list by exactly one. */
  lemma RemovalOfUnique(items: seq<Item>, id: string, k: int)
    requires 0 <= k < |items| && items[k].id == id
    requires forall j :: 0 <= j < |items| && j != k ==> items[j].id != id
    ensures |WithoutId(items, id)| == |items| - 1
  {
    RemovalPartition(items, id);
    var dropped := FilterSelects(items, (it: Item) => it.id == id);
    assert k in dropped;
    if |dropped| > 1 {
      assert false;
    }
  }

  /** One item after an edit: new name, price and update time; id and creation time kept. */
  function Revise(item: Item, name: string, price: real, now: string): (r: Item)
  {
    item.(name := name, price := price, updatedAt := now)
  }

  /**
   * The list `saveEdit` stores: every item carrying `id` revised, every other
   * one as it was. The clock is read afresh for each item the `map` callback
   * revises, so `stamps[i]` is the reading the callback sees at position `i`.
   */
  function Edited(items: seq<Item>, id: string, name: string, price: real, stamps: seq<string>): (r: seq<Item>)
    requires |stamps| == |items|
    ensures |r| == |items|
    ensures forall i :: 0 <= i < |items| ==> r[i].id == items[i].id && r[i].createdAt == items[i].createdAt
    ensures forall i :: 0 <= i < |items| && items[i].id == id ==>
              r[i].name == name && r[i].price == price && r[i].updatedAt == stamps[i]
    ensures forall i :: 0 <= i < |items| && items[i].id != id ==> r[i] == items[i]
  {
    if items == [] then []
    else [if items[0].id == id then Revise(items[0], name, price, stamps[0]) else items[0]]
         + Edited(items[1..], id, name, price, stamps[1..])
  }

  /** Editing an id nobody carries leaves the list as it was. */
  lemma EditAbsent(items: seq<Item>, id: string, name: string, price: real, stamps: seq<string>)
    requires |stamps| == |items|
    requires forall i :: 0 <= i < |items| ==> items[i].id != id
    ensures Edited(items, id, name, price, stamps) == items
  {
    var r := Edited(items, id, name, price, stamps);
    assert forall i :: 0 <= i < |items| ==> r[i] == items[i];
  }

  /** An edit is invisible once the edited id is removed: the other items are untouched. */
  lemma {:induction false} EditKeepsOthers(items: seq<Item>, id: string, name: string, price: real, stamps: seq<string>)
    requires |stamps| == |items|
    ensures WithoutId(Edited(items, id, name, price, stamps), id) == WithoutId(items, id)
  {
    if items != [] {
      EditKeepsOthers(items[1..], id, name, price, stamps[1..]);
      var r := Edited(items, id, name, price, stamps);
      assert r[1..] == Edited(items[1..], id, name, price, stamps[1..]);
    }
  }

  /**
   * Every item an edit touched carries the new price, so together they total
   * that price once for each of them.
   */
  lemma EditedPrices(items: seq<Item>, id: string, name: string, price: real, stamps: seq<string>)
    requires |stamps| == |items|
    ensures forall i :: 0 <= i < |WithId(Edited(items, id, name, price, stamps), id)| ==>
              WithId(Edited(items, id, name, price, stamps), id)[i].price == price
    ensures SumPrices(WithId(Edited(items, id, name, price, stamps), id))
            == Times(|WithId(Edited(items, id, name, price, stamps), id)|, price)
  {
    var r := Edited(items, id, name, price, stamps);
    var revised := WithId(r, id);
    forall i | 0 <= i < |revised| ensures revised[i].price == price {
      assert revised[i] in r;
      var j :| 0 <= j < |r| && r[j] == revised[i];
      assert items[j].id == id;
    }
    SumUniform(revised, price);
  }

  /** An edit touches as many items as carried the edited id. */
  lemma EditedCount(items: seq<Item>, id: string, name: string, price: real, stamps: seq<string>)
    requires |stamps| == |items|
    ensures |WithId(Edited(items, id, name, price, stamps), id)| == |WithId(items, id)|
  {
    RemovalPartition(Edited(items, id, name, price, stamps), id);
    RemovalPartition(items, id);
    EditKeepsOthers(items, id, name, price, stamps);
  }

  /** The items an edit touched total the new price once for each of them. */
  lemma EditedItemsTotal(items: seq<Item>, id: string, name: string, price: real, stamps: seq<string>)
    requires |stamps| == |items|
    ensures SumPrices(WithId(Edited(items, id, name, price, stamps), id)) == Times(|WithId(items, id)|, price)
  {
    EditedPrices(items, id, name, price, stamps);
    EditedCount(items, id, name, price, stamps);
  }

  /**
   * After an edit the total is that of the untouched items plus the new
   * price once for every item that carried the edited id.
   */
  lemma EditTotal(items: seq<Item>, id: string, name: string, price: real, stamps: seq<string>)
    requires |stamps| == |items|
    ensures SumPrices(Edited(items, id, name, price, stamps))
            == SumPrices(WithoutId(items, id)) + Times(|WithId(items, id)|, price)
  {
    RemovalPartition(Edited(items, id, name, price, stamps), id);
    EditKeepsOthers(items, id, name, price, stamps);
    EditedItemsTotal(items, id, name, price, stamps);
  }
}
