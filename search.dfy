/**
 * The searched view of the list: the items whose lower-cased name contains
 * the lower-cased search term. Lower-casing covers ASCII letters only.
 */
module SearchFilter {
  import opened Sequences
  import opened Items

  /** ASCII lower-casing of one character; anything but 'A'..'Z' is kept. */
  function Lower(c: char): (r: char)
  {
    if 'A' <= c <= 'Z' then (c as int - 'A' as int + 'a' as int) as char else c
  }

  /**
   * `toLowerCase` restricted to ASCII: no upper-case letter is left, each
   * upper-case letter becomes the letter 32 code points above it, and every
   * other character stays in place.
   */
  function LowerStr(s: string): (r: string)
    ensures |r| == |s|
    ensures forall i :: 0 <= i < |r| ==> !('A' <= r[i] <= 'Z')
    ensures forall i :: 0 <= i < |s| && !('A' <= s[i] <= 'Z') ==> r[i] == s[i]
    ensures forall i :: 0 <= i < |s| && 'A' <= s[i] <= 'Z' ==> r[i] as int == s[i] as int + 32
  {
    seq(|s|, i requires 0 <= i < |s| => Lower(s[i]))
  }

  /** `needle` occurs in `hay` at some position (`String.prototype.includes`). */
  predicate Contains(hay: string, needle: string): (r: bool)
    ensures r ==> |needle| <= |hay|
    ensures needle <= hay ==> r
    ensures needle == [] ==> r
  {
    assert needle <= hay ==> needle <= hay[0..];
    exists i :: 0 <= i <= |hay| - |needle| && needle <= hay[i..]
  }

  /** The test `filteredItems` applies to each item. */
  predicate Matches(item: Item, term: string)
  {
    Contains(LowerStr(item.name), LowerStr(term))
  }

  /** The items shown for search term `term`. */
  function Search(items: seq<Item>, term: string): (r: seq<Item>)
    ensures |r| <= |items|
    ensures forall i :: 0 <= i < |r| ==> r[i] in items && Matches(r[i], term)
    ensures forall j :: 0 <= j < |items| && Matches(items[j], term) ==> items[j] in r
  {
    Filter(items, (it: Item) => Matches(it, term))
  }

  /** The view is an order-preserving subsequence made of exactly the matching items. */
  lemma SearchSelects(items: seq<Item>, term: string) returns (idx: seq<int>)
    ensures Embeds(Search(items, term), items, idx)
    ensures forall j :: 0 <= j < |items| ==> (j in idx <==> Matches(items[j], term))
  {
    idx := FilterSelects(items, (it: Item) => Matches(it, term));
  }

  /** The empty search term shows the whole list. */
  lemma SearchEmptyTerm(items: seq<Item>)
    ensures Search(items, "") == items
  {
    forall i | 0 <= i < |items| ensures Matches(items[i], "") {
      assert "" <= LowerStr(items[i].name)[0..];
    }
    FilterKeepsAll(items, (it: Item) => Matches(it, ""));
  }

  /** Lower-casing twice is lower-casing once. */
  lemma LowerStrIdempotent(s: string)
    ensures LowerStr(LowerStr(s)) == LowerStr(s)
  {
    var l := LowerStr(s);
    forall i | 0 <= i < |s| ensures LowerStr(l)[i] == l[i] {
      assert Lower(Lower(s[i])) == Lower(s[i]);
    }
  }

  /** Terms that differ only in letter case show the same items. */
  lemma SearchIgnoresCase(items: seq<Item>, term: string, term': string)
    requires LowerStr(term) == LowerStr(term')
    ensures Search(items, term) == Search(items, term')
  {
    FilterAgree(items, (it: Item) => Matches(it, term), (it: Item) => Matches(it, term'));
  }

  /** Searching "Mi" over Milk and Bread shows Milk only. */
  lemma SearchExample(milk: Item, bread: Item)
    requires milk.name == "Milk" && bread.name == "Bread"
    ensures Search([milk, bread], "Mi") == [milk]
  {
    assert Matches(milk, "Mi") by {
      assert LowerStr("Mi") == "mi";
      assert LowerStr("Milk") == "milk";
      assert "mi" <= "milk"[0..];
    }
    assert !Matches(bread, "Mi") by {
      assert LowerStr("Mi") == "mi";
      assert LowerStr("Bread") == "bread";
      forall i | 0 <= i <= 3 ensures !("mi" <= "bread"[i..]) {
        assert "bread"[i] != 'm';
      }
    }
    var p := (it: Item) => Matches(it, "Mi");
    assert [milk, bread][1..] == [bread];
    assert Filter([bread], p) == [];
    assert Filter([milk, bread], p) == [milk];
  }
}
