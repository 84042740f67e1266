/**
 * The admin screen's item catalog: the list of items held in the page's
 * state, the handlers that add, delete and toggle items, the search filter,
 * the totals shown above the table and the "Popular Items" panel.
 */
module Catalog {
  import opened Wrappers
  import opened Seqs
  import opened Text

  /** An item as the admin screen holds it; `purchaseCount` may be missing. */
  datatype CatalogItem = CatalogItem(id: string, name: string, price: int, description: string,
                                     available: bool, createdAt: int, purchaseCount: Option<int>)

  /** The add-item form; `price` is the value `parseInt` gave for the price field. */
  datatype ItemForm = ItemForm(name: string, price: int, description: string, available: bool)

  function Price(x: CatalogItem): int { x.price }
  function IsAvailable(x: CatalogItem): bool { x.available }

  /** The number of sales of an item, 0 when it has no count. */
  function Sales(x: CatalogItem): int { x.purchaseCount.GetOr(0) }

  /** The items whose id differs from `id`, in their order. */
  function Without(items: seq<CatalogItem>, id: string): (r: seq<CatalogItem>)
    ensures forall x :: x in r <==> x in items && x.id != id
    ensures forall x :: multiset(r)[x] == if x.id != id then multiset(items)[x] else 0
  {
    Filter(items, (x: CatalogItem) => x.id != id)
  }

  /** Deleting from a concatenation deletes from each part, so the kept items stay in order. */
  lemma WithoutKeepsOrder(a: seq<CatalogItem>, b: seq<CatalogItem>, id: string)
    ensures Without(a + b, id) == Without(a, id) + Without(b, id)
  {
    FilterAppend(a, b, (x: CatalogItem) => x.id != id);
  }

  /** The item with its availability flipped when its id is `id`. */
  function Flip(x: CatalogItem, id: string): CatalogItem
  {
    if x.id == id then x.(available := !x.available) else x
  }

  /** Every item with the id `id` has its availability flipped; the rest are kept. */
  function Toggled(items: seq<CatalogItem>, id: string): (r: seq<CatalogItem>)
    ensures |r| == |items|
    ensures forall i :: 0 <= i < |items| ==> r[i].(available := items[i].available) == items[i]
    ensures forall i :: 0 <= i < |items| ==> (r[i].available != items[i].available <==> items[i].id == id)
  {
    seq(|items|, i requires 0 <= i < |items| => Flip(items[i], id))
  }

  /** Toggling the same id twice gives back the list. */
  lemma ToggleTwice(items: seq<CatalogItem>, id: string)
    ensures Toggled(Toggled(items, id), id) == items
  {
    var r := Toggled(Toggled(items, id), id);
    assert forall i :: 0 <= i < |items| ==> r[i] == items[i];
  }

  /** The search of the item table: name or description contains the term, ignoring case. */
  predicate ItemMatches(x: CatalogItem, term: string)
  {
    Matches(x.name, term) || Matches(x.description, term)
  }

  /** `filteredItems`. */
  function Filtered(items: seq<CatalogItem>, term: string): (r: seq<CatalogItem>)
    ensures forall x :: x in r <==> x in items && ItemMatches(x, term)
    ensures forall x :: multiset(r)[x] == if ItemMatches(x, term) then multiset(items)[x] else 0
  {
    Filter(items, (x: CatalogItem) => ItemMatches(x, term))
  }

  /** With an empty search term every item is listed, in order. */
  lemma EmptySearchKeepsAll(items: seq<CatalogItem>)
    ensures Filtered(items, "") == items
  {
    forall i | 0 <= i < |items| ensures ItemMatches(items[i], "") {
      EmptyTermMatches(items[i].name);
    }
    FilterAll(items, (x: CatalogItem) => ItemMatches(x, ""));
  }

  /**
   * `totalValue`: the sum of the prices. With no negative price it is
   * non-negative and no single item is worth more than the whole catalog.
   */
  function TotalValue(items: seq<CatalogItem>): (total: int)
    ensures |items| == 0 ==> total == 0
    ensures (forall i :: 0 <= i < |items| ==> items[i].price >= 0) ==>
              total >= 0 && forall i :: 0 <= i < |items| ==> items[i].price <= total
  {
    SumByNonNegative(items, Price);
    SumBy(items, Price)
  }

  /** `availableItems`: how many items are available. */
  function AvailableCount(items: seq<CatalogItem>): (n: nat)
    ensures n <= |items|
    ensures forall x :: x in items && x.available ==> n > 0
  {
    |Filter(items, IsAvailable)|
  }

  /** The "Avg Price" card: the rounded mean price, 0 for an empty catalog. */
  function AveragePrice(items: seq<CatalogItem>): (r: int)
    ensures |items| == 0 ==> r == 0
    ensures |items| > 0 ==> 2 * |items| * r - |items| <= 2 * TotalValue(items) < 2 * |items| * r + |items|
  {
    if |items| > 0 then RoundedMean(TotalValue(items), |items|) else 0
  }

  /**
   * The "Popular Items" panel: the filtered items sorted by sales, most sold
   * first, cut to three.
   */
  function Popular(filtered: seq<CatalogItem>): (r: seq<CatalogItem>)
    ensures |r| == if |filtered| < 3 then |filtered| else 3
    ensures SortedDesc(r, Sales)
    ensures multiset(r) <= multiset(filtered)
    ensures forall i, y :: 0 <= i < |r| && y in multiset(filtered) - multiset(r) ==> Sales(y) <= Sales(r[i])
  {
    Top(filtered, 3, Sales)
  }

  /** The item `handleAddItem` appends. */
  function NewItem(form: ItemForm, id: string, now: int): (x: CatalogItem)
    ensures x.id == id && x.createdAt == now
    ensures x.name == form.name && x.price == form.price && x.description == form.description
    ensures x.available == form.available && Sales(x) == 0
  {
    CatalogItem(id, form.name, form.price, form.description, form.available, now, Some(0))
  }

  /** Adding an item raises the total value by its price and the available count by its flag. */
  lemma AddMovesTotals(items: seq<CatalogItem>, x: CatalogItem)
    ensures TotalValue(items + [x]) == TotalValue(items) + x.price
    ensures AvailableCount(items + [x]) == AvailableCount(items) + if x.available then 1 else 0
  {
    SumByAppend(items, [x], Price);
    FilterAppend(items, [x], IsAvailable);
  }

  /** Toggling availability never changes the catalog's total value. */
  lemma {:induction false} ToggleKeepsTotal(items: seq<CatalogItem>, id: string)
    ensures TotalValue(Toggled(items, id)) == TotalValue(items)
  {
    if items != [] {
      assert Toggled(items, id)[1..] == Toggled(items[1..], id);
      ToggleKeepsTotal(items[1..], id);
    }
  }

  /** The catalog state of the admin screen (`items` / `setItems`). */
  class ItemCatalog {
    var items: seq<CatalogItem>

    constructor (initial: seq<CatalogItem>)
      ensures items == initial
    {
      items := initial;
    }

    /** `handleAddItem`: appends one item built from the form, with no sales yet. */
    method AddItem(form: ItemForm, id: string, now: int)
      modifies this
      ensures items == old(items) + [NewItem(form, id, now)]
      ensures items[|items| - 1].purchaseCount == Some(0)
    {
      items := items + [NewItem(form, id, now)];
    }

    /** `handleDeleteItem`. */
    method DeleteItem(id: string)
      modifies this
      ensures items == Without(old(items), id)
    {
      items := Without(items, id);
    }

    /** `handleToggleAvailability`. */
    method ToggleAvailability(id: string)
      modifies this
      ensures items == Toggled(old(items), id)
    {
      items := Toggled(items, id);
    }
  }
}
