/**
 * The invoice editor (InvoiceGenerate.jsx): a list of billing items with
 * add, remove and a running total. The item inputs are not bound to the
 * items, so no item ever changes after it is added.
 */
module InvoiceGenerate {
  import opened Seqs

  datatype Item = Item(description: string, quantity: real, price: real)

  /** `{ description: '', quantity: 1, price: 0 }`. */
  const DefaultItem := Item("", 1.0, 0.0)

  /** The initial `items`. */
  const InitialItems := [DefaultItem]

  /** `addItem`: one default item at the end. */
  function AddItem(items: seq<Item>): (r: seq<Item>)
    ensures |r| == |items| + 1
    ensures r[..|items|] == items && r[|items|] == DefaultItem
  {
    items + [DefaultItem]
  }

  /** `removeItem(index)`: the list without position `index`; there is no guard against emptying it. */
  function RemoveItem(items: seq<Item>, index: int): (r: seq<Item>)
    ensures 0 <= index < |items| ==> |r| == |items| - 1 && r == items[..index] + items[index + 1..]
    ensures !(0 <= index < |items|) ==> r == items
  {
    DropIndex(items, index)
  }

  /** The single initial item can be removed, leaving no item at all. */
  lemma RemoveCanEmpty()
    ensures RemoveItem(InitialItems, 0) == []
  {
  }

  function Amount(item: Item): real
  {
    item.quantity * item.price
  }

  /** `calculateTotal`: the `reduce` adding quantity times price, from 0. */
  function Total(items: seq<Item>): real
  {
    FoldSum(items, 0.0, Amount)
  }

  /** The total is the sum of quantity times price, and 0 for an empty list. */
  lemma TotalIsSum(items: seq<Item>)
    ensures Total(items) == SumOf(items, Amount)
    ensures items == [] ==> Total(items) == 0.0
  {
    FoldSumIsSum(items, 0.0, Amount);
  }

  /** Adding an item adds its amount, which for the default item is 0. */
  lemma TotalAfterAdd(items: seq<Item>)
    ensures Total(AddItem(items)) == Total(items)
  {
    TotalIsSum(items);
    TotalIsSum(AddItem(items));
    SumOfAppend(items, [DefaultItem], Amount);
  }

  /** Removing an item subtracts its amount. */
  lemma TotalAfterRemove(items: seq<Item>, index: nat)
    requires index < |items|
    ensures Total(RemoveItem(items, index)) == Total(items) - Amount(items[index])
  {
    TotalIsSum(items);
    TotalIsSum(RemoveItem(items, index));
    SumOfRemove(items, index, Amount);
  }

  /** What the page lets the user do to the list. */
  datatype Action = Add | Remove(index: int)

  /** The items after a sequence of clicks, starting from the initial list. */
  function ItemsAfter(actions: seq<Action>): (items: seq<Item>)
    ensures forall i :: 0 <= i < |items| ==> items[i] == DefaultItem
  {
    if actions == [] then InitialItems
    else
      var before := ItemsAfter(actions[..|actions| - 1]);
      match actions[|actions| - 1]
      case Add => AddItem(before)
      case Remove(index) => RemoveItem(before, index)
  }

  /** A list whose every item has price 0 totals 0. */
  lemma {:induction false} ZeroPricesZeroTotal(items: seq<Item>)
    requires forall i :: 0 <= i < |items| ==> items[i].price == 0.0
    ensures SumOf(items, Amount) == 0.0
  {
    if items != [] {
      ZeroPricesZeroTotal(items[1..]);
    }
  }

  /** Whatever the user clicks, the displayed total stays 0. */
  lemma TotalAlwaysZero(actions: seq<Action>)
    ensures Total(ItemsAfter(actions)) == 0.0
  {
    TotalIsSum(ItemsAfter(actions));
    ZeroPricesZeroTotal(ItemsAfter(actions));
  }
}
