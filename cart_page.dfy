/** The arithmetic of the cart page: the total as a `reduce` over the lines, the
    per-line totals, the quantity requests of the -/+ buttons, and the checkout
    details built by "Proceed to Payment". Prices are whole numbers. */
module CartPage {
  import opened Common
  import opened CartStore
  import opened CartContext

  /** `sellprice * quantity`, shown in each row. */
  function LineTotal(item: Item): int {
    item.sellPrice * item.quantity
  }

  /** `reduce((sum, item) => sum + item.sellprice * item.quantity, acc)`: a left fold. */
  function SumFrom(acc: int, c: seq<Item>): int
    decreases |c|
  {
    if c == [] then acc else SumFrom(acc + LineTotal(c[0]), c[1..])
  }

  /** `totalAmount`. */
  function TotalAmount(c: seq<Item>): int {
    SumFrom(0, c)
  }

  /** The sum of the line totals, as a reference definition. */
  function LineSum(c: seq<Item>): int
    decreases |c|
  {
    if c == [] then 0 else LineTotal(c[0]) + LineSum(c[1..])
  }

  /** The fold adds the line totals to its start value. */
  lemma {:induction false} SumFromIsLineSum(acc: int, c: seq<Item>)
    ensures SumFrom(acc, c) == acc + LineSum(c)
    decreases |c|
  {
    if c != [] {
      SumFromIsLineSum(acc + LineTotal(c[0]), c[1..]);
    }
  }

  /** The total is the sum of the line totals; an empty cart totals 0. */
  lemma TotalIsLineSum(c: seq<Item>)
    ensures TotalAmount(c) == LineSum(c)
    ensures c == [] ==> TotalAmount(c) == 0
  {
    SumFromIsLineSum(0, c);
  }

  lemma {:induction false} LineSumAppend(a: seq<Item>, b: seq<Item>)
    ensures LineSum(a + b) == LineSum(a) + LineSum(b)
    decreases |a|
  {
    if a != [] {
      LineSumAppend(a[1..], b);
      assert (a + b)[0] == a[0] && (a + b)[1..] == a[1..] + b;
    } else {
      assert a + b == b;
    }
  }

  /** The total of a cart split in two is the sum of the two totals. */
  lemma TotalAppend(a: seq<Item>, b: seq<Item>)
    ensures TotalAmount(a + b) == TotalAmount(a) + TotalAmount(b)
  {
    TotalIsLineSum(a + b);
    TotalIsLineSum(a);
    TotalIsLineSum(b);
    LineSumAppend(a, b);
  }

  lemma TotalSingleton(x: Item)
    ensures TotalAmount([x]) == LineTotal(x)
  {
    TotalIsLineSum([x]);
    assert [x][1..] == [];
  }

  /** Replacing one line changes the total by the difference of the line totals. */
  lemma TotalReplaceAt(c: seq<Item>, k: nat, x: Item)
    requires k < |c|
    ensures TotalAmount(c[k := x]) == TotalAmount(c) - LineTotal(c[k]) + LineTotal(x)
  {
    assert c == c[..k] + ([c[k]] + c[k + 1..]);
    assert c[k := x] == c[..k] + ([x] + c[k + 1..]);
    TotalAppend(c[..k], [c[k]] + c[k + 1..]);
    TotalAppend(c[..k], [x] + c[k + 1..]);
    TotalAppend([c[k]], c[k + 1..]);
    TotalAppend([x], c[k + 1..]);
    TotalSingleton(c[k]);
    TotalSingleton(x);
  }

  /** Two lines, 2 x 100 and 1 x 50, total 250. */
  lemma TotalExample(a: Item, b: Item)
    requires a.sellPrice == 100 && a.quantity == 2 && b.sellPrice == 50 && b.quantity == 1
    ensures TotalAmount([a, b]) == 250
  {
    assert [a, b] == [a] + [b];
    TotalAppend([a], [b]);
    TotalSingleton(a);
    TotalSingleton(b);
  }

  // ---------------------------------------------------------------------------
  // The total after each cart operation

  /** Adding an item already on line `k` adds that line's price once. */
  lemma TotalAfterAddExisting(c: seq<Item>, item: Item, k: nat)
    requires UniqueIds(c) && k < |c| && c[k].id == item.id
    ensures TotalAmount(AddLine(c, item)) == TotalAmount(c) + c[k].sellPrice
  {
    AddExisting(c, item, k);
    TotalReplaceAt(c, k, c[k].(quantity := c[k].quantity + 1));
  }

  /** Adding a fresh item adds its price once. */
  lemma TotalAfterAddFresh(c: seq<Item>, item: Item)
    requires !HasId(c, item.id)
    ensures TotalAmount(AddLine(c, item)) == TotalAmount(c) + item.sellPrice
  {
    TotalAppend(c, [item.(quantity := 1)]);
    TotalSingleton(item.(quantity := 1));
  }

  /** Setting the quantity of line `k` changes the total by its price times the
      change in quantity. */
  lemma TotalAfterSetQuantity(c: seq<Item>, id: Id, quantity: int, k: nat)
    requires UniqueIds(c) && k < |c| && c[k].id == id
    ensures TotalAmount(WithQuantity(c, id, quantity)) ==
      TotalAmount(c) + c[k].sellPrice * (quantity - c[k].quantity)
  {
    SetQuantityPresent(c, id, quantity, k);
    TotalReplaceAt(c, k, c[k].(quantity := quantity));
  }

  /** Removing line `k` takes its line total off. */
  lemma TotalAfterRemove(c: seq<Item>, id: Id, k: nat)
    requires UniqueIds(c) && k < |c| && c[k].id == id
    ensures TotalAmount(Without(c, id)) == TotalAmount(c) - LineTotal(c[k])
  {
    WithoutPresent(c, id, k);
    assert c == c[..k] + ([c[k]] + c[k + 1..]);
    TotalAppend(c[..k], [c[k]] + c[k + 1..]);
    TotalAppend([c[k]], c[k + 1..]);
    TotalAppend(c[..k], c[k + 1..]);
    TotalSingleton(c[k]);
  }

  // ---------------------------------------------------------------------------
  // The -/+ buttons

  /** The "-" button asks for `Math.max(1, quantity - 1)`. */
  function DecrementRequest(quantity: int): (r: int)
    ensures r >= 1
    ensures r <= quantity || quantity < 1
  {
    if quantity - 1 > 1 then quantity - 1 else 1
  }

  /** The "+" button asks for `quantity + 1`. */
  function IncrementRequest(quantity: int): (r: int)
    ensures r > quantity
  {
    quantity + 1
  }

  /** "-" then "+" restores a quantity of at least 2, and "-" stops at 1; both
      keep every line positive. */
  lemma ButtonsKeepPositive(c: seq<Item>, k: nat)
    requires AllPositive(c) && k < |c|
    ensures c[k].quantity >= 2 ==> IncrementRequest(DecrementRequest(c[k].quantity)) == c[k].quantity
    ensures c[k].quantity == 1 ==> DecrementRequest(c[k].quantity) == 1
    ensures AllPositive(WithQuantity(c, c[k].id, DecrementRequest(c[k].quantity)))
    ensures AllPositive(WithQuantity(c, c[k].id, IncrementRequest(c[k].quantity)))
  {
    WithQuantityKeepsPositive(c, c[k].id, DecrementRequest(c[k].quantity));
    WithQuantityKeepsPositive(c, c[k].id, IncrementRequest(c[k].quantity));
  }

  // ---------------------------------------------------------------------------
  // Proceed to Payment

  /** `{id, quantity, totalPrice}`. */
  datatype Detail = Detail(id: Id, quantity: int, totalPrice: int)

  /** Where `handleProceedClick` goes: to the login page carrying `from`, or to
      the confirmation modal with the details it stored. */
  datatype Proceed = ToLogin(from: string) | OpenModal(details: seq<Detail>)

  /** `cart.map(({id, quantity}) => ({id, quantity, totalPrice: total}))`. */
  function Details(c: seq<Item>, total: int): seq<Detail>
    decreases |c|
  {
    if c == [] then [] else [Detail(c[0].id, c[0].quantity, total)] + Details(c[1..], total)
  }

  function ProceedClick(token: Option<string>, c: seq<Item>): Proceed {
    if !Truthy(token) then ToLogin("/cart") else OpenModal(Details(c, TotalAmount(c)))
  }

  lemma {:induction false} DetailsAt(c: seq<Item>, total: int)
    ensures |Details(c, total)| == |c|
    ensures forall i :: 0 <= i < |c| ==>
      Details(c, total)[i] == Detail(c[i].id, c[i].quantity, total)
    decreases |c|
  {
    if c != [] {
      DetailsAt(c[1..], total);
    }
  }

  /** Without a token the page sends the user to log in and back to "/cart";
      with one it opens the modal with one detail per line, in cart order, each
      carrying the whole cart's total as its price. */
  lemma ProceedOutcome(token: Option<string>, c: seq<Item>)
    ensures !Truthy(token) <==> ProceedClick(token, c) == ToLogin("/cart")
    ensures Truthy(token) ==>
      var d := ProceedClick(token, c).details;
      && |d| == |c|
      && forall i :: 0 <= i < |c| ==>
           d[i].id == c[i].id && d[i].quantity == c[i].quantity && d[i].totalPrice == TotalAmount(c)
  {
    DetailsAt(c, TotalAmount(c));
  }

  /** The prices over all details add up to the total once per line. */
  function PriceSum(d: seq<Detail>): int
    decreases |d|
  {
    if d == [] then 0 else d[0].totalPrice + PriceSum(d[1..])
  }

  lemma {:induction false} DetailPricesRepeatTotal(c: seq<Item>, total: int)
    ensures PriceSum(Details(c, total)) == |c| * total
    decreases |c|
  {
    if c != [] {
      DetailPricesRepeatTotal(c[1..], total);
      assert |c| * total == total + (|c| - 1) * total;
    }
  }
}
