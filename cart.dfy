/** The cart panel: the cart line record, the derived line subtotal and
    order total, and the quantity buttons of each line. The panel never
    changes the lines itself; its buttons only ask the page for a new
    quantity. */
module CartPanel {
  import opened Prelude
  import opened Catalog
  import opened Customizing

  /** One line of the cart. The quantity is a JavaScript number in the
      source; the model takes it as a whole number. */
  datatype CartItem = CartItem(id: string, product: Product, customization: Customization, quantity: int)

  /** The amount shown beside a line: its price times its quantity. It is
      not negative, and a line of one unit or more costs at least its price. */
  function Subtotal(item: CartItem): (r: int)
    ensures item.product.price >= 0 && item.quantity >= 0 ==> r >= 0
    ensures item.product.price >= 0 && item.quantity >= 1 ==> r >= item.product.price
  {
    item.product.price * item.quantity
  }

  /** `items.reduce((sum, item) => sum + item.product.price * item.quantity, 0)`. */
  function Total(items: seq<CartItem>): (r: int)
    ensures r == SumOf(items, Subtotal)
  {
    ReduceIsSumOf(0, items, Subtotal);
    Reduce(0, items, Subtotal)
  }

  /** Every line has a positive quantity. */
  predicate AllPositive(items: seq<CartItem>)
  {
    forall i :: 0 <= i < |items| ==> items[i].quantity >= 1
  }

  /** The order total is the sum of the line subtotals; the empty cart costs nothing. */
  lemma TotalIsSumOfSubtotals(items: seq<CartItem>)
    ensures Total(items) == SumOf(items, Subtotal)
    ensures items == [] ==> Total(items) == 0
  {
    ReduceIsSumOf(0, items, Subtotal);
  }

  /** A line added at the end adds its subtotal to the total. */
  lemma TotalAppend(items: seq<CartItem>, item: CartItem)
    ensures Total(items + [item]) == Total(items) + item.product.price * item.quantity
  {
    TotalIsSumOfSubtotals(items);
    TotalIsSumOfSubtotals(items + [item]);
    SumOfAppend(items, item, Subtotal);
  }

  /** With non-negative prices and positive quantities the total is not negative. */
  lemma TotalNonNegative(items: seq<CartItem>)
    requires AllPositive(items)
    requires forall i :: 0 <= i < |items| ==> items[i].product.price >= 0
    ensures Total(items) >= 0
  {
    TotalIsSumOfSubtotals(items);
    SumOfNonNegative(items, Subtotal);
  }

  /** The quantity the "+" button of a line asks for: one more, after which
      the "-" button of a line that had a unit or more is enabled and asks for
      the old quantity back. */
  function IncrementRequest(item: CartItem): (r: int)
    ensures r > item.quantity
    ensures item.quantity >= 1 ==> DecrementRequest(item.(quantity := r)) == Some(item.quantity)
  {
    item.quantity + 1
  }

  /** The quantity the "-" button of a line asks for, or `None` when the
      button is disabled (quantity of one or less). */
  function DecrementRequest(item: CartItem): (r: Option<int>)
    ensures r.Some? <==> item.quantity > 1
    ensures r.Some? ==> r.value == item.quantity - 1
  {
    if item.quantity <= 1 then None else Some(item.quantity - 1)
  }

  /** Through the two buttons, a line with a positive quantity is only ever
      asked for another positive quantity: the buttons never reach zero. */
  lemma ButtonsRequestPositive(item: CartItem)
    requires item.quantity >= 1
    ensures IncrementRequest(item) >= 1
    ensures DecrementRequest(item).Some? ==> DecrementRequest(item).value >= 1
  {
  }
}
