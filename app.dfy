/** The storefront page: the mock catalogue, the cart ledger it owns (add a
    line, change a line's quantity, remove a line, count the units for the
    header badge), and the page state that ties the customizer and the cart
    panel together. The clock reading the source takes from `Date.now()` is
    a parameter of the operations that need it. */
module App {
  import opened Prelude
  import opened Catalog
  import opened Customizing
  import opened CartPanel

  const Buzo: Product := Product(
    "1",
    "Buzo Oversize",
    "Buzo cómodo y moderno, perfecto para el día a día",
    35000,
    "Buzos",
    YarnRequirements(2, 2),
    AvailableColors(["Rosa", "Azul", "Verde", "Blanco", "Negro", "Gris"], ["Beige", "Café", "Morado", "Amarillo", "Rojo"]))

  const Bikini: Product := Product(
    "2",
    "Bikini Verano",
    "Bikini tejido a mano, ideal para la playa",
    25000,
    "Bikinis",
    YarnRequirements(3, 0),
    AvailableColors(["Rosa", "Azul", "Verde", "Amarillo", "Morado", "Blanco"], []))

  const Falda: Product := Product(
    "3",
    "Falda Midi",
    "Falda elegante con diseño único",
    28000,
    "Faldas",
    YarnRequirements(1, 3),
    AvailableColors(["Negro", "Blanco", "Beige"], ["Rosa", "Azul", "Verde", "Morado", "Gris", "Café"]))

  const Top: Product := Product(
    "4",
    "Top Cropped",
    "Top moderno para looks casuales",
    22000,
    "Tops",
    YarnRequirements(2, 1),
    AvailableColors(["Rosa", "Azul", "Verde", "Blanco", "Amarillo"], ["Negro", "Gris", "Café", "Beige"]))

  /** The catalogue shown on the page, in display order. */
  const MockProducts: seq<Product> := [Buzo, Bikini, Falda, Top]

  /** A positive price, distinct colours in each class, and at least as many
      of them as the quotas ask. */
  predicate WellFormedProduct(p: Product)
  {
    && p.price > 0
    && QuotasReachable(p)
    && NoDup(p.availableColors.normal)
    && NoDup(p.availableColors.doubleStrand)
  }

  // One lemma per catalogue entry keeps each proof about literal colour
  // names small.
  lemma BuzoWellFormed() ensures WellFormedProduct(Buzo) {}
  lemma BikiniWellFormed() ensures WellFormedProduct(Bikini) {}
  lemma FaldaWellFormed() ensures WellFormedProduct(Falda) {}
  lemma TopWellFormed() ensures WellFormedProduct(Top) {}

  /** Every catalogue product is well formed. */
  lemma MockCatalogWellFormed()
    ensures forall p :: p in MockProducts ==> WellFormedProduct(p)
  {
    BuzoWellFormed();
    BikiniWellFormed();
    FaldaWellFormed();
    TopWellFormed();
  }

  /** No two catalogue products share an id. */
  lemma MockProductIdsDistinct()
    ensures forall i, j :: 0 <= i < j < |MockProducts| ==> MockProducts[i].id != MockProducts[j].id
  {
  }

  /** For every catalogue product a complete selection is reachable from
      empty selections by clicking offered colours. */
  lemma MockProductsCompletable()
    ensures forall p :: p in MockProducts ==>
      var normal := Clicks([], p.availableColors.normal[..p.yarnRequirements.normal], p.yarnRequirements.normal);
      var doubleStrand := Clicks([], p.availableColors.doubleStrand[..p.yarnRequirements.doubleStrand], p.yarnRequirements.doubleStrand);
      IsComplete(p, normal, doubleStrand) && Consistent(p, normal, doubleStrand)
  {
    MockCatalogWellFormed();
    forall p | p in MockProducts
      ensures var normal := Clicks([], p.availableColors.normal[..p.yarnRequirements.normal], p.yarnRequirements.normal);
        var doubleStrand := Clicks([], p.availableColors.doubleStrand[..p.yarnRequirements.doubleStrand], p.yarnRequirements.doubleStrand);
        IsComplete(p, normal, doubleStrand) && Consistent(p, normal, doubleStrand)
    {
      CompleteSelectionReachable(p);
    }
  }

  /** The decimal digits of a non-negative number, as a template literal prints it. */
  function DecimalString(n: nat): (r: string)
    ensures |r| >= 1
    ensures forall i :: 0 <= i < |r| ==> '0' <= r[i] <= '9'
    decreases n
  {
    var digit := ['0' + (n % 10) as char];
    if n < 10 then digit else DecimalString(n / 10) + digit
  }

  /** The id of a new cart line: the product id, a dash, and the clock reading. */
  function LineId(productId: string, now: nat): (r: string)
    ensures |r| > |productId| + 1
    ensures r[..|productId|] == productId && r[|productId|] == '-'
    ensures forall i :: |productId| < i < |r| ==> '0' <= r[i] <= '9'
  {
    productId + "-" + DecimalString(now)
  }

  /** `handleAddToCart`: a fresh line with quantity 1 appended at the end;
      the earlier lines stay as they were, in their order. */
  function AddLine(items: seq<CartItem>, product: Product, customization: Customization, now: nat): (r: seq<CartItem>)
    ensures |r| == |items| + 1 && r[..|items|] == items
    ensures r[|items|].quantity == 1 && r[|items|].product == product && r[|items|].customization == customization
    ensures r[|items|].id == LineId(product.id, now)
  {
    items + [CartItem(LineId(product.id, now), product, customization, 1)]
  }

  /** `handleRemoveItem`: the lines whose id differs from `id`, in order. */
  function RemoveLine(items: seq<CartItem>, id: string): (r: seq<CartItem>)
    ensures forall x :: x in r ==> x.id != id
    ensures forall x :: x in r <==> x in items && x.id != id
    ensures forall x :: multiset(r)[x] == if x.id != id then multiset(items)[x] else 0
    ensures IsSubsequence(r, items)
    ensures (forall i :: 0 <= i < |items| ==> items[i].id != id) ==> r == items
  {
    FilterCounts(items, (item: CartItem) => item.id != id);
    Filter(items, (item: CartItem) => item.id != id)
  }

  /** `handleUpdateQuantity`: a quantity of zero or less removes the lines
      with that id; any other quantity is written into those lines, and the
      cart keeps its length, its order and everything else. */
  function UpdateQuantity(items: seq<CartItem>, id: string, quantity: int): (r: seq<CartItem>)
    ensures quantity <= 0 ==> r == RemoveLine(items, id)
    ensures quantity > 0 ==> |r| == |items|
    ensures quantity > 0 ==> forall i :: 0 <= i < |items| ==>
      && r[i].id == items[i].id
      && r[i].product == items[i].product
      && r[i].customization == items[i].customization
      && r[i].quantity == (if items[i].id == id then quantity else items[i].quantity)
  {
    if quantity <= 0 then
      RemoveLine(items, id)
    else
      seq(|items|, i requires 0 <= i < |items| =>
        if items[i].id == id then items[i].(quantity := quantity) else items[i])
  }

  /** The number of units a line stands for. */
  function LineQuantity(item: CartItem): (r: int)
  {
    item.quantity
  }

  /** `totalCartItems`: `cartItems.reduce((sum, item) => sum + item.quantity, 0)`. */
  function ItemCount(items: seq<CartItem>): (r: int)
    ensures r == SumOf(items, LineQuantity)
  {
    ReduceIsSumOf(0, items, LineQuantity);
    Reduce(0, items, LineQuantity)
  }

  /** The badge count is the sum of the quantities: zero for the empty cart,
      one more after an add, and at least the number of lines when every
      quantity is positive. */
  lemma ItemCountIsSumOfQuantities(items: seq<CartItem>, product: Product, customization: Customization, now: nat)
    ensures ItemCount(items) == SumOf(items, LineQuantity)
    ensures ItemCount([]) == 0
    ensures ItemCount(AddLine(items, product, customization, now)) == ItemCount(items) + 1
    ensures AllPositive(items) ==> ItemCount(items) >= |items|
  {
    var added := AddLine(items, product, customization, now);
    ReduceIsSumOf(0, items, LineQuantity);
    ReduceIsSumOf(0, added, LineQuantity);
    SumOfAppend(items, added[|items|], LineQuantity);
    assert added == items + [added[|items|]];
    if AllPositive(items) {
      SumOfAtLeastLength(items);
    }
  }

  /** Σ of quantities that are all at least one is at least the number of lines. */
  lemma {:induction false} SumOfAtLeastLength(items: seq<CartItem>)
    requires AllPositive(items)
    ensures SumOf(items, LineQuantity) >= |items|
    decreases |items|
  {
    if items != [] {
      SumOfAtLeastLength(items[..|items| - 1]);
    }
  }

  /** Adding a line raises the order total by the product's price. */
  lemma TotalAfterAdd(items: seq<CartItem>, product: Product, customization: Customization, now: nat)
    ensures Total(AddLine(items, product, customization, now)) == Total(items) + product.price
  {
    var added := AddLine(items, product, customization, now);
    assert added == items + [added[|items|]];
    TotalAppend(items, added[|items|]);
  }

  /** Two adds of the same product and customization are never merged:
      they give two more lines, each with quantity 1. */
  lemma TwoAddsNeverMerge(items: seq<CartItem>, product: Product, customization: Customization, first: nat, second: nat)
    ensures var r := AddLine(AddLine(items, product, customization, first), product, customization, second);
      && |r| == |items| + 2
      && r[..|items|] == items
      && r[|items|].quantity == 1 && r[|items| + 1].quantity == 1
      && r[|items|].product == product && r[|items| + 1].product == product
      && r[|items|].customization == customization && r[|items| + 1].customization == customization
  {
    var once := AddLine(items, product, customization, first);
    var r := AddLine(once, product, customization, second);
    assert r[..|items|] == once[..|once|][..|items|];
  }

  /** Changing the quantity of an id no line carries changes nothing. */
  lemma UpdateUnknownIdIsNoOp(items: seq<CartItem>, id: string, quantity: int)
    requires forall i :: 0 <= i < |items| ==> items[i].id != id
    ensures UpdateQuantity(items, id, quantity) == items
  {
  }

  /** Removing the line just added, when no earlier line shares its id,
      gives back the cart as it was. */
  lemma AddThenRemoveRestores(items: seq<CartItem>, product: Product, customization: Customization, now: nat)
    requires forall i :: 0 <= i < |items| ==> items[i].id != LineId(product.id, now)
    ensures RemoveLine(AddLine(items, product, customization, now), LineId(product.id, now)) == items
  {
    var id := LineId(product.id, now);
    var keep := (item: CartItem) => item.id != id;
    var line := CartItem(id, product, customization, 1);
    FilterAppend(items, line, keep);
    assert Filter(items, keep) == items;
  }

  /** Ids are not unique: two adds of one product at the same clock reading
      share an id, and removing that id drops both lines. */
  lemma SameInstantAddsShareId(items: seq<CartItem>, product: Product, first: Customization, second: Customization, now: nat)
    ensures var r := AddLine(AddLine(items, product, first, now), product, second, now);
      r[|items|].id == r[|items| + 1].id
    ensures RemoveLine(AddLine(AddLine(items, product, first, now), product, second, now), LineId(product.id, now))
      == RemoveLine(items, LineId(product.id, now))
  {
    var id := LineId(product.id, now);
    var keep := (item: CartItem) => item.id != id;
    var once := AddLine(items, product, first, now);
    FilterAppend(items, CartItem(id, product, first, 1), keep);
    FilterAppend(once, CartItem(id, product, second, 1), keep);
  }

  /** Removing lines keeps every remaining quantity positive. */
  lemma RemoveKeepsQuantitiesPositive(items: seq<CartItem>, id: string)
    requires AllPositive(items)
    ensures AllPositive(RemoveLine(items, id))
  {
    var removed := RemoveLine(items, id);
    forall i | 0 <= i < |removed| ensures removed[i].quantity >= 1 {
      assert removed[i] in items;
    }
  }

  /** Changing a quantity, whatever the value asked for, keeps every line's
      quantity positive: a value of zero or less removes the lines instead. */
  lemma UpdateKeepsQuantitiesPositive(items: seq<CartItem>, id: string, quantity: int)
    requires AllPositive(items)
    ensures AllPositive(UpdateQuantity(items, id, quantity))
  {
    RemoveKeepsQuantitiesPositive(items, id);
  }

  /** A quantity button of a line never removes the line: the request it
      sends keeps the cart's length and leaves every quantity positive. */
  lemma QuantityButtonsKeepLine(items: seq<CartItem>, k: nat)
    requires AllPositive(items) && k < |items|
    ensures var up := UpdateQuantity(items, items[k].id, IncrementRequest(items[k]));
      |up| == |items| && AllPositive(up)
    ensures DecrementRequest(items[k]).Some? ==>
      var down := UpdateQuantity(items, items[k].id, DecrementRequest(items[k]).value);
      |down| == |items| && AllPositive(down)
  {
    ButtonsRequestPositive(items[k]);
  }

  /** Two lines, one of the first product at quantity 1 and one of the
      second at quantity 2, cost 35000 + 2 * 25000 = 85000. */
  lemma TotalOfTwoLines(customization: Customization)
    ensures Total([CartItem("1-0", Buzo, customization, 1), CartItem("2-0", Bikini, customization, 2)]) == 85000
  {
    var first, second := CartItem("1-0", Buzo, customization, 1), CartItem("2-0", Bikini, customization, 2);
    TotalIsSumOfSubtotals([]);
    assert [first] == [] + [first];
    TotalAppend([], first);
    assert [first, second] == [first] + [second];
    TotalAppend([first], second);
  }

  /** The page state: the cart lines, the product being customised (`null`
      when the customizer is closed), the open flags of the cart panel and
      of its order confirmation, and the customizer, which stays mounted for
      the whole session. */
  class Storefront {
    var items: seq<CartItem>
    var selected: Option<Product>
    var cartOpen: bool
    var orderModalOpen: bool
    const customizer: Customizer

    /** Every cart line has a positive quantity. */
    predicate Valid()
      reads this
    {
      AllPositive(items)
    }

    /** While a product is shown, the customizer's selections are consistent with it. */
    ghost predicate SelectionConsistent()
      reads this, customizer
    {
      selected.Some? ==> Consistent(selected.value, customizer.normal, customizer.doubleStrand)
    }

    /** An empty cart, nothing being customised, both panels closed. */
    constructor ()
      ensures items == [] && selected == None && !cartOpen && !orderModalOpen
      ensures fresh(customizer) && customizer.normal == [] && customizer.doubleStrand == []
      ensures Valid() && SelectionConsistent()
    {
      items, selected, cartOpen, orderModalOpen := [], None, false, false;
      customizer := new Customizer();
    }

    /** The badge count of the header. */
    function CartBadge(): (count: int)
      reads this
      ensures Valid() ==> count >= |items|
    {
      ReduceIsSumOf(0, items, LineQuantity);
      if Valid() then SumOfAtLeastLength(items); ItemCount(items) else ItemCount(items)
    }

    /** `handleCustomizeProduct`: show the customizer for `p`. The
        customizer's selections are left as they are. */
    method CustomizeProduct(p: Product)
      modifies this`selected
      ensures selected == Some(p)
    {
      selected := Some(p);
    }

    /** The product switch as evidently intended: show the customizer for
        `p` with both selections empty. */
    method CustomizeProductFresh(p: Product)
      modifies this`selected, customizer
      ensures selected == Some(p)
      ensures customizer.normal == [] && customizer.doubleStrand == []
      ensures QuotasReachable(p) ==> SelectionConsistent()
    {
      customizer.Clear();
      selected := Some(p);
    }

    /** The customizer's `onClose`: nothing is being customised any more;
        the selections are kept. */
    method CloseCustomizer()
      modifies this`selected
      ensures selected == None
    {
      selected := None;
    }

    /** A click on a normal-yarn swatch; the swatches shown are the colours
        the product offers. */
    method SelectNormalColor(color: string)
      requires selected.Some? && color in selected.value.availableColors.normal
      modifies customizer`normal
      ensures customizer.normal == Toggle(old(customizer.normal), color, selected.value.yarnRequirements.normal)
      ensures old(SelectionConsistent()) ==> SelectionConsistent()
    {
      if Offered(customizer.normal, selected.value.availableColors.normal) {
        ToggleKeepsOffered(customizer.normal, color, selected.value.yarnRequirements.normal, selected.value.availableColors.normal);
      }
      customizer.SelectNormalColor(selected.value, color);
    }

    /** A click on a double-strand swatch; that section is shown only when the
        product's double-strand quota is positive. */
    method SelectDoubleStrandColor(color: string)
      requires selected.Some? && selected.value.yarnRequirements.doubleStrand > 0
      requires color in selected.value.availableColors.doubleStrand
      modifies customizer`doubleStrand
      ensures customizer.doubleStrand == Toggle(old(customizer.doubleStrand), color, selected.value.yarnRequirements.doubleStrand)
      ensures old(SelectionConsistent()) ==> SelectionConsistent()
    {
      if Offered(customizer.doubleStrand, selected.value.availableColors.doubleStrand) {
        ToggleKeepsOffered(customizer.doubleStrand, color, selected.value.yarnRequirements.doubleStrand, selected.value.availableColors.doubleStrand);
      }
      customizer.SelectDoubleStrandColor(selected.value, color);
    }

    /** The customizer's "add to cart" button: a complete selection becomes a
        new cart line, both selections are emptied and the customizer closes;
        an incomplete one changes nothing. */
    method CommitCustomization(now: nat)
      requires selected.Some?
      modifies this, customizer
      ensures var c := Commit(old(selected.value), old(customizer.normal), old(customizer.doubleStrand));
        if c.Some? then
          && items == AddLine(old(items), old(selected.value), c.value, now)
          && selected == None && customizer.normal == [] && customizer.doubleStrand == []
        else
          && items == old(items) && selected == old(selected)
          && customizer.normal == old(customizer.normal) && customizer.doubleStrand == old(customizer.doubleStrand)
      ensures cartOpen == old(cartOpen) && orderModalOpen == old(orderModalOpen)
      ensures old(Valid()) ==> Valid()
      ensures old(SelectionConsistent()) ==> SelectionConsistent()
    {
      var p := selected.value;
      var emitted := customizer.AddToCart(p);
      if emitted.Some? {
        AddToCart(p, emitted.value, now);
        selected := None;
      }
    }

    /** `handleAddToCart` of the page. */
    method AddToCart(product: Product, customization: Customization, now: nat)
      modifies this`items
      ensures items == AddLine(old(items), product, customization, now)
      ensures old(Valid()) ==> Valid()
    {
      items := items + [CartItem(LineId(product.id, now), product, customization, 1)];
    }

    /** `handleUpdateQuantity`. */
    method UpdateItemQuantity(id: string, quantity: int)
      modifies this`items
      ensures items == UpdateQuantity(old(items), id, quantity)
      ensures old(Valid()) ==> Valid()
    {
      if Valid() {
        UpdateKeepsQuantitiesPositive(items, id, quantity);
      }
      items := UpdateQuantity(items, id, quantity);
    }

    /** `handleRemoveItem`. */
    method RemoveItem(id: string)
      modifies this`items
      ensures items == RemoveLine(old(items), id)
      ensures old(Valid()) ==> Valid()
    {
      if Valid() {
        RemoveKeepsQuantitiesPositive(items, id);
      }
      items := RemoveLine(items, id);
    }

    /** The header's cart button. */
    method OpenCart()
      modifies this`cartOpen
      ensures cartOpen
    {
      cartOpen := true;
    }

    /** The cart panel's `onClose`. */
    method CloseCart()
      modifies this`cartOpen
      ensures !cartOpen
    {
      cartOpen := false;
    }

    /** `handleCheckout`: show the order confirmation. The lines are kept. */
    method Checkout()
      modifies this`orderModalOpen
      ensures orderModalOpen
      ensures items == old(items)
    {
      orderModalOpen := true;
    }

    /** The confirmation's close button: hide it and close the cart panel.
        The lines stay in the cart. */
    method CloseOrder()
      modifies this`orderModalOpen, this`cartOpen
      ensures !orderModalOpen && !cartOpen
      ensures items == old(items)
    {
      orderModalOpen := false;
      cartOpen := false;
    }
  }

  /** A double-strand colour chosen for the first product survives a switch
      to the second, whose quota for that class is 0: the selection is then
      inconsistent with the product shown, and it is not complete. */
  method CarriedSelectionExample() returns (shop: Storefront)
    ensures shop.selected == Some(Bikini)
    ensures shop.customizer.doubleStrand == ["Beige"]
    ensures !shop.SelectionConsistent()
    ensures !IsComplete(Bikini, shop.customizer.normal, shop.customizer.doubleStrand)
  {
    shop := new Storefront();
    shop.CustomizeProduct(Buzo);
    shop.SelectDoubleStrandColor("Beige");
    shop.CloseCustomizer();
    shop.CustomizeProduct(Bikini);
  }

  /** Once the second product is shown with a non-empty double-strand
      selection, no normal-yarn selection whatever completes it: its page
      shows no double-strand swatch that could empty that selection. */
  lemma CarriedSelectionBlocksCommit(normal: seq<string>, doubleStrand: seq<string>)
    requires doubleStrand != []
    ensures Commit(Bikini, normal, doubleStrand).None?
  {
  }

  /** With the corrected product switch the selections start empty for the
      second product, so three clicks on offered normal colours complete it
      and the commit emits them. */
  lemma FreshSelectionCompletesBikini()
    ensures var normal := Clicks([], ["Rosa", "Azul", "Verde"], Bikini.yarnRequirements.normal);
      Commit(Bikini, normal, []) == Some(Customization(["Rosa", "Azul", "Verde"], []))
  {
    ClicksOfNewColorsAppend([], ["Rosa", "Azul", "Verde"], 3);
    assert [] + ["Rosa", "Azul", "Verde"] == ["Rosa", "Azul", "Verde"];
  }
}
