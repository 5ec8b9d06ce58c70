/**
 * The `ShoppingCart` object of script.js: an ordered list of entries that its
 * methods update in place, and a count of the display refreshes they request.
 */
module ShoppingCarts {
  import opened CartModel

  class ShoppingCart {
    /** The entries, in the order they were first added. */
    var items: seq<CartItem>
    /** How many times the cart asked the display to redraw itself. */
    var refreshes: nat

    constructor ()
      ensures items == [] && refreshes == 0
    {
      items := [];
      refreshes := 0;
    }

    /** `getTotalItems`: the sum of the entries' quantities. */
    function TotalItems(): (r: int)
      reads this
      ensures r == SumOf(items, Quantity)
      ensures items == [] ==> r == 0
    {
      FoldSum(0, items, Quantity)
    }

    /** `getTotalPrice`: the sum over the entries of price times quantity. */
    function TotalPrice(): (r: int)
      reads this
      ensures r == SumOf(items, ItemTotalPrice)
      ensures items == [] ==> r == 0
    {
      FoldSum(0, items, ItemTotalPrice)
    }

    /** `updateCartDisplay`, reduced to the fact that a redraw was requested. */
    method UpdateCartDisplay()
      modifies this`refreshes
      ensures refreshes == old(refreshes) + 1
    {
      refreshes := refreshes + 1;
    }

    /** `addItem`: raise the quantity of the product's entry, or append a new entry. */
    method AddItem(product: Product, quantity: int := 1)
      modifies this
      ensures items == Added(old(items), product, quantity)
      ensures refreshes == old(refreshes) + 1
      ensures old(UniqueIds(items)) ==> UniqueIds(items)
      ensures old(AllPositive(items)) && quantity >= 1 ==> AllPositive(items)
      ensures TotalItems() == old(TotalItems()) + quantity
      ensures TotalPrice() == old(TotalPrice()) + UnitPrice(old(items), product) * quantity
    {
      ghost var before := items;
      var existing := IndexOf(items, product.id);
      if existing.Some? {
        var i := existing.value;
        items := items[i := CartItem(items[i].product, items[i].quantity + quantity)];
      } else {
        items := items + [CartItem(product, quantity)];
      }
      UpdateCartDisplay();
      if UniqueIds(before) {
        AddedPreservesUnique(before, product, quantity);
      }
      if AllPositive(before) && quantity >= 1 {
        AddedPreservesPositive(before, product, quantity);
      }
      AddedTotals(before, product, quantity);
    }

    /**
     * `updateItemQuantity`: set the quantity of the entry for `productId`, and
     * remove it (through `RemoveItem`, which redraws too) when that quantity
     * is not positive.
     */
    method UpdateItemQuantity(productId: int, quantity: int)
      modifies this
      ensures items == Updated(old(items), productId, quantity)
      ensures refreshes == old(refreshes)
                           + (if HasEntry(old(items), productId) && quantity <= 0 then 2 else 1)
      ensures old(UniqueIds(items)) ==> UniqueIds(items)
      ensures old(AllPositive(items)) ==> AllPositive(items)
    {
      ghost var before := items;
      var found := IndexOf(items, productId);
      if found.Some? {
        var i := found.value;
        items := items[i := CartItem(items[i].product, quantity)];
        if items[i].quantity <= 0 {
          WithoutReplaced(before, i, items[i], productId);
          RemoveItem(productId);
        }
      }
      UpdateCartDisplay();
      if UniqueIds(before) {
        UpdatedPreservesUnique(before, productId, quantity);
      }
      if AllPositive(before) {
        UpdatedPreservesPositive(before, productId, quantity);
      }
    }

    /** `removeItem`: keep only the entries for other products. */
    method RemoveItem(productId: int)
      modifies this
      ensures items == Without(old(items), productId)
      ensures refreshes == old(refreshes) + 1
      ensures old(UniqueIds(items)) ==> UniqueIds(items)
      ensures old(AllPositive(items)) ==> AllPositive(items)
    {
      ghost var before := items;
      items := Without(items, productId);
      UpdateCartDisplay();
      if UniqueIds(before) {
        WithoutPreservesUnique(before, productId);
      }
      if AllPositive(before) {
        WithoutPreservesPositive(before, productId);
      }
    }
  }

  // Two products of the catalog, as fixtures for the sessions below.
  const MacBookPro := Product(1, "MacBook Pro", 1700000, "src/img/ordinateur_portable.jpg")
  const IPhone15 := Product(2, "iPhone 15", 570000, "src/img/smartphone.jpg")

  /** Adding one product twice, once and then twice more, gives one entry of three. */
  method RepeatedAddSession() returns (count: int, total: int)
    ensures count == 3 && total == 3 * MacBookPro.price
  {
    var cart := new ShoppingCart();
    cart.AddItem(MacBookPro);
    cart.AddItem(MacBookPro, 2);
    assert cart.items == [CartItem(MacBookPro, 3)];
    count := cart.TotalItems();
    total := cart.TotalPrice();
  }

  /**
   * Adding two products and setting the first to zero leaves only the
   * second; the drop redraws twice, so four redraws in all.
   */
  method DropToZeroSession() returns (remaining: seq<CartItem>, count: int, redraws: nat)
    ensures remaining == [CartItem(IPhone15, 1)] && count == 1 && redraws == 4
  {
    var cart := new ShoppingCart();
    cart.AddItem(MacBookPro);
    cart.AddItem(IPhone15);
    assert cart.items == [CartItem(MacBookPro, 1), CartItem(IPhone15, 1)];
    assert HasEntry(cart.items, MacBookPro.id) by {
      assert cart.items[0].product.id == MacBookPro.id;
    }
    cart.UpdateItemQuantity(MacBookPro.id, 0);
    remaining := cart.items;
    count := cart.TotalItems();
    redraws := cart.refreshes;
  }
}
