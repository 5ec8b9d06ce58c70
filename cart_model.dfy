/**
 * The value-level model of the shopping cart of script.js: products, cart
 * entries, the library operations the cart is built from (`find`, `filter`,
 * `reduce`), the new contents each mutating operation produces, and the
 * properties those contents have.
 */
module CartModel {

  datatype Option<T> = None | Some(value: T)

  /** A catalog product; immutable once created. Prices are whole amounts. */
  datatype Product = Product(id: int, name: string, price: int, image: string)

  /** One cart entry: a product and how many of it are in the cart. */
  datatype CartItem = CartItem(product: Product, quantity: int)

  /** The price of one entry (`ShoppingCartItem.getTotalPrice`). */
  function ItemTotalPrice(item: CartItem): (r: int)
    ensures item.quantity == 1 ==> r == item.product.price
    ensures item.quantity == 0 ==> r == 0
    ensures item.product.price >= 0 && item.quantity >= 1 ==> r >= item.product.price
  {
    item.product.price * item.quantity
  }

  /** The quantity of one entry, as the item-count fold adds it up. */
  function Quantity(item: CartItem): int {
    item.quantity
  }

  // ---------------------------------------------------------------------------
  // Sums

  /** Reference definition: the sum of `f` over the entries. */
  function SumOf(items: seq<CartItem>, f: CartItem -> int): int {
    if items == [] then 0 else f(items[0]) + SumOf(items[1..], f)
  }

  /**
   * `items.reduce((total, item) => total + f(item), acc)`: a left fold that
   * starts from `acc` and adds the entries one by one from the front.
   */
  function FoldSum(acc: int, items: seq<CartItem>, f: CartItem -> int): (r: int)
    ensures r == acc + SumOf(items, f)
    ensures items == [] ==> r == acc
    decreases items
  {
    if items == [] then acc else FoldSum(acc + f(items[0]), items[1..], f)
  }

  lemma {:induction false} SumConcat(a: seq<CartItem>, b: seq<CartItem>, f: CartItem -> int)
    ensures SumOf(a + b, f) == SumOf(a, f) + SumOf(b, f)
  {
    if a == [] {
      assert a + b == b;
    } else {
      assert (a + b)[1..] == a[1..] + b;
      SumConcat(a[1..], b, f);
    }
  }

  /** Appending an entry adds its value to the sum. */
  lemma SumAppend(items: seq<CartItem>, x: CartItem, f: CartItem -> int)
    ensures SumOf(items + [x], f) == SumOf(items, f) + f(x)
  {
    SumConcat(items, [x], f);
  }

  /** Replacing one entry changes the sum by the difference of the two values. */
  lemma SumUpdate(items: seq<CartItem>, i: nat, x: CartItem, f: CartItem -> int)
    requires i < |items|
    ensures SumOf(items[i := x], f) == SumOf(items, f) - f(items[i]) + f(x)
  {
    assert items == items[..i] + [items[i]] + items[i + 1..];
    assert items[i := x] == items[..i] + [x] + items[i + 1..];
    SumConcat(items[..i] + [items[i]], items[i + 1..], f);
    SumConcat(items[..i], [items[i]], f);
    SumConcat(items[..i] + [x], items[i + 1..], f);
    SumConcat(items[..i], [x], f);
  }

  // ---------------------------------------------------------------------------
  // Lookup by product id

  /** Some entry of `items` is for product `id`. */
  predicate HasEntry(items: seq<CartItem>, id: int) {
    exists j :: 0 <= j < |items| && items[j].product.id == id
  }

  /** No two entries share a product id: the cart's central invariant. */
  predicate UniqueIds(items: seq<CartItem>) {
    forall i, j :: 0 <= i < j < |items| ==> items[i].product.id != items[j].product.id
  }

  /** Every entry has a quantity of at least one. */
  predicate AllPositive(items: seq<CartItem>) {
    forall i :: 0 <= i < |items| ==> items[i].quantity >= 1
  }

  /** Every entry for the id of `p` holds exactly `p` (the catalog's product). */
  predicate AgreesWith(items: seq<CartItem>, p: Product) {
    forall i :: 0 <= i < |items| && items[i].product.id == p.id ==> items[i].product == p
  }

  /**
   * `items.find(item => item.product.id === id)`, as an index: the first entry
   * for `id`, or None when there is none.
   */
  function IndexOf(items: seq<CartItem>, id: int): (r: Option<nat>)
    ensures r.Some? ==> r.value < |items| && items[r.value].product.id == id
    ensures r.Some? ==> forall j :: 0 <= j < r.value ==> items[j].product.id != id
    ensures r.None? <==> !HasEntry(items, id)
  {
    IndexFrom(items, id, 0)
  }

  /** The search of `IndexOf`, having passed the first `from` entries. */
  function IndexFrom(items: seq<CartItem>, id: int, from: nat): (r: Option<nat>)
    requires from <= |items|
    requires forall j :: 0 <= j < from ==> items[j].product.id != id
    ensures r.Some? ==> from <= r.value < |items| && items[r.value].product.id == id
    ensures r.Some? ==> forall j :: 0 <= j < r.value ==> items[j].product.id != id
    ensures r.None? <==> !HasEntry(items, id)
    decreases |items| - from
  {
    if from == |items| then None
    else if items[from].product.id == id then Some(from)
    else IndexFrom(items, id, from + 1)
  }

  /** With unique ids, the entry found for an id is the only entry for it. */
  lemma IndexOfUnique(items: seq<CartItem>, i: nat)
    requires UniqueIds(items) && i < |items|
    ensures IndexOf(items, items[i].product.id) == Some(i)
  {
  }

  // ---------------------------------------------------------------------------
  // Removal

  /** `items.filter(item => item.product.id !== id)`. */
  function Without(items: seq<CartItem>, id: int): (r: seq<CartItem>)
    ensures |r| <= |items|
    ensures !HasEntry(r, id)
    ensures !HasEntry(items, id) ==> r == items
  {
    if items == [] then []
    else if items[0].product.id == id then Without(items[1..], id)
    else
      var rest := Without(items[1..], id);
      assert forall j :: 1 <= j < |items| ==> items[j] == items[1..][j - 1];
      assert forall j :: 1 <= j <= |rest| ==> ([items[0]] + rest)[j] == rest[j - 1];
      [items[0]] + rest
  }

  /** Filtering distributes over concatenation, so it keeps relative order. */
  lemma {:induction false} WithoutAppend(a: seq<CartItem>, b: seq<CartItem>, id: int)
    ensures Without(a + b, id) == Without(a, id) + Without(b, id)
  {
    if a == [] {
      assert a + b == b;
    } else {
      assert (a + b)[1..] == a[1..] + b;
      WithoutAppend(a[1..], b, id);
    }
  }

  /** With unique ids, removing the id of entry `i` removes just that entry. */
  lemma WithoutUnique(items: seq<CartItem>, i: nat)
    requires UniqueIds(items) && i < |items|
    ensures Without(items, items[i].product.id) == items[..i] + items[i + 1..]
  {
    var id := items[i].product.id;
    var pre, post := items[..i], items[i + 1..];
    assert !HasEntry(pre, id) by {
      forall j | 0 <= j < |pre| ensures pre[j].product.id != id {
        assert pre[j] == items[j];
      }
    }
    assert !HasEntry(post, id) by {
      forall j | 0 <= j < |post| ensures post[j].product.id != id {
        assert post[j] == items[i + 1 + j];
      }
    }
    SplitAt(items, i);
    WithoutSingle(pre, items[i], post);
  }

  /** A sequence is its prefix, its element `i` and its suffix. */
  lemma SplitAt(items: seq<CartItem>, i: nat)
    requires i < |items|
    ensures items == items[..i] + [items[i]] + items[i + 1..]
  {
  }

  /** Filtering the id of the one entry `x` for it, between entries for other ids, removes just `x`. */
  lemma WithoutSingle(pre: seq<CartItem>, x: CartItem, post: seq<CartItem>)
    requires !HasEntry(pre, x.product.id) && !HasEntry(post, x.product.id)
    ensures Without(pre + [x] + post, x.product.id) == pre + post
  {
    var id := x.product.id;
    calc {
      Without(pre + [x] + post, id);
    == { WithoutAppend(pre + [x], post, id); }
      Without(pre + [x], id) + Without(post, id);
    == { WithoutAppend(pre, [x], id); }
      Without(pre, id) + Without([x], id) + Without(post, id);
    == { assert Without([x], id) == [] by { assert [x][1..] == []; } }
      pre + [] + post;
    == { assert pre + [] == pre; }
      pre + post;
    }
  }

  /** Removing every entry for `id` subtracts exactly the removed entry. */
  lemma SumWithout(items: seq<CartItem>, i: nat, f: CartItem -> int)
    requires UniqueIds(items) && i < |items|
    ensures SumOf(Without(items, items[i].product.id), f) == SumOf(items, f) - f(items[i])
  {
    var pre, post := items[..i], items[i + 1..];
    WithoutUnique(items, i);
    SplitAt(items, i);
    SumSplit(pre, items[i], post, f);
  }

  /** The sum over `pre + [x] + post` is the sum without `x` plus `x`'s value. */
  lemma SumSplit(pre: seq<CartItem>, x: CartItem, post: seq<CartItem>, f: CartItem -> int)
    ensures SumOf(pre + [x] + post, f) == SumOf(pre + post, f) + f(x)
  {
    SumConcat(pre + [x], post, f);
    SumAppend(pre, x, f);
    SumConcat(pre, post, f);
  }

  /** The entries filtering keeps are exactly those of the original for another id. */
  lemma {:induction false} WithoutMembers(items: seq<CartItem>, id: int, e: CartItem)
    ensures e in Without(items, id) <==> e in items && e.product.id != id
  {
    if items != [] {
      WithoutMembers(items[1..], id, e);
      assert e in items <==> e == items[0] || e in items[1..] by {
        assert items == [items[0]] + items[1..];
      }
    }
  }

  /** Removal keeps ids unique. */
  lemma {:induction false} WithoutPreservesUnique(items: seq<CartItem>, id: int)
    requires UniqueIds(items)
    ensures UniqueIds(Without(items, id))
  {
    if items != [] {
      var rest := items[1..];
      assert UniqueIds(rest) by {
        forall i, j | 0 <= i < j < |rest|
          ensures rest[i].product.id != rest[j].product.id
        {
          assert rest[i] == items[i + 1] && rest[j] == items[j + 1];
        }
      }
      WithoutPreservesUnique(rest, id);
      if items[0].product.id != id {
        var w := Without(rest, id);
        forall k | 0 <= k < |w| ensures w[k].product.id != items[0].product.id {
          WithoutMembers(rest, id, w[k]);
          assert w[k] in rest;
          var m :| 0 <= m < |rest| && rest[m] == w[k];
          assert rest[m] == items[m + 1];
        }
        var r := [items[0]] + w;
        forall i, j | 0 <= i < j < |r| ensures r[i].product.id != r[j].product.id {
          if i == 0 {
            assert r[j] == w[j - 1];
          } else {
            assert r[i] == w[i - 1] && r[j] == w[j - 1];
          }
        }
      }
    }
  }

  /** Removal keeps every remaining quantity positive. */
  lemma WithoutPreservesPositive(items: seq<CartItem>, id: int)
    requires AllPositive(items)
    ensures AllPositive(Without(items, id))
  {
  }

  /** Overwriting an entry for `id` does not change what removing `id` leaves. */
  lemma {:induction false} WithoutReplaced(items: seq<CartItem>, i: nat, x: CartItem, id: int)
    requires i < |items| && items[i].product.id == id && x.product.id == id
    ensures Without(items[i := x], id) == Without(items, id)
  {
    if i > 0 {
      assert items[i := x][1..] == items[1..][i - 1 := x];
      WithoutReplaced(items[1..], i - 1, x, id);
    }
  }

  // ---------------------------------------------------------------------------
  // The contents after each mutating operation

  /**
   * `addItem(product, quantity)`: the first entry for the product's id gets
   * `quantity` more and keeps its own product; without one, a new entry is
   * appended. Quantity is not checked.
   */
  function Added(items: seq<CartItem>, product: Product, quantity: int): (r: seq<CartItem>)
    ensures IndexOf(items, product.id).Some? ==>
      var i := IndexOf(items, product.id).value;
      && |r| == |items|
      && r[i].product == items[i].product
      && r[i].quantity == items[i].quantity + quantity
      && forall j :: 0 <= j < |items| && j != i ==> r[j] == items[j]
    ensures !HasEntry(items, product.id) ==>
      |r| == |items| + 1 && r[..|items|] == items && r[|items|] == CartItem(product, quantity)
  {
    match IndexOf(items, product.id)
    case Some(i) => items[i := CartItem(items[i].product, items[i].quantity + quantity)]
    case None => items + [CartItem(product, quantity)]
  }

  /**
   * `updateItemQuantity(id, quantity)`: the first entry for `id` gets
   * `quantity`; if that is not positive, every entry for `id` is filtered out.
   * With no entry for `id`, nothing changes.
   */
  function Updated(items: seq<CartItem>, id: int, quantity: int): (r: seq<CartItem>)
    ensures !HasEntry(items, id) ==> r == items
    ensures quantity <= 0 ==> !HasEntry(r, id)
    ensures quantity <= 0 ==> r == Without(items, id)
    ensures HasEntry(items, id) && quantity > 0 ==>
      var i := IndexOf(items, id).value;
      && |r| == |items|
      && r[i] == CartItem(items[i].product, quantity)
      && forall j :: 0 <= j < |items| && j != i ==> r[j] == items[j]
  {
    match IndexOf(items, id)
    case None => items
    case Some(i) =>
      var written := items[i := CartItem(items[i].product, quantity)];
      if written[i].quantity <= 0 then
        WithoutReplaced(items, i, written[i], id);
        Without(written, id)
      else
        written
  }

  /** The unit price a new unit of `product` is charged at: that of the entry it joins. */
  function UnitPrice(items: seq<CartItem>, product: Product): (r: int)
    ensures AgreesWith(items, product) ==> r == product.price
  {
    match IndexOf(items, product.id)
    case Some(i) => items[i].product.price
    case None => product.price
  }

  // ---------------------------------------------------------------------------
  // Properties of the operations

  /** Adding keeps ids unique. */
  lemma AddedPreservesUnique(items: seq<CartItem>, product: Product, quantity: int)
    requires UniqueIds(items)
    ensures UniqueIds(Added(items, product, quantity))
  {
  }

  /** Adding raises the item count by `quantity` and the price by its unit price times `quantity`. */
  lemma AddedTotals(items: seq<CartItem>, product: Product, quantity: int)
    ensures SumOf(Added(items, product, quantity), Quantity) == SumOf(items, Quantity) + quantity
    ensures SumOf(Added(items, product, quantity), ItemTotalPrice)
         == SumOf(items, ItemTotalPrice) + UnitPrice(items, product) * quantity
    ensures AgreesWith(items, product) ==>
      SumOf(Added(items, product, quantity), ItemTotalPrice)
      == SumOf(items, ItemTotalPrice) + product.price * quantity
  {
    match IndexOf(items, product.id)
    case Some(i) =>
      var x := CartItem(items[i].product, items[i].quantity + quantity);
      SumUpdate(items, i, x, Quantity);
      SumUpdate(items, i, x, ItemTotalPrice);
      assert ItemTotalPrice(x) == ItemTotalPrice(items[i]) + items[i].product.price * quantity;
    case None =>
      SumAppend(items, CartItem(product, quantity), Quantity);
      SumAppend(items, CartItem(product, quantity), ItemTotalPrice);
  }

  /** Adding a positive quantity keeps every quantity positive. */
  lemma AddedPreservesPositive(items: seq<CartItem>, product: Product, quantity: int)
    requires AllPositive(items) && quantity >= 1
    ensures AllPositive(Added(items, product, quantity))
  {
  }

  /** Updating keeps ids unique. */
  lemma UpdatedPreservesUnique(items: seq<CartItem>, id: int, quantity: int)
    requires UniqueIds(items)
    ensures UniqueIds(Updated(items, id, quantity))
  {
    if quantity <= 0 {
      WithoutPreservesUnique(items, id);
    }
  }

  /** Updating, whatever the quantity, keeps every quantity positive. */
  lemma UpdatedPreservesPositive(items: seq<CartItem>, id: int, quantity: int)
    requires AllPositive(items)
    ensures AllPositive(Updated(items, id, quantity))
  {
    if quantity <= 0 {
      WithoutPreservesPositive(items, id);
    }
  }

  /** How updating entry `i` of a cart with unique ids changes both totals. */
  lemma UpdatedTotals(items: seq<CartItem>, i: nat, quantity: int, f: CartItem -> int)
    requires UniqueIds(items) && i < |items|
    ensures var r := Updated(items, items[i].product.id, quantity);
      SumOf(r, f) == SumOf(items, f) - f(items[i])
                     + (if quantity > 0 then f(CartItem(items[i].product, quantity)) else 0)
  {
    IndexOfUnique(items, i);
    if quantity > 0 {
      SumUpdate(items, i, CartItem(items[i].product, quantity), f);
    } else {
      SumWithout(items, i, f);
    }
  }

  // ---------------------------------------------------------------------------
  // Sessions: any sequence of operations

  datatype Op =
    | AddOp(product: Product, quantity: int)
    | UpdateOp(productId: int, quantity: int)
    | RemoveOp(productId: int)

  /** The contents after one operation. */
  function Apply(items: seq<CartItem>, op: Op): seq<CartItem> {
    match op
    case AddOp(p, q) => Added(items, p, q)
    case UpdateOp(id, q) => Updated(items, id, q)
    case RemoveOp(id) => Without(items, id)
  }

  /** The contents after the operations, applied in order. */
  function Run(items: seq<CartItem>, ops: seq<Op>): seq<CartItem>
    decreases ops
  {
    if ops == [] then items else Run(Apply(items, ops[0]), ops[1..])
  }

  /** No sequence of operations ever puts two entries for one product in the cart. */
  lemma {:induction false} RunPreservesUnique(items: seq<CartItem>, ops: seq<Op>)
    requires UniqueIds(items)
    ensures UniqueIds(Run(items, ops))
    decreases ops
  {
    if ops != [] {
      match ops[0] {
        case AddOp(p, q) => AddedPreservesUnique(items, p, q);
        case UpdateOp(id, q) => UpdatedPreservesUnique(items, id, q);
        case RemoveOp(id) => WithoutPreservesUnique(items, id);
      }
      RunPreservesUnique(Apply(items, ops[0]), ops[1..]);
    }
  }

  /** When every add is of a positive quantity, every quantity stays positive. */
  lemma {:induction false} RunPreservesPositive(items: seq<CartItem>, ops: seq<Op>)
    requires AllPositive(items)
    requires forall k :: 0 <= k < |ops| && ops[k].AddOp? ==> ops[k].quantity >= 1
    ensures AllPositive(Run(items, ops))
    decreases ops
  {
    if ops != [] {
      match ops[0] {
        case AddOp(p, q) => AddedPreservesPositive(items, p, q);
        case UpdateOp(id, q) => UpdatedPreservesPositive(items, id, q);
        case RemoveOp(id) => WithoutPreservesPositive(items, id);
      }
      assert forall k :: 0 <= k < |ops| - 1 ==> ops[1..][k] == ops[k + 1];
      RunPreservesPositive(Apply(items, ops[0]), ops[1..]);
    }
  }

  /** The sum of a list of quantities. */
  function IntSum(qs: seq<int>): int {
    if qs == [] then 0 else qs[0] + IntSum(qs[1..])
  }

  /** The contents after adding `product` once per quantity in `qs`, in order. */
  function AddedAll(items: seq<CartItem>, product: Product, qs: seq<int>): seq<CartItem>
    decreases qs
  {
    if qs == [] then items else AddedAll(Added(items, product, qs[0]), product, qs[1..])
  }

  /** Overwriting the first entry for an id with another entry for it keeps it the first. */
  lemma IndexOfReplaced(items: seq<CartItem>, i: nat, x: CartItem)
    requires IndexOf(items, x.product.id) == Some(i)
    ensures IndexOf(items[i := x], x.product.id) == Some(i)
  {
    assert items[i := x][i].product.id == x.product.id;
    assert forall j :: 0 <= j < i ==> items[i := x][j] == items[j];
  }

  /**
   * Repeated adds of a product already in the cart accumulate on its first
   * entry: that entry keeps its stored product and its quantity rises by the
   * sum of the amounts; every other entry is unchanged.
   */
  lemma {:induction false} RepeatedAdds(items: seq<CartItem>, product: Product, i: nat, qs: seq<int>)
    requires IndexOf(items, product.id) == Some(i)
    ensures AddedAll(items, product, qs)
         == items[i := CartItem(items[i].product, items[i].quantity + IntSum(qs))]
    decreases qs
  {
    if qs == [] {
      assert items[i := CartItem(items[i].product, items[i].quantity)] == items;
    } else {
      var next := AddedAllStep(items, product, i, qs);
      var total := CartItem(items[i].product, items[i].quantity + IntSum(qs));
      var rest := CartItem(next[i].product, next[i].quantity + IntSum(qs[1..]));
      assert AddedAll(next, product, qs[1..]) == next[i := rest] by {
        RepeatedAdds(next, product, i, qs[1..]);
      }
      assert rest == total;
      calc {
        AddedAll(items, product, qs);
        AddedAll(next, product, qs[1..]);
        next[i := total];
        { UpdateTwice(items, i, CartItem(items[i].product, items[i].quantity + qs[0]), total); }
        items[i := total];
      }
    }
  }

  /** Overwriting an entry twice keeps only the second value. */
  lemma UpdateTwice(items: seq<CartItem>, i: nat, a: CartItem, b: CartItem)
    requires i < |items|
    ensures items[i := a][i := b] == items[i := b]
  {
  }

  /** The first of several adds to the first entry for the product, as `RepeatedAdds` takes them. */
  lemma AddedAllStep(items: seq<CartItem>, product: Product, i: nat, qs: seq<int>) returns (next: seq<CartItem>)
    requires IndexOf(items, product.id) == Some(i) && qs != []
    ensures next == items[i := CartItem(items[i].product, items[i].quantity + qs[0])]
    ensures AddedAll(items, product, qs) == AddedAll(next, product, qs[1..])
    ensures IndexOf(next, product.id) == Some(i)
  {
    next := items[i := CartItem(items[i].product, items[i].quantity + qs[0])];
    assert Added(items, product, qs[0]) == next;
    IndexOfReplaced(items, i, next[i]);
  }

  /**
   * Repeated adds of a product not yet in the cart append one entry for it,
   * whose quantity is the sum of the amounts, after the untouched old entries.
   */
  lemma RepeatedAddsToNew(items: seq<CartItem>, product: Product, qs: seq<int>)
    requires !HasEntry(items, product.id) && qs != []
    ensures AddedAll(items, product, qs) == items + [CartItem(product, IntSum(qs))]
  {
    var next := items + [CartItem(product, qs[0])];
    assert AddedAll(items, product, qs) == AddedAll(next, product, qs[1..]) by {
      assert Added(items, product, qs[0]) == next;
    }
    assert IndexOf(next, product.id) == Some(|items|) by {
      assert next[|items|].product.id == product.id;
      assert forall j :: 0 <= j < |items| ==> next[j] == items[j];
    }
    RepeatedAdds(next, product, |items|, qs[1..]);
    var total := CartItem(product, IntSum(qs));
    assert CartItem(next[|items|].product, next[|items|].quantity + IntSum(qs[1..])) == total;
    assert next[|items| := total] == items + [total];
  }

  /** Starting from an empty cart, repeated adds of one product leave one entry whose quantity is their sum. */
  lemma RepeatedAddsFromEmpty(product: Product, qs: seq<int>)
    requires qs != []
    ensures AddedAll([], product, qs) == [CartItem(product, IntSum(qs))]
  {
    RepeatedAddsToNew([], product, qs);
  }

  // ---------------------------------------------------------------------------
  // Catalog agreement: prices charged are catalog prices

  /** No two catalog products share an id. */
  predicate UniqueCatalog(catalog: seq<Product>) {
    forall i, j :: 0 <= i < j < |catalog| ==> catalog[i].id != catalog[j].id
  }

  /** Every entry of the cart holds the catalog's own product for its id. */
  predicate AgreesWithCatalog(items: seq<CartItem>, catalog: seq<Product>) {
    forall k :: 0 <= k < |catalog| ==> AgreesWith(items, catalog[k])
  }

  /** Adding a product that agrees with `c` keeps the cart agreeing with `c`. */
  lemma AddedPreservesAgreement(items: seq<CartItem>, product: Product, quantity: int, c: Product)
    requires AgreesWith(items, c) && (product.id == c.id ==> product == c)
    ensures AgreesWith(Added(items, product, quantity), c)
  {
  }

  /** Removal keeps the cart agreeing with `c`. */
  lemma WithoutPreservesAgreement(items: seq<CartItem>, id: int, c: Product)
    requires AgreesWith(items, c)
    ensures AgreesWith(Without(items, id), c)
  {
  }

  /** Updating keeps the cart agreeing with `c`. */
  lemma UpdatedPreservesAgreement(items: seq<CartItem>, id: int, quantity: int, c: Product)
    requires AgreesWith(items, c)
    ensures AgreesWith(Updated(items, id, quantity), c)
  {
    if quantity <= 0 {
      WithoutPreservesAgreement(items, id, c);
    }
  }

  /**
   * When every product added comes from a catalog with unique ids and the
   * cart starts out agreeing with the catalog, it agrees after any sequence
   * of operations, so every later add is charged at the catalog price
   * (`UnitPrice`, `AddedTotals`).
   */
  lemma {:induction false} RunPreservesAgreement(items: seq<CartItem>, ops: seq<Op>, catalog: seq<Product>)
    requires UniqueCatalog(catalog) && AgreesWithCatalog(items, catalog)
    requires forall k :: 0 <= k < |ops| && ops[k].AddOp? ==> ops[k].product in catalog
    ensures AgreesWithCatalog(Run(items, ops), catalog)
    decreases ops
  {
    if ops != [] {
      var next := Apply(items, ops[0]);
      forall k | 0 <= k < |catalog| ensures AgreesWith(next, catalog[k]) {
        match ops[0] {
          case AddOp(p, q) =>
            var m :| 0 <= m < |catalog| && catalog[m] == p;
            assert p.id == catalog[k].id ==> m == k;
            AddedPreservesAgreement(items, p, q, catalog[k]);
          case UpdateOp(id, q) => UpdatedPreservesAgreement(items, id, q, catalog[k]);
          case RemoveOp(id) => WithoutPreservesAgreement(items, id, catalog[k]);
        }
      }
      assert forall k :: 0 <= k < |ops| - 1 ==> ops[1..][k] == ops[k + 1];
      RunPreservesAgreement(next, ops[1..], catalog);
    }
  }

  /** From an empty cart, a session of catalog products is always charged at catalog prices. */
  lemma SessionChargesCatalogPrices(ops: seq<Op>, catalog: seq<Product>, k: nat)
    requires UniqueCatalog(catalog) && k < |catalog|
    requires forall j :: 0 <= j < |ops| && ops[j].AddOp? ==> ops[j].product in catalog
    ensures UnitPrice(Run([], ops), catalog[k]) == catalog[k].price
  {
    RunPreservesAgreement([], ops, catalog);
  }
}
