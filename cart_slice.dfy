/**
  The cart slice of the storefront: an ordered list of line items, the five
  reducers that change it and the selectors that read it.

  Prices are whole cents, so `unitPrice * quantity` is exact. The state is a
  sequence of value records; the reducers that change one record in place
  (`item.quantity++`) replace the record at its index.
 */
module CartSlice {

  datatype Option<T> = None | Some(value: T)

  /** One line of the cart (`CartType`). */
  datatype LineItem = LineItem(pizzaId: int, name: string, quantity: int, unitPrice: int, totalPrice: int)

  function Quantity(item: LineItem): int { item.quantity }

  function LinePrice(item: LineItem): int { item.totalPrice }

  /** The line price the quantity reducers keep in step with the quantity. */
  predicate PricedAt(item: LineItem) {
    item.totalPrice == item.unitPrice * item.quantity
  }

  predicate PricesConsistent(cart: seq<LineItem>) {
    forall i :: 0 <= i < |cart| ==> PricedAt(cart[i])
  }

  predicate QuantitiesPositive(cart: seq<LineItem>) {
    forall i :: 0 <= i < |cart| ==> cart[i].quantity >= 1
  }

  predicate Contains(cart: seq<LineItem>, id: int) {
    exists item :: item in cart && item.pizzaId == id
  }

  predicate UniqueIds(cart: seq<LineItem>) {
    forall i, j :: 0 <= i < j < |cart| ==> cart[i].pizzaId != cart[j].pizzaId
  }

  /** `cart.find(item => item.pizzaId === id)`, as the index of the first match. */
  function FindIndex(cart: seq<LineItem>, id: int): (r: Option<nat>)
    ensures r.Some? <==> Contains(cart, id)
    ensures r.Some? ==> r.value < |cart| && cart[r.value].pizzaId == id
    ensures r.Some? ==> forall j :: 0 <= j < r.value ==> cart[j].pizzaId != id
  {
    if cart == [] then None
    else if cart[0].pizzaId == id then Some(0)
    else
      assert forall item :: item in cart <==> item == cart[0] || item in cart[1..];
      match FindIndex(cart[1..], id)
      case None => None
      case Some(j) => Some(j + 1)
  }

  /** `cart.filter(item => item.pizzaId !== id)`. */
  function Without(cart: seq<LineItem>, id: int): (r: seq<LineItem>)
    ensures |r| <= |cart|
  {
    if cart == [] then []
    else
      if cart[0].pizzaId == id then Without(cart[1..], id)
      else [cart[0]] + Without(cart[1..], id)
  }

  /** `item.quantity = quantity; item.totalPrice = item.unitPrice * item.quantity`. */
  function Recalculated(item: LineItem, quantity: int): LineItem {
    item.(quantity := quantity, totalPrice := item.unitPrice * quantity)
  }

  /** The cart after `increaseItemQuantity(id)`. */
  function Increased(cart: seq<LineItem>, id: int): seq<LineItem>
    requires Contains(cart, id)
  {
    IncrementAt(cart, FindIndex(cart, id).value)
  }

  function IncrementAt(cart: seq<LineItem>, i: nat): seq<LineItem>
    requires i < |cart|
  {
    cart[i := Recalculated(cart[i], cart[i].quantity + 1)]
  }

  /** The cart after `decreaseItemQuantity(id)`: the first match is decremented
      and, when it reaches zero, every entry with that id is filtered out. */
  function Decreased(cart: seq<LineItem>, id: int): seq<LineItem>
    requires Contains(cart, id)
  {
    var i := FindIndex(cart, id).value;
    var item := Recalculated(cart[i], cart[i].quantity - 1);
    var updated := cart[i := item];
    if item.quantity == 0 then Without(updated, id) else updated
  }

  // ---------------------------------------------------------------- selectors

  /** `cart.reduce((sum, item) => sum + field(item), acc)`. */
  function SumBy(cart: seq<LineItem>, field: LineItem -> int, acc: int): int {
    if cart == [] then acc else SumBy(cart[1..], field, acc + field(cart[0]))
  }

  /** With every quantity positive, the total is at least the number of lines. */
  function GetTotalCartQuantity(cart: seq<LineItem>): (r: int)
    ensures QuantitiesPositive(cart) ==> r >= |cart|
  {
    SumByAtLeastLength(cart, Quantity);
    SumBy(cart, Quantity, 0)
  }

  /** With no negative line price, the total price is not negative. */
  function GetTotalCartPrice(cart: seq<LineItem>): (r: int)
    ensures (forall i :: 0 <= i < |cart| ==> cart[i].totalPrice >= 0) ==> r >= 0
  {
    SumByNonNegative(cart, LinePrice);
    SumBy(cart, LinePrice, 0)
  }

  /** `cart.find(item => item.pizzaId === id)?.quantity ?? 0`. */
  function GetCurrentQuantityById(cart: seq<LineItem>, id: int): (r: int)
    ensures !Contains(cart, id) ==> r == 0
    ensures Contains(cart, id) ==>
      exists i :: 0 <= i < |cart| && cart[i].pizzaId == id && r == cart[i].quantity &&
        forall j :: 0 <= j < i ==> cart[j].pizzaId != id
  {
    match FindIndex(cart, id)
    case Some(i) => cart[i].quantity
    case None => 0
  }

  // ------------------------------------------------------------------- state

  /** The slice state `{ cart: CartType[] }` and its reducers. */
  class CartStore {
    var cart: seq<LineItem>

    /** `initialState`. */
    constructor ()
      ensures cart == []
    {
      cart := [];
    }

    /** `getCart`: the cart array itself. */
    function GetCart(): seq<LineItem>
      reads this
    {
      cart
    }

    /** `state.cart.push(action.payload)`: no check for an existing id. */
    method AddItem(item: LineItem)
      modifies this
      ensures cart == old(cart) + [item]
      ensures old(PricesConsistent(cart)) && PricedAt(item) ==> PricesConsistent(cart)
      ensures old(QuantitiesPositive(cart)) && item.quantity >= 1 ==> QuantitiesPositive(cart)
    {
      cart := cart + [item];
    }

    /** `state.cart = state.cart.filter(item => item.pizzaId !== id)`. */
    method DeleteItem(id: int)
      modifies this
      ensures cart == Without(old(cart), id)
      ensures old(PricesConsistent(cart)) ==> PricesConsistent(cart)
      ensures old(QuantitiesPositive(cart)) ==> QuantitiesPositive(cart)
      ensures !Contains(cart, id)
    {
      ghost var before := cart;
      cart := Without(cart, id);
      DeletePreserves(before, id);
      WithoutMembers(before, id);
    }

    /** Finds the first entry with `id`, increments it and reprices it. The
        source dereferences `find(...)!`, so the entry must exist. */
    method IncreaseItemQuantity(id: int)
      requires Contains(cart, id)
      modifies this
      ensures cart == Increased(old(cart), id)
      ensures |cart| == |old(cart)|
      ensures GetTotalCartQuantity(cart) == GetTotalCartQuantity(old(cart)) + 1
      ensures old(PricesConsistent(cart)) ==> PricesConsistent(cart)
      ensures old(QuantitiesPositive(cart)) ==> QuantitiesPositive(cart)
    {
      ghost var before := cart;
      var i := FindIndex(cart, id).value;
      var item := cart[i];
      item := item.(quantity := item.quantity + 1);
      item := item.(totalPrice := item.unitPrice * item.quantity);
      cart := cart[i := item];
      IncreaseRaisesTotalQuantity(before, id);
      IncreasePreserves(before, id);
    }

    /** Finds the first entry with `id`, decrements it and reprices it; when
        its quantity reaches 0 it runs the `deleteItem` reducer for `id`. */
    method DecreaseItemQuantity(id: int)
      requires Contains(cart, id)
      modifies this
      ensures cart == Decreased(old(cart), id)
      ensures old(PricesConsistent(cart)) ==> PricesConsistent(cart)
      ensures old(QuantitiesPositive(cart)) ==> QuantitiesPositive(cart)
      ensures old(UniqueIds(cart)) ==> GetTotalCartQuantity(cart) == GetTotalCartQuantity(old(cart)) - 1
    {
      ghost var before := cart;
      var i := FindIndex(cart, id).value;
      var item := cart[i];
      item := item.(quantity := item.quantity - 1);
      item := item.(totalPrice := item.unitPrice * item.quantity);
      cart := cart[i := item];
      if item.quantity == 0 {
        DeleteItem(id);
      }
      DecreasePreserves(before, id);
      if UniqueIds(before) {
        DecreaseLowersTotalQuantity(before, id);
      }
    }

    /** `state.cart = []`. */
    method ClearCart()
      modifies this
      ensures cart == []
      ensures GetTotalCartQuantity(cart) == 0 && GetTotalCartPrice(cart) == 0
    {
      cart := [];
    }
  }

  // ------------------------------------------------------------------ lemmas

  /** The filter keeps exactly the entries whose id differs from `id`. */
  lemma {:induction false} WithoutMembers(cart: seq<LineItem>, id: int)
    ensures forall item :: item in Without(cart, id) <==> item in cart && item.pizzaId != id
  {
    if cart != [] {
      assert forall item :: item in cart <==> item == cart[0] || item in cart[1..];
      WithoutMembers(cart[1..], id);
    }
  }

  /** Filtering distributes over concatenation, so it keeps the original order. */
  lemma {:induction false} WithoutConcat(a: seq<LineItem>, b: seq<LineItem>, id: int)
    ensures Without(a + b, id) == Without(a, id) + Without(b, id)
  {
    if a == [] {
      assert a + b == b;
    } else {
      assert (a + b)[1..] == a[1..] + b;
      WithoutConcat(a[1..], b, id);
    }
  }

  /** Deleting an id that is not in the cart changes nothing. */
  lemma {:induction false} WithoutAbsent(cart: seq<LineItem>, id: int)
    requires !Contains(cart, id)
    ensures Without(cart, id) == cart
  {
    if cart != [] {
      assert cart[0] in cart;
      assert forall item :: item in cart[1..] ==> item in cart;
      WithoutAbsent(cart[1..], id);
    }
  }

  /** Replacing an entry that has `id` by another that has `id` does not
      change what the filter keeps. */
  lemma {:induction false} WithoutIgnoresTarget(cart: seq<LineItem>, i: nat, item: LineItem, id: int)
    requires i < |cart| && cart[i].pizzaId == id && item.pizzaId == id
    ensures Without(cart[i := item], id) == Without(cart, id)
  {
    if i > 0 {
      assert cart[i := item][1..] == cart[1..][i - 1 := item];
      WithoutIgnoresTarget(cart[1..], i - 1, item, id);
    } else {
      assert cart[i := item][1..] == cart[1..];
    }
  }

  lemma AbsentByIndex(cart: seq<LineItem>, id: int)
    requires forall k :: 0 <= k < |cart| ==> cart[k].pizzaId != id
    ensures !Contains(cart, id)
  {
    forall item | item in cart ensures item.pizzaId != id {
      var k :| 0 <= k < |cart| && cart[k] == item;
    }
  }

  /** With unique ids, filtering out the id at index `i` removes exactly that entry. */
  lemma {:induction false} WithoutUnique(cart: seq<LineItem>, i: nat, id: int)
    requires UniqueIds(cart) && i < |cart| && cart[i].pizzaId == id
    ensures Without(cart, id) == cart[..i] + cart[i + 1..]
  {
    var rest := cart[1..];
    if i == 0 {
      forall k | 0 <= k < |rest| ensures rest[k].pizzaId != id {
        assert rest[k] == cart[k + 1];
      }
      AbsentByIndex(rest, id);
      WithoutAbsent(rest, id);
    } else {
      assert UniqueIds(rest) by {
        forall a, b | 0 <= a < b < |rest| ensures rest[a].pizzaId != rest[b].pizzaId {
          assert rest[a] == cart[a + 1] && rest[b] == cart[b + 1];
        }
      }
      WithoutUnique(rest, i - 1, id);
      assert cart[0].pizzaId != id;
      assert cart[..i] == [cart[0]] + rest[..i - 1];
      assert cart[i + 1..] == rest[i..];
    }
  }

  /** Replacing an entry by one with the same id keeps the ids unique. */
  lemma UpdatePreservesUnique(cart: seq<LineItem>, i: nat, item: LineItem)
    requires UniqueIds(cart) && i < |cart| && item.pizzaId == cart[i].pizzaId
    ensures UniqueIds(cart[i := item])
  {
    var r := cart[i := item];
    forall a, b | 0 <= a < b < |r| ensures r[a].pizzaId != r[b].pizzaId {
      assert r[a].pizzaId == cart[a].pizzaId && r[b].pizzaId == cart[b].pizzaId;
    }
  }

  /** `addItem` followed by `deleteItem` of a previously absent id restores the cart. */
  lemma AddThenDeleteRestores(cart: seq<LineItem>, item: LineItem)
    requires !Contains(cart, item.pizzaId)
    ensures Without(cart + [item], item.pizzaId) == cart
  {
    WithoutConcat(cart, [item], item.pizzaId);
    WithoutAbsent(cart, item.pizzaId);
  }

  /** `deleteItem` keeps both cart invariants. */
  lemma DeletePreserves(cart: seq<LineItem>, id: int)
    ensures PricesConsistent(cart) ==> PricesConsistent(Without(cart, id))
    ensures QuantitiesPositive(cart) ==> QuantitiesPositive(Without(cart, id))
  {
    var r := Without(cart, id);
    WithoutMembers(cart, id);
    forall k | 0 <= k < |r| ensures exists j :: 0 <= j < |cart| && cart[j] == r[k] {
      assert r[k] in r;
    }
  }

  /** `increaseItemQuantity`: the first match goes up by one and is repriced;
      the length and every other entry stay as they were. */
  lemma IncreaseShape(cart: seq<LineItem>, id: int)
    requires Contains(cart, id)
    ensures var i := FindIndex(cart, id).value; var r := Increased(cart, id);
      && |r| == |cart|
      && r[i].pizzaId == id && r[i].name == cart[i].name && r[i].unitPrice == cart[i].unitPrice
      && r[i].quantity == cart[i].quantity + 1
      && PricedAt(r[i])
      && forall j :: 0 <= j < |cart| && j != i ==> r[j] == cart[j]
  {
  }

  lemma IncreasePreserves(cart: seq<LineItem>, id: int)
    requires Contains(cart, id)
    ensures PricesConsistent(cart) ==> PricesConsistent(Increased(cart, id))
    ensures QuantitiesPositive(cart) ==> QuantitiesPositive(Increased(cart, id))
  {
  }

  /** `decreaseItemQuantity`: at quantity 1 every entry with the id is removed;
      otherwise the first match goes down by one and is repriced, and the
      length and every other entry stay as they were. */
  lemma DecreaseShape(cart: seq<LineItem>, id: int)
    requires Contains(cart, id)
    ensures var i := FindIndex(cart, id).value; var r := Decreased(cart, id);
      && (cart[i].quantity == 1 ==> r == Without(cart, id))
      && (cart[i].quantity != 1 ==>
            && |r| == |cart|
            && r[i].pizzaId == id && r[i].name == cart[i].name && r[i].unitPrice == cart[i].unitPrice
            && r[i].quantity == cart[i].quantity - 1
            && PricedAt(r[i])
            && forall j :: 0 <= j < |cart| && j != i ==> r[j] == cart[j])
  {
    var i := FindIndex(cart, id).value;
    WithoutIgnoresTarget(cart, i, Recalculated(cart[i], cart[i].quantity - 1), id);
  }

  lemma DecreasePreserves(cart: seq<LineItem>, id: int)
    requires Contains(cart, id)
    ensures PricesConsistent(cart) ==> PricesConsistent(Decreased(cart, id))
    ensures QuantitiesPositive(cart) ==> QuantitiesPositive(Decreased(cart, id))
  {
    DecreaseShape(cart, id);
    DeletePreserves(cart, id);
  }

  /** The accumulator of `reduce` only shifts the sum. */
  lemma {:induction false} SumByShift(cart: seq<LineItem>, field: LineItem -> int, acc: int)
    ensures SumBy(cart, field, acc) == acc + SumBy(cart, field, 0)
  {
    if cart != [] {
      SumByShift(cart[1..], field, acc + field(cart[0]));
      SumByShift(cart[1..], field, field(cart[0]));
    }
  }

  lemma {:induction false} SumByAtLeastLength(cart: seq<LineItem>, field: LineItem -> int)
    ensures (forall i :: 0 <= i < |cart| ==> field(cart[i]) >= 1) ==> SumBy(cart, field, 0) >= |cart|
  {
    if cart != [] && forall i :: 0 <= i < |cart| ==> field(cart[i]) >= 1 {
      assert field(cart[0]) >= 1;
      assert forall i :: 0 <= i < |cart[1..]| ==> cart[1..][i] == cart[i + 1];
      SumByAtLeastLength(cart[1..], field);
      SumByShift(cart[1..], field, field(cart[0]));
    }
  }

  lemma {:induction false} SumByNonNegative(cart: seq<LineItem>, field: LineItem -> int)
    ensures (forall i :: 0 <= i < |cart| ==> field(cart[i]) >= 0) ==> SumBy(cart, field, 0) >= 0
  {
    if cart != [] && forall i :: 0 <= i < |cart| ==> field(cart[i]) >= 0 {
      assert field(cart[0]) >= 0;
      assert forall i :: 0 <= i < |cart[1..]| ==> cart[1..][i] == cart[i + 1];
      SumByNonNegative(cart[1..], field);
      SumByShift(cart[1..], field, field(cart[0]));
    }
  }

  lemma {:induction false} SumByConcat(a: seq<LineItem>, b: seq<LineItem>, field: LineItem -> int)
    ensures SumBy(a + b, field, 0) == SumBy(a, field, 0) + SumBy(b, field, 0)
  {
    if a == [] {
      assert a + b == b;
    } else {
      assert (a + b)[1..] == a[1..] + b;
      SumByShift(a[1..] + b, field, field(a[0]));
      SumByShift(a[1..], field, field(a[0]));
      SumByConcat(a[1..], b, field);
    }
  }

  /** Replacing one entry changes a sum by the difference of that entry's field. */
  lemma SumByUpdate(cart: seq<LineItem>, i: nat, item: LineItem, field: LineItem -> int)
    requires i < |cart|
    ensures SumBy(cart[i := item], field, 0) == SumBy(cart, field, 0) - field(cart[i]) + field(item)
  {
    assert cart == cart[..i] + [cart[i]] + cart[i + 1..];
    assert cart[i := item] == cart[..i] + [item] + cart[i + 1..];
    SumByConcat(cart[..i] + [cart[i]], cart[i + 1..], field);
    SumByConcat(cart[..i], [cart[i]], field);
    SumByConcat(cart[..i] + [item], cart[i + 1..], field);
    SumByConcat(cart[..i], [item], field);
  }

  /** Removing the entry at `i` lowers a sum by that entry's field. */
  lemma SumByRemove(cart: seq<LineItem>, i: nat, field: LineItem -> int)
    requires i < |cart|
    ensures SumBy(cart[..i] + cart[i + 1..], field, 0) == SumBy(cart, field, 0) - field(cart[i])
  {
    assert cart == cart[..i] + [cart[i]] + cart[i + 1..];
    SumByConcat(cart[..i] + [cart[i]], cart[i + 1..], field);
    SumByConcat(cart[..i], [cart[i]], field);
    SumByConcat(cart[..i], cart[i + 1..], field);
  }

  lemma MulSucc(a: int, q: int)
    ensures a * (q + 1) == a * q + a
  {
  }

  /** `getTotalCartQuantity` after `increaseItemQuantity` is exactly one more. */
  lemma IncreaseRaisesTotalQuantity(cart: seq<LineItem>, id: int)
    requires Contains(cart, id)
    ensures GetTotalCartQuantity(Increased(cart, id)) == GetTotalCartQuantity(cart) + 1
  {
    var i := FindIndex(cart, id).value;
    SumByUpdate(cart, i, Recalculated(cart[i], cart[i].quantity + 1), Quantity);
  }

  /** When the entry it increments is correctly priced (as on any cart the
      reducers keep consistent), `getTotalCartPrice` after
      `increaseItemQuantity` grows by that entry's unit price. */
  lemma IncreaseRaisesTotalPrice(cart: seq<LineItem>, id: int)
    requires Contains(cart, id) && PricedAt(cart[FindIndex(cart, id).value])
    ensures GetTotalCartPrice(Increased(cart, id)) ==
      GetTotalCartPrice(cart) + cart[FindIndex(cart, id).value].unitPrice
  {
    RepriceRaisesTotal(cart, FindIndex(cart, id).value);
  }

  lemma RepriceRaisesTotal(cart: seq<LineItem>, i: nat)
    requires i < |cart| && PricedAt(cart[i])
    ensures GetTotalCartPrice(IncrementAt(cart, i)) ==
      GetTotalCartPrice(cart) + cart[i].unitPrice
  {
    var item := cart[i];
    SumByUpdate(cart, i, Recalculated(item, item.quantity + 1), LinePrice);
    MulSucc(item.unitPrice, item.quantity);
  }

  /** `getTotalCartQuantity` after `decreaseItemQuantity` is exactly one less,
      provided the auto-removal takes only the decremented entry: either its
      quantity stays above zero or no other entry shares its id. */
  lemma DecreaseLowersTotalQuantity(cart: seq<LineItem>, id: int)
    requires Contains(cart, id)
    requires UniqueIds(cart) || GetCurrentQuantityById(cart, id) != 1
    ensures GetTotalCartQuantity(Decreased(cart, id)) == GetTotalCartQuantity(cart) - 1
  {
    var i := FindIndex(cart, id).value;
    var item := Recalculated(cart[i], cart[i].quantity - 1);
    var updated := cart[i := item];
    SumByUpdate(cart, i, item, Quantity);
    if item.quantity == 0 {
      UpdatePreservesUnique(cart, i, item);
      WithoutUnique(updated, i, id);
      SumByRemove(updated, i, Quantity);
    }
  }

  /** When a duplicate id is present, the auto-removal takes more than the
      decremented entry: the total quantity falls by more than one. */
  lemma DecreaseWithDuplicateDropsMore()
    ensures var cart := [LineItem(1, "Margherita", 1, 1299, 1299), LineItem(1, "Margherita", 2, 1299, 2598)];
      GetTotalCartQuantity(Decreased(cart, 1)) == GetTotalCartQuantity(cart) - 3
  {
    var cart := [LineItem(1, "Margherita", 1, 1299, 1299), LineItem(1, "Margherita", 2, 1299, 2598)];
    var updated := cart[0 := Recalculated(cart[0], 0)];
    assert Without(updated, 1) == [];
  }

  /** `getCurrentQuantityById` after `addItem` of an absent id is the payload's quantity. */
  lemma QuantityByIdAfterAdd(cart: seq<LineItem>, item: LineItem)
    requires !Contains(cart, item.pizzaId)
    ensures GetCurrentQuantityById(cart + [item], item.pizzaId) == item.quantity
  {
    var s := cart + [item];
    assert s[|cart|] == item;
  }

  /** `getCurrentQuantityById` after `deleteItem` is 0. */
  lemma QuantityByIdAfterDelete(cart: seq<LineItem>, id: int)
    ensures GetCurrentQuantityById(Without(cart, id), id) == 0
  {
    WithoutMembers(cart, id);
  }

  /** `getCurrentQuantityById` after `increaseItemQuantity` is one more. */
  lemma QuantityByIdAfterIncrease(cart: seq<LineItem>, id: int)
    requires Contains(cart, id)
    ensures GetCurrentQuantityById(Increased(cart, id), id) == GetCurrentQuantityById(cart, id) + 1
  {
    var i := FindIndex(cart, id).value;
    var r := Increased(cart, id);
    assert r[i].pizzaId == id;
    assert forall j :: 0 <= j < i ==> r[j] == cart[j];
    FirstIndexIs(r, id, i);
  }

  /** `getCurrentQuantityById` after `decreaseItemQuantity` is one less, unless
      the entry was removed, in which case it is 0. */
  lemma QuantityByIdAfterDecrease(cart: seq<LineItem>, id: int)
    requires Contains(cart, id)
    ensures GetCurrentQuantityById(Decreased(cart, id), id) == GetCurrentQuantityById(cart, id) - 1
  {
    DecreaseShape(cart, id);
    var i := FindIndex(cart, id).value;
    var r := Decreased(cart, id);
    if cart[i].quantity != 1 {
      assert r[i].pizzaId == id;
      assert forall j :: 0 <= j < i ==> r[j] == cart[j];
      FirstIndexIs(r, id, i);
    } else {
      QuantityByIdAfterDelete(cart, id);
    }
  }

  /** The first index whose entry has `id` is what `FindIndex` returns. */
  lemma FirstIndexIs(cart: seq<LineItem>, id: int, i: nat)
    requires i < |cart| && cart[i].pizzaId == id
    requires forall j :: 0 <= j < i ==> cart[j].pizzaId != id
    ensures FindIndex(cart, id) == Some(i)
  {
    assert cart[i] in cart;
  }

  /** The two-pizza cart of the storefront's reducer tests, in cents. */
  lemma ExampleCart()
    ensures var cart := [LineItem(1, "Margherita", 2, 1299, 2598), LineItem(2, "Pepperoni", 1, 1499, 1499)];
      && GetTotalCartQuantity(cart) == 3
      && GetTotalCartPrice(cart) == 4097
      && Increased(cart, 1)[0].quantity == 3
      && Increased(cart, 1)[0].totalPrice == 3897
      && GetTotalCartPrice(Increased(cart, 1)) == 5396
      && Decreased(cart, 1)[0].totalPrice == 1299
      && Without(cart, 1) == [cart[1]]
  {
    var cart := [LineItem(1, "Margherita", 2, 1299, 2598), LineItem(2, "Pepperoni", 1, 1499, 1499)];
    assert cart[1..][1..] == [];
    assert Increased(cart, 1)[1..][1..] == [];
  }
}
