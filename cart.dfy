/** The purchase list as a value: its total, removal by position and the quantity
    update, each with the facts the page relies on. */
module CartLines {
  import opened PosTypes

  /** The cart invariant: every line has quantity at least 1. */
  predicate QuantitiesPositive(cart: seq<CartItem>)
  {
    forall i :: 0 <= i < |cart| ==> cart[i].quantity >= 1
  }

  /** Every line's unit price is non-negative. */
  predicate PricesNonNegative(cart: seq<CartItem>)
  {
    forall i :: 0 <= i < |cart| ==> cart[i].product.price >= 0
  }

  /** The amount one line contributes: unit price times quantity. */
  function Subtotal(line: CartItem): int
  {
    line.product.price * line.quantity
  }

  /** The running total, accumulated from the first line to the last as `reduce` does. */
  function Total(cart: seq<CartItem>): (t: int)
    ensures cart == [] ==> t == 0
    ensures |cart| == 1 ==> t == Subtotal(cart[0])
  {
    if cart == [] then 0 else Total(cart[..|cart| - 1]) + Subtotal(cart[|cart| - 1])
  }

  /** The total is additive over concatenation, so it is the sum of the line subtotals. */
  lemma {:induction false} TotalConcat(a: seq<CartItem>, b: seq<CartItem>)
    ensures Total(a + b) == Total(a) + Total(b)
  {
    if b != [] {
      var front := b[..|b| - 1];
      assert (a + b)[..|a + b| - 1] == a + front;
      assert (a + b)[|a + b| - 1] == b[|b| - 1];
      TotalConcat(a, front);
    } else {
      assert a + b == a;
    }
  }

  /** The total seen from the front: the first line's subtotal plus the total of the rest. */
  lemma TotalFirstLine(cart: seq<CartItem>)
    requires cart != []
    ensures Total(cart) == Subtotal(cart[0]) + Total(cart[1..])
  {
    assert cart == [cart[0]] + cart[1..];
    TotalConcat([cart[0]], cart[1..]);
    assert [cart[0]][..0] == [];
  }

  /** With quantities at least 1 and non-negative prices the total is never negative,
      and it is at least any single line's subtotal. */
  lemma {:induction false} TotalNonNegative(cart: seq<CartItem>)
    ensures QuantitiesPositive(cart) && PricesNonNegative(cart) ==>
      && Total(cart) >= 0
      && forall i :: 0 <= i < |cart| ==> Total(cart) >= Subtotal(cart[i])
  {
    if cart != [] && QuantitiesPositive(cart) && PricesNonNegative(cart) {
      var front := cart[..|cart| - 1];
      var last := cart[|cart| - 1];
      assert QuantitiesPositive(front) && PricesNonNegative(front);
      TotalNonNegative(front);
      assert Subtotal(last) >= 0 by {
        assert last.product.price >= 0 && last.quantity >= 1;
      }
      forall i | 0 <= i < |cart| ensures Total(cart) >= Subtotal(cart[i]) {
        if i < |cart| - 1 {
          assert cart[i] == front[i];
        }
      }
    }
  }

  /** `cart.filter((_, i) => i !== index)` over the lines from position `offset` on. */
  function FilterOutPosition(cart: seq<CartItem>, index: int, offset: int): (r: seq<CartItem>)
    ensures |r| == if offset <= index < offset + |cart| then |cart| - 1 else |cart|
    ensures forall x :: x in r ==> x in cart
  {
    if cart == [] then []
    else (if offset == index then [] else [cart[0]]) + FilterOutPosition(cart[1..], index, offset + 1)
  }

  /** handleRemoveItem: keep every line whose position differs from `index`. */
  function RemoveAt(cart: seq<CartItem>, index: int): (r: seq<CartItem>)
    ensures |r| == if 0 <= index < |cart| then |cart| - 1 else |cart|
    ensures forall x :: x in r ==> x in cart
  {
    FilterOutPosition(cart, index, 0)
  }

  lemma {:induction false} FilterOutPositionSpec(cart: seq<CartItem>, index: int, offset: int)
    ensures offset <= index < offset + |cart| ==>
      FilterOutPosition(cart, index, offset) == cart[..index - offset] + cart[index - offset + 1..]
    ensures !(offset <= index < offset + |cart|) ==> FilterOutPosition(cart, index, offset) == cart
  {
    if cart != [] {
      FilterOutPositionSpec(cart[1..], index, offset + 1);
      if offset == index {
        assert cart[..0] + cart[1..] == cart[1..];
      } else if offset < index < offset + |cart| {
        var k := index - offset;
        assert [cart[0]] + (cart[1..][..k - 1] + cart[1..][k..]) == cart[..k] + cart[k + 1..];
      } else {
        assert [cart[0]] + cart[1..] == cart;
      }
    }
  }

  /** Removal drops exactly the line at `index` and keeps the others in order; an
      index outside the cart matches no line and changes nothing. */
  lemma RemoveAtSpec(cart: seq<CartItem>, index: int)
    ensures 0 <= index < |cart| ==> RemoveAt(cart, index) == cart[..index] + cart[index + 1..]
    ensures 0 <= index < |cart| ==> |RemoveAt(cart, index)| == |cart| - 1
    ensures !(0 <= index < |cart|) ==> RemoveAt(cart, index) == cart
  {
    FilterOutPositionSpec(cart, index, 0);
  }

  /** After a remove the total drops by exactly the removed line's subtotal. */
  lemma TotalAfterRemove(cart: seq<CartItem>, index: int)
    requires 0 <= index < |cart|
    ensures Total(RemoveAt(cart, index)) == Total(cart) - Subtotal(cart[index])
  {
    RemoveAtSpec(cart, index);
    TotalAround(cart, index);
    TotalConcat(cart[..index], cart[index + 1..]);
  }

  /** Removing a line keeps every remaining quantity at least 1. */
  lemma RemoveKeepsQuantitiesPositive(cart: seq<CartItem>, index: int)
    requires QuantitiesPositive(cart)
    ensures QuantitiesPositive(RemoveAt(cart, index))
  {
    RemoveAtSpec(cart, index);
    if 0 <= index < |cart| {
      var r := RemoveAt(cart, index);
      forall i | 0 <= i < |r| ensures r[i].quantity >= 1 {
        if i < index { assert r[i] == cart[i]; } else { assert r[i] == cart[i + 1]; }
      }
    }
  }

  /** handleQuantityChange: a quantity below 1 is rejected silently; an index with no line
      behind it makes the assignment throw before the cart is replaced; otherwise the
      addressed line gets the new quantity. */
  function ChangeQuantity(cart: seq<CartItem>, index: int, newQuantity: int): (r: seq<CartItem>)
    ensures newQuantity < 1 ==> r == cart
    ensures !(0 <= index < |cart|) ==> r == cart
    ensures |r| == |cart|
    ensures forall j :: 0 <= j < |cart| ==> r[j].product == cart[j].product
    ensures forall j :: 0 <= j < |cart| && j != index ==> r[j] == cart[j]
    ensures newQuantity >= 1 && 0 <= index < |cart| ==> r[index].quantity == newQuantity
  {
    if newQuantity < 1 then cart
    else if !(0 <= index < |cart|) then cart
    else cart[index := CartItem(cart[index].product, newQuantity)]
  }

  /** A quantity change never breaks the cart invariant. */
  lemma ChangeKeepsQuantitiesPositive(cart: seq<CartItem>, index: int, newQuantity: int)
    requires QuantitiesPositive(cart)
    ensures QuantitiesPositive(ChangeQuantity(cart, index, newQuantity))
  {
  }

  /** The total of a cart split around one line. */
  lemma TotalAround(cart: seq<CartItem>, index: int)
    requires 0 <= index < |cart|
    ensures Total(cart) == Total(cart[..index]) + Subtotal(cart[index]) + Total(cart[index + 1..])
  {
    var before, after := cart[..index], cart[index + 1..];
    assert cart == before + [cart[index]] + after;
    TotalConcat(before + [cart[index]], after);
    TotalConcat(before, [cart[index]]);
    assert [cart[index]][..0] == [];
  }

  /** Replacing one line changes the total by the difference of the two subtotals. */
  lemma TotalAfterReplace(cart: seq<CartItem>, index: int, line: CartItem)
    requires 0 <= index < |cart|
    ensures Total(cart[index := line]) == Total(cart) - Subtotal(cart[index]) + Subtotal(line)
  {
    var r := cart[index := line];
    assert r[..index] == cart[..index];
    assert r[index + 1..] == cart[index + 1..];
    TotalAround(cart, index);
    TotalAround(r, index);
  }

  /** A valid change moves the total by the line's unit price times the quantity delta. */
  lemma TotalAfterChange(cart: seq<CartItem>, index: int, newQuantity: int)
    requires 0 <= index < |cart| && newQuantity >= 1
    ensures Total(ChangeQuantity(cart, index, newQuantity))
         == Total(cart) + cart[index].product.price * (newQuantity - cart[index].quantity)
  {
    TotalAfterReplace(cart, index, CartItem(cart[index].product, newQuantity));
    var price := cart[index].product.price;
    assert price * newQuantity == price * cart[index].quantity + price * (newQuantity - cart[index].quantity);
  }

  /** A sequence of quantity changes applied one after another. */
  function ChangeQuantities(cart: seq<CartItem>, changes: seq<(int, int)>): seq<CartItem>
    decreases |changes|
  {
    if changes == [] then cart
    else ChangeQuantities(ChangeQuantity(cart, changes[0].0, changes[0].1), changes[1..])
  }

  /** Any number of rejected changes is the same as none at all. */
  lemma {:induction false} RejectedChangesAreNoOps(cart: seq<CartItem>, changes: seq<(int, int)>)
    requires forall k :: 0 <= k < |changes| ==> changes[k].1 < 1
    ensures ChangeQuantities(cart, changes) == cart
  {
    if changes != [] {
      RejectedChangesAreNoOps(cart, changes[1..]);
    }
  }
}
