/** The `Home` page controller: the five pieces of page state and the handlers that
    change them. The two HTTP calls are replaced by their outcomes, passed in. */
module PosHome {
  import opened PosTypes
  import opened CartLines
  import opened Checkout

  const ProductsEndpoint: string := "http://localhost:8000/api/products/"

  class Home {
    var code: string
    var product: Option<Product>
    var error: string
    var cart: seq<CartItem>
    var purchaseMessage: string

    /** The cart invariant the handlers keep. */
    ghost predicate Valid()
      reads this
    {
      QuantitiesPositive(cart)
    }

    /** `totalAmount`, recomputed from the current cart: 0 for an empty cart, and never
        negative while the cart invariant holds and no price is negative. */
    function TotalAmount(): (r: int)
      reads this
      ensures cart == [] ==> r == 0
      ensures QuantitiesPositive(cart) && PricesNonNegative(cart) ==> r >= 0
    {
      TotalNonNegative(cart);
      Total(cart)
    }

    /** The initial state of every `useState` hook. */
    constructor ()
      ensures Valid()
      ensures code == "" && product == None && error == "" && cart == [] && purchaseMessage == ""
    {
      code := "";
      product := None;
      error := "";
      cart := [];
      purchaseMessage := "";
    }

    /** The code input's change handler. */
    method EnterCode(value: string)
      modifies this`code
      ensures code == value
    {
      code := value;
    }

    /** handleReadProduct: clears the error and the shown product, asks for the product
        behind the current code (the URL is returned), then shows the product or reports
        that none was found. The cart is not touched. */
    method ReadProduct(lookup: Option<Product>) returns (url: string)
      requires Valid()
      modifies this`error, this`product
      ensures Valid()
      ensures url == ProductsEndpoint + code
      ensures product == lookup
      ensures error == if lookup.None? then NotFoundMessage else ""
    {
      error := "";
      product := None;
      url := ProductsEndpoint + code;
      match lookup {
        case Some(p) => product := Some(p);
        case None => error := NotFoundMessage;
      }
    }

    /** handleAddToCart: with no product shown nothing happens; otherwise the product is
        appended as a new last line with quantity 1, and the shown product and the code
        input are cleared. */
    method AddToCart()
      requires Valid()
      modifies this`cart, this`product, this`code
      ensures Valid()
      ensures old(product).None? ==> cart == old(cart) && product == None && code == old(code)
      ensures old(product).Some? ==>
        && cart == old(cart) + [CartItem(old(product).value, 1)]
        && product == None && code == ""
      ensures TotalAmount() == old(TotalAmount()) + if old(product).Some? then old(product).value.price else 0
    {
      if product.None? {
        return;
      }
      var newItem := CartItem(product.value, 1);
      TotalConcat(cart, [newItem]);
      cart := cart + [newItem];
      product := None;
      code := "";
    }

    /** handleQuantityChange: a quantity below 1 leaves the cart as it was, and so does an
        index with no line behind it (the assignment throws first); otherwise only that
        line's quantity changes and the total moves accordingly. */
    method ChangeLineQuantity(index: int, newQuantity: int)
      requires Valid()
      modifies this`cart
      ensures Valid()
      ensures cart == ChangeQuantity(old(cart), index, newQuantity)
      ensures newQuantity < 1 ==> cart == old(cart)
      ensures newQuantity >= 1 && 0 <= index < |old(cart)| ==>
        TotalAmount() == old(TotalAmount()) + old(cart)[index].product.price * (newQuantity - old(cart)[index].quantity)
    {
      if newQuantity < 1 {
        return;
      }
      if !(0 <= index < |cart|) {
        return;
      }
      TotalAfterChange(cart, index, newQuantity);
      cart := cart[index := CartItem(cart[index].product, newQuantity)];
    }

    /** handleRemoveItem: drops the line at `index` and keeps the rest in order; the total
        drops by that line's subtotal. An index with no line changes nothing. */
    method RemoveItem(index: int)
      requires Valid()
      modifies this`cart
      ensures Valid()
      ensures cart == RemoveAt(old(cart), index)
      ensures 0 <= index < |old(cart)| ==>
        && cart == old(cart)[..index] + old(cart)[index + 1..]
        && TotalAmount() == old(TotalAmount()) - Subtotal(old(cart)[index])
      ensures !(0 <= index < |old(cart)|) ==> cart == old(cart)
    {
      RemoveAtSpec(cart, index);
      RemoveKeepsQuantitiesPositive(cart, index);
      if 0 <= index < |cart| {
        TotalAfterRemove(cart, index);
      }
      cart := RemoveAt(cart, index);
    }

    /** handlePurchase: an empty cart reports an error and sends nothing. Otherwise the
        error and the confirmation are cleared and the request built from the cart is sent
        (returned here); a successful answer empties the cart and shows the charged
        amount, while a refusal or a failed call keeps the cart and reports an error. */
    method Purchase(outcome: PurchaseOutcome) returns (sent: Option<PurchaseRequest>)
      requires Valid()
      modifies this`cart, this`error, this`purchaseMessage
      ensures Valid()
      ensures old(cart) == [] ==>
        && sent == None && cart == [] && error == EmptyCartMessage
        && purchaseMessage == old(purchaseMessage)
      ensures old(cart) != [] ==> sent == Some(BuildRequest(old(cart)))
      ensures old(cart) != [] && outcome.Responded? && outcome.response.success ==>
        && cart == [] && error == ""
        && purchaseMessage == SuccessMessage(outcome.response.total_amt)
      ensures old(cart) != [] && !(outcome.Responded? && outcome.response.success) ==>
        && cart == old(cart) && error == PurchaseFailedMessage && purchaseMessage == ""
    {
      if |cart| == 0 {
        error := EmptyCartMessage;
        return None;
      }
      error := "";
      purchaseMessage := "";
      var items := ToPurchaseItems(cart);
      var req := PurchaseRequest(EmployeeCode, StoreCode, PosNumber, items);
      sent := Some(req);
      match outcome {
        case Responded(res) =>
          if res.success {
            purchaseMessage := SuccessMessage(res.total_amt);
            cart := [];
          } else {
            error := PurchaseFailedMessage;
          }
        case Threw =>
          error := PurchaseFailedMessage;
      }
    }
  }

  /** A tea line added from a lookup and raised to three units; a rejected change after it,
      and a failed lookup that leaves nothing to add. */
  method TeaScenario()
  {
    var tea := Product(1, "4901", "Tea", 150);
    var page := new Home();
    page.EnterCode("4901");
    var url := page.ReadProduct(Some(tea));
    assert url == "http://localhost:8000/api/products/4901";
    page.AddToCart();
    assert page.cart == [CartItem(tea, 1)] && page.code == "";
    page.ChangeLineQuantity(0, 3);
    assert page.TotalAmount() == 450;
    page.ChangeLineQuantity(0, 0);
    assert page.cart == [CartItem(tea, 3)];
    var _ := page.ReadProduct(None);
    assert page.product == None && page.error == NotFoundMessage;
    page.AddToCart();
    assert page.cart == [CartItem(tea, 3)];
  }

  /** Two lines of 100 x 2 and 250 x 1 total 450. */
  method TwoLineScenario()
  {
    var a := Product(2, "1000", "A", 100);
    var b := Product(3, "2500", "B", 250);
    var page := new Home();
    var _ := page.ReadProduct(Some(a));
    page.AddToCart();
    assert page.cart == [CartItem(a, 1)];
    var _ := page.ReadProduct(Some(b));
    page.AddToCart();
    assert page.cart == [CartItem(a, 1), CartItem(b, 1)];
    page.ChangeLineQuantity(0, 2);
    ghost var c := page.cart;
    assert c == [CartItem(a, 2), CartItem(b, 1)];
    assert Total(c) == 450 by {
      TotalFirstLine(c);
      assert c[1..] == [CartItem(b, 1)];
    }
    assert page.TotalAmount() == 450;
  }

  /** Removing line 0 of a 100 x 2 and 250 x 1 cart leaves the 250 line and a total of 250. */
  method RemoveScenario()
  {
    var a := Product(2, "1000", "A", 100);
    var b := Product(3, "2500", "B", 250);
    var page := new Home();
    var _ := page.ReadProduct(Some(a));
    page.AddToCart();
    assert page.cart == [CartItem(a, 1)];
    var _ := page.ReadProduct(Some(b));
    page.AddToCart();
    assert page.cart == [CartItem(a, 1), CartItem(b, 1)];
    page.ChangeLineQuantity(0, 2);
    assert page.cart == [CartItem(a, 2), CartItem(b, 1)];
    page.RemoveItem(0);
    assert page.cart == [CartItem(b, 1)];
    assert page.TotalAmount() == 250;
  }

  /** A refused purchase keeps both lines; a successful one empties the cart; a purchase
      on the empty cart sends nothing. */
  method PurchaseScenario()
  {
    var a := Product(2, "1000", "A", 100);
    var b := Product(3, "2500", "B", 250);
    var page := new Home();
    var _ := page.ReadProduct(Some(a));
    page.AddToCart();
    assert page.cart == [CartItem(a, 1)];
    var _ := page.ReadProduct(Some(b));
    page.AddToCart();
    ghost var lines := page.cart;
    assert lines == [CartItem(a, 1), CartItem(b, 1)];
    var refused := page.Purchase(Responded(PurchaseResponse(false, 0)));
    assert refused == Some(BuildRequest(lines)) && |refused.value.items| == 2;
    assert page.cart == lines && page.error == PurchaseFailedMessage;
    var done := page.Purchase(Responded(PurchaseResponse(true, 350)));
    assert page.cart == [] && page.purchaseMessage == SuccessMessage(350);
    var again := page.Purchase(Threw);
    assert again == None && page.error == EmptyCartMessage;
  }
}
