/** Turning the cart into a purchase request, and rendering the purchase messages. */
module Checkout {
  import opened PosTypes
  import opened CartLines

  /** The fixed operational context attached to every transaction. */
  const EmployeeCode: string := "A001"
  const StoreCode: string := "00001"
  const PosNumber: string := "001"

  /** One cart line re-keyed into the transaction schema; the quantity is not carried. */
  function ToPurchaseItem(line: CartItem): PurchaseItem
  {
    PurchaseItem(line.product.prd_id, line.product.code, line.product.name, line.product.price)
  }

  /** `cart.map(...)`: one transaction item per line, in cart order, each carrying the
      line's id, code, name and unit price. */
  function ToPurchaseItems(cart: seq<CartItem>): (items: seq<PurchaseItem>)
    ensures |items| == |cart|
    ensures forall i :: 0 <= i < |cart| ==>
      && items[i].prd_id == cart[i].product.prd_id
      && items[i].prd_code == cart[i].product.code
      && items[i].prd_name == cart[i].product.name
      && items[i].prd_price == cart[i].product.price
  {
    if cart == [] then [] else [ToPurchaseItem(cart[0])] + ToPurchaseItems(cart[1..])
  }

  /** The request body sent for a cart. */
  function BuildRequest(cart: seq<CartItem>): (req: PurchaseRequest)
    ensures req.emp_cd == "A001" && req.store_cd == "00001" && req.pos_no == "001"
    ensures req.items == ToPurchaseItems(cart) && |req.items| == |cart|
  {
    PurchaseRequest(EmployeeCode, StoreCode, PosNumber, ToPurchaseItems(cart))
  }

  /** The request mirrors the cart line for line under the fixed context, and is
      determined by the products alone: two carts whose lines hold the same products
      produce the same request whatever their quantities. */
  lemma RequestDependsOnlyOnProducts(c1: seq<CartItem>, c2: seq<CartItem>)
    requires |c1| == |c2|
    requires forall i :: 0 <= i < |c1| ==> c1[i].product == c2[i].product
    ensures BuildRequest(c1).emp_cd == "A001" && BuildRequest(c1).store_cd == "00001" && BuildRequest(c1).pos_no == "001"
    ensures |BuildRequest(c1).items| == |c1|
    ensures BuildRequest(c1) == BuildRequest(c2)
  {
    var a, b := ToPurchaseItems(c1), ToPurchaseItems(c2);
    assert forall i :: 0 <= i < |a| ==> a[i] == b[i];
  }

  /** The quantity is lost on the wire: a cart with three units of a 150 tea totals 450,
      yet sends exactly the request of a single unit, whose total is 150. */
  lemma QuantityNotTransmitted()
    ensures var tea := Product(1, "4901", "Tea", 150);
      && Total([CartItem(tea, 3)]) == 450
      && Total([CartItem(tea, 1)]) == 150
      && BuildRequest([CartItem(tea, 3)]) == BuildRequest([CartItem(tea, 1)])
  {
    var tea := Product(1, "4901", "Tea", 150);
    RequestDependsOnlyOnProducts([CartItem(tea, 3)], [CartItem(tea, 1)]);
  }

  /** Decimal digits of a natural number, most significant first, as a template literal
      renders it. */
  function NatToDecimal(n: nat): (s: string)
    ensures |s| >= 1
    ensures forall i :: 0 <= i < |s| ==> '0' <= s[i] <= '9'
    ensures n > 0 ==> s[0] != '0'
  {
    if n < 10 then [DigitChar(n)] else NatToDecimal(n / 10) + [DigitChar(n % 10)]
  }

  function DigitChar(d: nat): (c: char)
    requires d < 10
    ensures '0' <= c <= '9' && c as int - '0' as int == d
  {
    ('0' as int + d) as char
  }

  /** Every character is a decimal digit. */
  predicate AllDigits(s: string)
  {
    forall i :: 0 <= i < |s| ==> '0' <= s[i] <= '9'
  }

  /** The value a string of decimal digits denotes. */
  function DecimalValue(s: string): int
    requires AllDigits(s)
  {
    if s == [] then 0 else 10 * DecimalValue(s[..|s| - 1]) + (s[|s| - 1] as int - '0' as int)
  }

  /** Reading back the rendered digits gives the number. */
  lemma {:induction false} DecimalRoundTrip(n: nat)
    ensures DecimalValue(NatToDecimal(n)) == n
  {
    if n >= 10 {
      var s := NatToDecimal(n);
      assert s[..|s| - 1] == NatToDecimal(n / 10);
      DecimalRoundTrip(n / 10);
    }
  }

  /** An integer as `${n}` renders it: a minus sign before the digits of a negative value. */
  function IntToDecimal(n: int): (s: string)
    ensures |s| >= 1 && (s[0] == '-' <==> n < 0)
    ensures n >= 0 ==> AllDigits(s) && DecimalValue(s) == n
    ensures n < 0 ==> AllDigits(s[1..]) && DecimalValue(s[1..]) == -n
    ensures var digits := if n < 0 then s[1..] else s;
      (n != 0 ==> digits[0] != '0') && (n == 0 ==> s == "0")
  {
    if n < 0 then
      DecimalRoundTrip(-n);
      assert ("-" + NatToDecimal(-n))[1..] == NatToDecimal(-n);
      "-" + NatToDecimal(-n)
    else
      DecimalRoundTrip(n);
      NatToDecimal(n)
  }

  const NotFoundMessage: string := "商品が見つかりません"
  const EmptyCartMessage: string := "購入リストが空です"
  const PurchaseFailedMessage: string := "購入処理に失敗しました"

  const SuccessPrefix: string := "購入完了！合計金額: "

  /** The confirmation shown after a successful purchase: a fixed prefix, the charged
      amount written in decimal, and the yen sign; the amount reads back from the text. */
  function SuccessMessage(totalAmt: int): (m: string)
    ensures |m| >= |SuccessPrefix| + 2
    ensures m[..|SuccessPrefix|] == SuccessPrefix && m[|m| - 1] == '円'
    ensures var amount := m[|SuccessPrefix|..|m| - 1];
      totalAmt >= 0 ==> AllDigits(amount) && DecimalValue(amount) == totalAmt
    ensures m[|SuccessPrefix|..|m| - 1] == IntToDecimal(totalAmt)
  {
    var amount := IntToDecimal(totalAmt);
    var m := SuccessPrefix + amount + "円";
    assert m[|SuccessPrefix|..|m| - 1] == amount;
    m
  }
}
