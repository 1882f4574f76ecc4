/** The point-of-sale cart: lines keyed by receiving batch (`grnItemsId`),
    the add / quantity / discount / remove / clear transitions, the totals,
    the input clamps, and the ordered plan of remote calls that submitting
    an invoice issues. */
module Cart {
  import opened Wrappers
  import opened Text
  import opened JsValues
  import opened Types
  import opened Seqs

  /** One cart line. `productQty` is the stock recorded when the line was
      added (`productQty || 0`). */
  datatype CartLine = CartLine(
    grnItemsId: int,
    productId: int,
    productName: string,
    productNumber: string,
    quantity: int,
    sellingPrice: real,
    discount: real,
    total: real,
    productQty: real)

  /** The fields of a search result that adding to the cart reads. A stock
      of `None` is a `null` or `NaN` quantity: both are falsy and neither
      equals 0, so the two behave alike in every branch. */
  datatype CartProduct = CartProduct(
    grnItemsId: int,
    productId: int,
    productName: string,
    productNumber: string,
    productQty: Option<real>,
    latestPrice: Option<real>,
    productSelling: real)

  /** The line arithmetic: total = (sellingPrice − discount) × quantity. */
  predicate LineConsistent(l: CartLine) {
    l.total == (l.sellingPrice - l.discount) * l.quantity as real
  }

  predicate Consistent(cart: seq<CartLine>) {
    forall i :: 0 <= i < |cart| ==> LineConsistent(cart[i])
  }

  /** No two lines share a batch. */
  predicate UniqueBatches(cart: seq<CartLine>) {
    forall i, j :: 0 <= i < j < |cart| ==> cart[i].grnItemsId != cart[j].grnItemsId
  }

  /** Every line holds at least one unit. */
  predicate PositiveQuantities(cart: seq<CartLine>) {
    forall i :: 0 <= i < |cart| ==> cart[i].quantity >= 1
  }

  /** The invariant the transitions keep. */
  predicate Valid(cart: seq<CartLine>) {
    Consistent(cart) && UniqueBatches(cart) && PositiveQuantities(cart)
  }

  predicate HasBatch(cart: seq<CartLine>, grnItemsId: int) {
    exists i :: 0 <= i < |cart| && cart[i].grnItemsId == grnItemsId
  }

  /** `cart.find(item => item.grnItemsId === id)`: the index of the first
      line of that batch. */
  function FindBatch(cart: seq<CartLine>, grnItemsId: int): (r: Option<nat>)
    ensures r.None? <==> !HasBatch(cart, grnItemsId)
    ensures r.Some? ==> r.value < |cart| && cart[r.value].grnItemsId == grnItemsId
    ensures r.Some? ==> forall i :: 0 <= i < r.value ==> cart[i].grnItemsId != grnItemsId
  {
    if cart == [] then None
    else if cart[0].grnItemsId == grnItemsId then Some(0)
    else
      match FindBatch(cart[1..], grnItemsId)
      case None =>
        assert !HasBatch(cart, grnItemsId) by {
          forall i | 0 <= i < |cart| ensures cart[i].grnItemsId != grnItemsId {
            if i > 0 { assert cart[i] == cart[1..][i - 1]; }
          }
        }
        None
      case Some(k) => Some(k + 1)
  }

  // ---------------------------------------------------------------------
  // Transitions
  // ---------------------------------------------------------------------

  /** `removeFromCart`: drops every line of the batch. */
  function RemoveFromCart(cart: seq<CartLine>, grnItemsId: int): seq<CartLine> {
    Filter(cart, (l: CartLine) => l.grnItemsId != grnItemsId)
  }

  /** A line with a new quantity and its total recomputed. */
  function WithQuantity(l: CartLine, q: int): CartLine {
    l.(quantity := q, total := (l.sellingPrice - l.discount) * q as real)
  }

  /** A recomputed line's total agrees with its price, discount and
      quantity. */
  lemma WithQuantityConsistent(l: CartLine, q: int)
    ensures LineConsistent(WithQuantity(l, q))
  {
    var w := WithQuantity(l, q);
    assert w.total == (l.sellingPrice - l.discount) * q as real;
    assert w.sellingPrice == l.sellingPrice && w.discount == l.discount && w.quantity == q;
  }

  /** A line with a new discount and its total recomputed. */
  function WithDiscount(l: CartLine, d: real): CartLine {
    l.(discount := d, total := (l.sellingPrice - d) * l.quantity as real)
  }

  /** Re-pricing a line keeps its arithmetic. */
  lemma WithDiscountConsistent(l: CartLine, d: real)
    ensures LineConsistent(WithDiscount(l, d))
  {
    var w := WithDiscount(l, d);
    assert w.total == (l.sellingPrice - d) * l.quantity as real;
    assert w.sellingPrice == l.sellingPrice && w.discount == d && w.quantity == l.quantity;
  }

  /** The message `updateCartItemQuantity` alerts when the recorded stock is
      below the requested quantity. */
  const OutOfStock: string := "Out of Stock"

  /** `updateCartItemQuantity(productId, newQuantity, grnItemsId,
      productQty)`: a quantity of 0 or less removes the batch; one above the
      given stock changes nothing (and alerts); otherwise every line of the
      batch gets the quantity. `productId` is not read. */
  function UpdateCartItemQuantity(cart: seq<CartLine>, productId: int, newQuantity: int, grnItemsId: int, productQty: real): (r: seq<CartLine>)
    ensures |r| <= |cart|
  {
    if newQuantity <= 0 then RemoveFromCart(cart, grnItemsId)
    else if productQty < newQuantity as real then cart
    else
      seq(|cart|, i requires 0 <= i < |cart| =>
        if cart[i].grnItemsId == grnItemsId then WithQuantity(cart[i], newQuantity) else cart[i])
  }

  /** The alert a quantity change raises, if any. */
  function QuantityAlert(newQuantity: int, productQty: real): (a: Option<string>)
    ensures a.Some? <==> newQuantity > 0 && productQty < newQuantity as real
  {
    if newQuantity > 0 && productQty < newQuantity as real then Some(OutOfStock) else None
  }

  /** `updateCartItemDiscount(productId, discount)`: every line of the
      product (whatever its batch) gets the discount. */
  function UpdateCartItemDiscount(cart: seq<CartLine>, productId: int, discount: real): (r: seq<CartLine>)
    ensures |r| == |cart|
  {
    seq(|cart|, i requires 0 <= i < |cart| =>
      if cart[i].productId == productId then WithDiscount(cart[i], discount) else cart[i])
  }

  /** `Math.max(0, Math.min(parseFloat(value) || 0, sellingPrice))`: the
      discount input of a line. */
  function ClampDiscount(value: string, sellingPrice: real): (d: real)
    ensures 0.0 <= d
    ensures d <= sellingPrice || d == 0.0
    ensures ParseFloat(value).Fin? && 0.0 <= ParseFloat(value).v <= sellingPrice ==> d == ParseFloat(value).v
    ensures ParseFloat(value).NaN? ==> d == 0.0
    ensures ParseFloat(value).Fin? && ParseFloat(value).v > sellingPrice ==> d == (if sellingPrice < 0.0 then 0.0 else sellingPrice)
    ensures ParseFloat(value).Fin? && ParseFloat(value).v < 0.0 ==> d == 0.0
  {
    var x := NumOr(ParseFloat(value), 0.0);
    var m := if x < sellingPrice then x else sellingPrice;
    if m < 0.0 then 0.0 else m
  }

  function Distance(a: real, b: real): real {
    if a < b then b - a else a - b
  }

  /** For a non-negative price, the clamped discount is the amount in
      `[0, price]` nearest to the typed number: no other admissible amount
      is closer. */
  lemma ClampDiscountIsNearest(value: string, sellingPrice: real, x: real)
    requires ParseFloat(value).Fin? && 0.0 <= sellingPrice && 0.0 <= x <= sellingPrice
    ensures var d := ClampDiscount(value, sellingPrice);
      0.0 <= d <= sellingPrice && Distance(d, ParseFloat(value).v) <= Distance(x, ParseFloat(value).v)
  {
  }

  /** The discount input of a line: clamp against that line's price, then
      apply to every line of its product. */
  function EditLineDiscount(cart: seq<CartLine>, line: CartLine, value: string): seq<CartLine> {
    UpdateCartItemDiscount(cart, line.productId, ClampDiscount(value, line.sellingPrice))
  }

  /** `Math.max(0, parseFloat(value) || 0)`: the VAT and discount inputs. */
  function ClampNonNegative(value: string): (x: real)
    ensures x >= 0.0
    ensures ParseFloat(value).Fin? && ParseFloat(value).v >= 0.0 ==> x == ParseFloat(value).v
    ensures !(ParseFloat(value).Fin? && ParseFloat(value).v > 0.0) ==> x == 0.0
  {
    var x := NumOr(ParseFloat(value), 0.0);
    if x < 0.0 then 0.0 else x
  }

  /** The line `addToCart` appends for a new batch. */
  function NewLine(p: CartProduct): (l: CartLine)
    ensures l.quantity == 1 && l.discount == 0.0 && LineConsistent(l)
    ensures l.grnItemsId == p.grnItemsId && l.productId == p.productId
  {
    var price := if p.latestPrice.Some? && p.latestPrice.value != 0.0 then p.latestPrice.value else p.productSelling;
    CartLine(p.grnItemsId, p.productId, p.productName, p.productNumber, 1, price, 0.0, price,
      if p.productQty.Some? then p.productQty.value else 0.0)
  }

  /** `addToCart(product)`, as written. For a batch already in the cart the
      stock guard is the wrong way round: a truthy stock at least the
      current quantity changes nothing, and only otherwise is an increment
      attempted (against the stock recorded on the line). For a new batch
      only a stock of exactly 0 is refused. */
  function AddToCart(cart: seq<CartLine>, p: CartProduct): (r: seq<CartLine>)
    ensures |r| <= |cart| + 1
  {
    match FindBatch(cart, p.grnItemsId)
    case Some(k) =>
      var existing := cart[k];
      if p.productQty.Some? && p.productQty.value != 0.0 && p.productQty.value >= existing.quantity as real then cart
      else UpdateCartItemQuantity(cart, existing.productId, existing.quantity + 1, existing.grnItemsId, existing.productQty)
    case None =>
      if p.productQty == Some(0.0) then cart else cart + [NewLine(p)]
  }

  /** `addToCart` with the existing-batch guard as evidently intended: a
      truthy stock no greater than the current quantity refuses, anything
      else attempts the increment. */
  function AddToCartIntended(cart: seq<CartLine>, p: CartProduct): (r: seq<CartLine>)
    ensures |r| <= |cart| + 1
    ensures !HasBatch(cart, p.grnItemsId) ==> r == (if p.productQty == Some(0.0) then cart else cart + [NewLine(p)])
    ensures var f := FindBatch(cart, p.grnItemsId);
      f.Some? && Refuses(p, cart[f.value]) ==> r == cart
    ensures var f := FindBatch(cart, p.grnItemsId);
      f.Some? && !Refuses(p, cart[f.value]) && cart[f.value].quantity >= 1 ==>
        |r| == |cart|
        && (forall i :: 0 <= i < |cart| && cart[i].grnItemsId != p.grnItemsId ==> r[i] == cart[i])
        && (r[f.value].quantity == cart[f.value].quantity + 1 <==> cart[f.value].productQty >= (cart[f.value].quantity + 1) as real)
  {
    match FindBatch(cart, p.grnItemsId)
    case Some(k) =>
      var existing := cart[k];
      var q := existing.quantity + 1;
      if Refuses(p, existing) then cart
      else if q > 0 && existing.productQty >= q as real then
        QuantityChangeTouchesOnlyBatch(cart, existing.productId, q, existing.grnItemsId, existing.productQty);
        UpdateCartItemQuantity(cart, existing.productId, q, existing.grnItemsId, existing.productQty)
      else UpdateCartItemQuantity(cart, existing.productId, q, existing.grnItemsId, existing.productQty)
    case None =>
      if p.productQty == Some(0.0) then cart else cart + [NewLine(p)]
  }

  /** The intended refusal: the product's stock is truthy and no greater
      than the line's quantity. */
  predicate Refuses(p: CartProduct, existing: CartLine) {
    p.productQty.Some? && p.productQty.value != 0.0 && p.productQty.value <= existing.quantity as real
  }

  /** The POS page state the transitions act on. */
  datatype PosState = PosState(cart: seq<CartLine>, customer: Option<Customer>, vatPercentage: real, discountAmount: real)

  /** `clearCart`. */
  function ClearCart(s: PosState): (r: PosState)
    ensures r.cart == [] && r.customer.None? && r.vatPercentage == 0.0 && r.discountAmount == 0.0
  {
    PosState([], None, 0.0, 0.0)
  }

  // ---------------------------------------------------------------------
  // Totals
  // ---------------------------------------------------------------------

  datatype Totals = Totals(subtotal: real, vatAmount: real, discountAmount: real, grandTotal: real)

  function LineTotal(l: CartLine): real { l.total }

  /** The sum of the line totals. */
  function Subtotal(cart: seq<CartLine>): real {
    Sum(cart, LineTotal)
  }

  /** `calculateTotals`. */
  function CalculateTotals(cart: seq<CartLine>, vatPercentage: real, discountAmount: real): (t: Totals)
    ensures t.subtotal == Subtotal(cart)
    ensures t.vatAmount * 100.0 == t.subtotal * vatPercentage
    ensures t.discountAmount == discountAmount
    ensures t.grandTotal >= 0.0 && t.grandTotal >= t.subtotal + t.vatAmount - discountAmount
    ensures t.grandTotal == 0.0 || t.grandTotal == t.subtotal + t.vatAmount - discountAmount
  {
    var subtotal := Subtotal(cart);
    var vat := subtotal * vatPercentage / 100.0;
    var grand := subtotal + vat - discountAmount;
    Totals(subtotal, vat, discountAmount, if grand < 0.0 then 0.0 else grand)
  }

  // ---------------------------------------------------------------------
  // Lemmas: the invariant
  // ---------------------------------------------------------------------

  lemma RemoveKeepsValid(cart: seq<CartLine>, grnItemsId: int)
    requires Valid(cart)
    ensures Valid(RemoveFromCart(cart, grnItemsId))
    ensures !HasBatch(RemoveFromCart(cart, grnItemsId), grnItemsId)
    ensures forall l :: l in RemoveFromCart(cart, grnItemsId) <==> l in cart && l.grnItemsId != grnItemsId
  {
    var p := (l: CartLine) => l.grnItemsId != grnItemsId;
    FilterMembership(cart, p);
    var r := RemoveFromCart(cart, grnItemsId);
    FilterUnique(cart, p);
    forall i | 0 <= i < |r| ensures LineConsistent(r[i]) && r[i].quantity >= 1 {
      assert r[i] in cart;
    }
  }

  /** Filtering keeps batches distinct. */
  lemma {:induction false} FilterUnique(cart: seq<CartLine>, p: CartLine -> bool)
    requires UniqueBatches(cart)
    ensures UniqueBatches(Filter(cart, p))
    decreases |cart|
  {
    if cart != [] {
      FilterUnique(cart[1..], p);
      FilterMembership(cart[1..], p);
      var rest := Filter(cart[1..], p);
      if p(cart[0]) {
        var r := [cart[0]] + rest;
        assert Filter(cart, p) == r;
        forall j | 0 < j < |r| ensures r[0].grnItemsId != r[j].grnItemsId {
          assert r[j] in cart[1..];
          var k :| 0 <= k < |cart[1..]| && cart[1..][k] == r[j];
          assert cart[k + 1] == r[j];
        }
      }
    }
  }

  lemma UpdateQuantityKeepsValid(cart: seq<CartLine>, productId: int, newQuantity: int, grnItemsId: int, productQty: real)
    requires Valid(cart)
    ensures Valid(UpdateCartItemQuantity(cart, productId, newQuantity, grnItemsId, productQty))
  {
    if newQuantity <= 0 {
      RemoveKeepsValid(cart, grnItemsId);
    }
  }

  lemma UpdateDiscountKeepsValid(cart: seq<CartLine>, productId: int, discount: real)
    requires Valid(cart)
    ensures Valid(UpdateCartItemDiscount(cart, productId, discount))
  {
  }

  lemma AddKeepsValid(cart: seq<CartLine>, p: CartProduct)
    requires Valid(cart)
    ensures Valid(AddToCart(cart, p))
  {
    match FindBatch(cart, p.grnItemsId)
    case Some(k) =>
      UpdateQuantityKeepsValid(cart, cart[k].productId, cart[k].quantity + 1, cart[k].grnItemsId, cart[k].productQty);
    case None =>
      var r := cart + [NewLine(p)];
      if p.productQty != Some(0.0) {
        forall i, j | 0 <= i < j < |r| ensures r[i].grnItemsId != r[j].grnItemsId {
          if j == |cart| {
            assert r[i] == cart[i];
          }
        }
      }
  }

  // ---------------------------------------------------------------------
  // Lemmas: what each transition does
  // ---------------------------------------------------------------------

  /** A new batch whose stock is exactly 0 is refused. */
  lemma AddZeroStockUnchanged(cart: seq<CartLine>, p: CartProduct)
    requires !HasBatch(cart, p.grnItemsId) && p.productQty == Some(0.0)
    ensures AddToCart(cart, p) == cart
  {
  }

  /** A new batch with any other stock, `null` included, is appended at the
      end with one unit, no discount, price and total from the latest price
      when truthy (else the selling price), and recorded stock 0 for a
      `null` stock. */
  lemma AddNewBatchAppends(cart: seq<CartLine>, p: CartProduct)
    requires !HasBatch(cart, p.grnItemsId) && p.productQty != Some(0.0)
    ensures var r := AddToCart(cart, p);
      |r| == |cart| + 1 && r[..|cart|] == cart
      && r[|cart|].grnItemsId == p.grnItemsId && r[|cart|].quantity == 1 && r[|cart|].discount == 0.0
      && r[|cart|].sellingPrice == r[|cart|].total
      && r[|cart|].sellingPrice == (if p.latestPrice.Some? && p.latestPrice.value != 0.0 then p.latestPrice.value else p.productSelling)
      && r[|cart|].productQty == (if p.productQty.None? then 0.0 else p.productQty.value)
  {
    assert (cart + [NewLine(p)])[..|cart|] == cart;
  }

  /** Adding a batch already in the cart never adds a line. */
  lemma AddExistingNoNewLine(cart: seq<CartLine>, p: CartProduct)
    requires Valid(cart) && HasBatch(cart, p.grnItemsId)
    ensures |AddToCart(cart, p)| == |cart|
  {
    var k := FindBatch(cart, p.grnItemsId).value;
    assert cart[k].quantity + 1 > 0;
  }

  /** The inverted guard: a truthy stock at least the current quantity
      leaves the cart as it was. */
  lemma AddExistingWithStockUnchanged(cart: seq<CartLine>, p: CartProduct, k: nat)
    requires k < |cart| && FindBatch(cart, p.grnItemsId) == Some(k)
    requires p.productQty.Some? && p.productQty.value != 0.0 && p.productQty.value >= cart[k].quantity as real
    ensures AddToCart(cart, p) == cart
  {
  }

  /** As written, re-adding a batch whose stock has not changed since it was
      added never raises its quantity: either the inverted guard refuses,
      or the increment exceeds the recorded stock. */
  lemma ReAddNeverIncrements(cart: seq<CartLine>, p: CartProduct)
    requires Valid(cart) && HasBatch(cart, p.grnItemsId)
    requires var k := FindBatch(cart, p.grnItemsId).value;
      (p.productQty.Some? && p.productQty.value == cart[k].productQty)
      || (p.productQty.None? && cart[k].productQty == 0.0)
    ensures AddToCart(cart, p) == cart
  {
  }

  /** As written, re-adding does increment when the stock on the search
      result is falsy or below the line's quantity while the stock recorded
      on the line still allows one more unit. */
  lemma StaleStockReAddIncrements(cart: seq<CartLine>, p: CartProduct)
    requires Valid(cart) && HasBatch(cart, p.grnItemsId)
    requires var k := FindBatch(cart, p.grnItemsId).value;
      (p.productQty.None? || p.productQty == Some(0.0) || p.productQty.value < cart[k].quantity as real)
      && cart[k].productQty >= (cart[k].quantity + 1) as real
    ensures var k := FindBatch(cart, p.grnItemsId).value;
      var r := AddToCart(cart, p);
      |r| == |cart| && r[k].quantity == cart[k].quantity + 1
  {
    var k := FindBatch(cart, p.grnItemsId).value;
    var e := cart[k];
    assert AddToCart(cart, p) == UpdateCartItemQuantity(cart, e.productId, e.quantity + 1, e.grnItemsId, e.productQty);
    QuantityChangeTouchesOnlyBatch(cart, e.productId, e.quantity + 1, e.grnItemsId, e.productQty);
  }

  /** The smallest such case: a line of one unit with five recorded in
      stock, re-added from a result whose stock reads 0, goes to two. */
  lemma StaleZeroStockExample()
    ensures var line := CartLine(1, 7, "Tea", "P-7", 1, 10.0, 0.0, 10.0, 5.0);
      var p := CartProduct(1, 7, "Tea", "P-7", Some(0.0), None, 10.0);
      AddToCart([line], p) == [line.(quantity := 2, total := 20.0)]
  {
    var line := CartLine(1, 7, "Tea", "P-7", 1, 10.0, 0.0, 10.0, 5.0);
    assert FindBatch([line], 1) == Some(0);
  }

  /** With the guard as intended, re-adding a batch whose stock allows one
      more unit raises that line by one and touches no other batch. */
  lemma ReAddIntendedIncrements(cart: seq<CartLine>, p: CartProduct)
    requires Valid(cart) && HasBatch(cart, p.grnItemsId)
    requires var k := FindBatch(cart, p.grnItemsId).value;
      p.productQty == Some(cart[k].productQty) && cart[k].productQty >= (cart[k].quantity + 1) as real
    ensures var k := FindBatch(cart, p.grnItemsId).value;
      var r := AddToCartIntended(cart, p);
      |r| == |cart| && r[k].quantity == cart[k].quantity + 1 && LineConsistent(r[k])
      && forall i :: 0 <= i < |cart| && cart[i].grnItemsId != p.grnItemsId ==> r[i] == cart[i]
  {
    var k := FindBatch(cart, p.grnItemsId).value;
    var e := cart[k];
    var r := UpdateCartItemQuantity(cart, e.productId, e.quantity + 1, e.grnItemsId, e.productQty);
    assert AddToCartIntended(cart, p) == r by {
      assert e.quantity > 0;
    }
    QuantityChangeTouchesOnlyBatch(cart, e.productId, e.quantity + 1, e.grnItemsId, e.productQty);
    assert LineConsistent(r[k]) by {
      assert r[k] == WithQuantity(e, e.quantity + 1);
      WithQuantityConsistent(e, e.quantity + 1);
    }
  }

  /** A `null` stock slips past the zero check, and the line it creates
      records stock 0, so its quantity can never be raised. */
  lemma NullStockLineIsStuck(cart: seq<CartLine>, p: CartProduct)
    requires !HasBatch(cart, p.grnItemsId) && p.productQty.None?
    ensures var r := AddToCart(cart, p);
      var l := r[|cart|];
      UpdateCartItemQuantity(r, l.productId, l.quantity + 1, l.grnItemsId, l.productQty) == r
  {
  }

  /** A quantity of 0 or less removes every line of the batch. */
  lemma QuantityZeroRemoves(cart: seq<CartLine>, productId: int, q: int, grnItemsId: int, productQty: real)
    requires q <= 0
    ensures !HasBatch(UpdateCartItemQuantity(cart, productId, q, grnItemsId, productQty), grnItemsId)
  {
    var r := UpdateCartItemQuantity(cart, productId, q, grnItemsId, productQty);
    var p := (l: CartLine) => l.grnItemsId != grnItemsId;
    FilterMembership(cart, p);
    forall i | 0 <= i < |r| ensures r[i].grnItemsId != grnItemsId {
      assert p(r[i]);
    }
  }

  /** A quantity above the given stock changes nothing, and alerts. */
  lemma QuantityAboveStockUnchanged(cart: seq<CartLine>, productId: int, q: int, grnItemsId: int, productQty: real)
    requires q > 0 && productQty < q as real
    ensures UpdateCartItemQuantity(cart, productId, q, grnItemsId, productQty) == cart
    ensures QuantityAlert(q, productQty) == Some(OutOfStock)
  {
  }

  /** An accepted quantity change sets the quantity of exactly the lines of
      the batch, recomputes their totals, and leaves every other line
      alone. */
  lemma QuantityChangeTouchesOnlyBatch(cart: seq<CartLine>, productId: int, q: int, grnItemsId: int, productQty: real)
    requires q > 0 && productQty >= q as real
    ensures var r := UpdateCartItemQuantity(cart, productId, q, grnItemsId, productQty);
      |r| == |cart|
      && (forall i :: 0 <= i < |cart| && cart[i].grnItemsId == grnItemsId ==>
            r[i].quantity == q && r[i].total == (cart[i].sellingPrice - cart[i].discount) * q as real
            && r[i].grnItemsId == grnItemsId && r[i].sellingPrice == cart[i].sellingPrice)
      && (forall i :: 0 <= i < |cart| && cart[i].grnItemsId != grnItemsId ==> r[i] == cart[i])
  {
  }

  /** A discount edit reaches every line of the product, across batches,
      with its totals recomputed; lines of other products are untouched. */
  lemma DiscountByProduct(cart: seq<CartLine>, line: CartLine, value: string)
    ensures var r := EditLineDiscount(cart, line, value);
      var d := ClampDiscount(value, line.sellingPrice);
      |r| == |cart| && 0.0 <= d
      && (forall i :: 0 <= i < |cart| && cart[i].productId == line.productId ==>
            r[i].discount == d && LineConsistent(r[i]) && r[i].grnItemsId == cart[i].grnItemsId)
      && (forall i :: 0 <= i < |cart| && cart[i].productId != line.productId ==> r[i] == cart[i])
  {
    var d := ClampDiscount(value, line.sellingPrice);
    var r := EditLineDiscount(cart, line, value);
    assert r == UpdateCartItemDiscount(cart, line.productId, d);
    forall i | 0 <= i < |cart| && cart[i].productId == line.productId
      ensures r[i].discount == d && LineConsistent(r[i]) && r[i].grnItemsId == cart[i].grnItemsId
    {
      assert r[i] == WithDiscount(cart[i], d);
      WithDiscountConsistent(cart[i], d);
    }
    forall i | 0 <= i < |cart| && cart[i].productId != line.productId
      ensures r[i] == cart[i]
    {
    }
  }

  /** The clamp is against the edited line's price only: another batch of
      the same product with a lower price can end up discounted below zero. */
  lemma DiscountCanExceedOtherBatchPrice()
    ensures var a := CartLine(1, 7, "p", "n", 1, 100.0, 0.0, 100.0, 5.0);
      var b := CartLine(2, 7, "p", "n", 1, 40.0, 0.0, 40.0, 5.0);
      var r := EditLineDiscount([a, b], a, IntToString(60));
      r[1].discount == 60.0 && r[1].total < 0.0
  {
    var a := CartLine(1, 7, "p", "n", 1, 100.0, 0.0, 100.0, 5.0);
    var b := CartLine(2, 7, "p", "n", 1, 40.0, 0.0, 40.0, 5.0);
    ParseFloatOfIntToString(60);
    assert ClampDiscount(IntToString(60), a.sellingPrice) == 60.0;
    var r := UpdateCartItemDiscount([a, b], 7, 60.0);
    assert r[1] == WithDiscount(b, 60.0);
  }


  /** Removal keeps the other lines in order. */
  lemma RemovePreservesOrder(cart: seq<CartLine>, grnItemsId: int)
    ensures IsSubsequence(RemoveFromCart(cart, grnItemsId), cart)
  {
    FilterMembership(cart, (l: CartLine) => l.grnItemsId != grnItemsId);
  }

  // ---------------------------------------------------------------------
  // Lemmas: totals
  // ---------------------------------------------------------------------

  function LineValue(l: CartLine): real {
    (l.sellingPrice - l.discount) * l.quantity as real
  }

  /** For a consistent cart the subtotal is the sum over lines of
      (price − discount) × quantity. */
  lemma {:induction false} SubtotalIsLineValues(cart: seq<CartLine>)
    requires Consistent(cart)
    ensures Subtotal(cart) == Sum(cart, LineValue)
    decreases |cart|
  {
    if cart != [] {
      SubtotalIsLineValues(cart[..|cart| - 1]);
    }
  }

  /** Appending a line adds its total to the subtotal. */
  lemma SubtotalAppend(cart: seq<CartLine>, l: CartLine)
    ensures Subtotal(cart + [l]) == Subtotal(cart) + l.total
  {
    SumAppend(cart, [l], LineTotal);
    assert [l][..0] == [];
  }

  /** With the clamped inputs, the grand total is 0 exactly when the
      discount covers the subtotal plus VAT. */
  lemma GrandTotalZero(cart: seq<CartLine>, vatValue: string, discountValue: string)
    ensures var t := CalculateTotals(cart, ClampNonNegative(vatValue), ClampNonNegative(discountValue));
      t.grandTotal == 0.0 <==> t.subtotal + t.vatAmount <= t.discountAmount
  {
  }

  // ---------------------------------------------------------------------
  // Invoice submission
  // ---------------------------------------------------------------------

  /** One remote call of the submission, with its parameters as sent. */
  datatype Call =
    | OpenInvoice(invoiceType: string, clientName: string, clientEmail: string, clientTel: string, clientId: string, userId: string)
    | AddItem(invoiceId: string, userId: string, productId: string, qty: string, discount: string, sellPrice: string, reqType: string)
    | UpdateVat(invoiceId: string, vatValue: string)
    | UpdateDiscount(invoiceId: string, discountValue: string)
    | SaveInvoice(invoiceId: string, userId: string, receptType: string)

  /** What a submission did: the calls issued in order, whether the page
      state was cleared, and the error or alert it showed. */
  datatype Submission = Submission(calls: seq<Call>, cleared: bool, error: Option<string>, alert: Option<string>)

  /** `${value}` of an optional string field: `undefined` when absent. */
  function Interpolate(s: Option<string>): string {
    match s
    case Some(v) => v
    case None => "undefined"
  }

  /** `value || ''` of an optional string field. */
  function OrEmpty(s: Option<string>): string {
    match s
    case Some(v) => v
    case None => ""
  }

  /** `user?.id.toString() || '1'`. */
  function UserIdText(user: Option<User>): string {
    match user
    case Some(u) => IntToString(u.id)
    case None => "1"
  }

  function RealText(x: real): string {
    NumberToString(Fin(x))
  }

  /** The opening call: the customer check is disabled, so with no customer
      selected the name is "undefined undefined" and the id "0". */
  function OpenCall(customer: Option<Customer>, user: Option<User>): Call {
    var first := if customer.Some? then Some(customer.value.clientFirstName) else None;
    var last := if customer.Some? then Some(customer.value.clientLastName) else None;
    OpenInvoice(
      "Regular",
      Interpolate(first) + " " + Interpolate(last),
      if customer.Some? then OrEmpty(customer.value.email) else "",
      if customer.Some? then OrEmpty(customer.value.contactNumber) else "",
      NumberToString(if customer.Some? && NumTruthy(customer.value.clientId) then customer.value.clientId else Fin(0.0)),
      UserIdText(user))
  }

  function ItemCall(invoiceId: string, userId: string, l: CartLine): Call {
    AddItem(invoiceId, userId, IntToString(l.productId), IntToString(l.quantity), RealText(l.discount), RealText(l.sellingPrice), "AddToCart")
  }

  /** The calls after a successful open, in order. */
  function AfterOpen(cart: seq<CartLine>, invoiceId: string, userId: string, vat: real, discount: real): (cs: seq<Call>)
    ensures |cs| == |cart| + (if vat > 0.0 then 1 else 0) + (if discount > 0.0 then 1 else 0) + 1
  {
    seq(|cart|, i requires 0 <= i < |cart| => ItemCall(invoiceId, userId, cart[i]))
    + (if vat > 0.0 then [UpdateVat(invoiceId, RealText(vat))] else [])
    + (if discount > 0.0 then [UpdateDiscount(invoiceId, RealText(discount))] else [])
    + [SaveInvoice(invoiceId, userId, "Regular")]
  }

  const SubmitFailed: string := "Failed to create invoice. Please try again."

  /** `createInvoice`. The server's answer to the opening call enters as
      `openResult` (the parsed body, or the error the request threw), and
      `failAt` names the first later call that throws, if any (the answers
      of later calls are not read). */
  function SubmitInvoice(s: PosState, user: Option<User>, openResult: Outcome<Json>, failAt: Option<nat>): Submission {
    if s.cart == [] then Submission([], false, None, Some("Please add items to cart"))
    else
      var open := OpenCall(s.customer, user);
      match openResult
      case Threw(_) => Submission([open], false, Some(SubmitFailed), None)
      case Returned(response) =>
        if Truthy(Get(response, "result")) && Truthy(Get(response, "invoiceId")) then
          var rest := AfterOpen(s.cart, ToStr(Get(response, "invoiceId")), UserIdText(user), s.vatPercentage, s.discountAmount);
          if failAt.Some? && failAt.value < |rest| then
            Submission([open] + rest[..failAt.value + 1], false, Some(SubmitFailed), None)
          else Submission([open] + rest, true, None, Some("Invoice created successfully!"))
        else Submission([open], false, Some(SubmitFailed), None)
  }

  /** The page state after a submission: cleared only on success. */
  function AfterSubmit(s: PosState, sub: Submission): (r: PosState)
    ensures sub.cleared ==> r == ClearCart(s)
    ensures !sub.cleared ==> r == s
  {
    if sub.cleared then ClearCart(s) else s
  }

  /** An empty cart issues no call. */
  lemma EmptyCartNoCalls(s: PosState, user: Option<User>, openResult: Outcome<Json>, failAt: Option<nat>)
    requires s.cart == []
    ensures SubmitInvoice(s, user, openResult, failAt).calls == []
    ensures !SubmitInvoice(s, user, openResult, failAt).cleared
  {
  }

  /** The calls after the open: the items in cart order, then VAT and
      discount when positive, then save. */
  lemma AfterOpenShape(cart: seq<CartLine>, id: string, userId: string, vat: real, discount: real)
    ensures var cs := AfterOpen(cart, id, userId, vat, discount);
      var n := |cart|;
      (forall i :: 0 <= i < n ==> cs[i] == ItemCall(id, userId, cart[i]))
      && (vat > 0.0 ==> cs[n] == UpdateVat(id, RealText(vat)))
      && (discount > 0.0 ==> cs[|cs| - 2] == UpdateDiscount(id, RealText(discount)))
      && cs[|cs| - 1] == SaveInvoice(id, userId, "Regular")
  {
    var items := seq(|cart|, i requires 0 <= i < |cart| => ItemCall(id, userId, cart[i]));
    var v: seq<Call> := if vat > 0.0 then [UpdateVat(id, RealText(vat))] else [];
    var d: seq<Call> := if discount > 0.0 then [UpdateDiscount(id, RealText(discount))] else [];
    var cs := items + v + d + [SaveInvoice(id, userId, "Regular")];
    assert AfterOpen(cart, id, userId, vat, discount) == cs;
    forall i | 0 <= i < |cart| ensures cs[i] == ItemCall(id, userId, cart[i]) {
      assert cs[i] == items[i];
    }
    if vat > 0.0 {
      assert cs[|cart|] == v[0];
    }
    if discount > 0.0 {
      assert cs[|cs| - 2] == d[0];
    }
  }

  /** The full plan of a successful submission: open, one add-item per line
      in cart order, VAT only when positive, discount only when positive,
      then save; and the page state is cleared. */
  lemma SuccessfulPlan(s: PosState, user: Option<User>, response: Json)
    requires s.cart != []
    requires Truthy(Get(response, "result")) && Truthy(Get(response, "invoiceId"))
    ensures var sub := SubmitInvoice(s, user, Returned(response), None);
      var id := ToStr(Get(response, "invoiceId"));
      var n := |s.cart|;
      var extra := (if s.vatPercentage > 0.0 then 1 else 0) + (if s.discountAmount > 0.0 then 1 else 0);
      sub.cleared && |sub.calls| == n + extra + 2
      && sub.calls[0].OpenInvoice?
      && (forall i :: 0 <= i < n ==> sub.calls[i + 1] == ItemCall(id, UserIdText(user), s.cart[i]))
      && (s.vatPercentage > 0.0 ==> sub.calls[n + 1] == UpdateVat(id, RealText(s.vatPercentage)))
      && (s.discountAmount > 0.0 ==> sub.calls[|sub.calls| - 2] == UpdateDiscount(id, RealText(s.discountAmount)))
      && sub.calls[|sub.calls| - 1] == SaveInvoice(id, UserIdText(user), "Regular")
      && AfterSubmit(s, sub) == ClearCart(s)
  {
    var id := ToStr(Get(response, "invoiceId"));
    var rest := AfterOpen(s.cart, id, UserIdText(user), s.vatPercentage, s.discountAmount);
    var open := OpenCall(s.customer, user);
    var sub := SubmitInvoice(s, user, Returned(response), None);
    assert sub.calls == [open] + rest;
    AfterOpenShape(s.cart, id, UserIdText(user), s.vatPercentage, s.discountAmount);
    forall i | 0 <= i < |rest| ensures sub.calls[i + 1] == rest[i] {
    }
  }

  /** Only a fully successful submission clears the page: a failed open or
      a throwing later call keeps cart, customer, VAT and discount. */
  lemma ClearedOnlyOnSuccess(s: PosState, user: Option<User>, openResult: Outcome<Json>, failAt: Option<nat>)
    ensures var sub := SubmitInvoice(s, user, openResult, failAt);
      sub.cleared <==>
        s.cart != [] && openResult.Returned?
        && Truthy(Get(openResult.value, "result")) && Truthy(Get(openResult.value, "invoiceId"))
        && (failAt.None? || failAt.value >= |s.cart| + (if s.vatPercentage > 0.0 then 1 else 0) + (if s.discountAmount > 0.0 then 1 else 0) + 1)
    ensures var sub := SubmitInvoice(s, user, openResult, failAt);
      !sub.cleared ==> AfterSubmit(s, sub) == s
  {
  }

  /** With no customer selected the invoice still opens, for a customer
      named "undefined undefined" with id 0. */
  lemma NoCustomerStillOpens(s: PosState, user: Option<User>, response: Json)
    requires s.cart != [] && s.customer.None?
    ensures var sub := SubmitInvoice(s, user, Returned(response), None);
      sub.calls[0] == OpenInvoice("Regular", "undefined undefined", "", "", "0", UserIdText(user))
  {
    assert SubmitInvoice(s, user, Returned(response), None).calls[0] == OpenCall(None, user);
    assert OpenCall(None, user) == OpenInvoice("Regular", "undefined undefined", "", "", "0", UserIdText(user)) by {
      assert Interpolate(None) + " " + Interpolate(None) == "undefined undefined";
      assert NumberToString(Fin(0.0)) == "0";
    }
  }
}
