/** The cart page's own logic (src/pages/Cart.jsx): the promo-code discount, the
    guard on quantity changes, the items it displays and the order summary it
    computes from them. Amounts are in cents; the discounted total is kept in
    hundredths of a cent, where a 5% or 10% discount of a whole-cent subtotal is
    exact. */
module CartPage {
  import opened Common
  import opened Text
  import opened Entities
  import CartService

  const SAVE10 := "save10"
  const WELCOME5 := "welcome5"
  const SAVE10_APPLIED := "Promo code applied! 10% discount"
  const WELCOME5_APPLIED := "Welcome discount applied! 5% off"
  const INVALID_PROMO := "Invalid promo code"

  /** Shipping is free above this subtotal, in cents. */
  const FREE_SHIPPING_OVER := 5000
  const SHIPPING_FEE := 599

  // ---- promo codes ----

  /** The discount, in percent, after `handleApplyPromo` with `code`: the two known
      codes in any case set theirs, any other code keeps the current one. */
  function PromoDiscount(code: string, current: int): (percent: int)
    ensures ToLower(code) == SAVE10 ==> percent == 10
    ensures ToLower(code) == WELCOME5 ==> percent == 5
    ensures ToLower(code) != SAVE10 && ToLower(code) != WELCOME5 ==> percent == current
  {
    if ToLower(code) == SAVE10 then 10
    else if ToLower(code) == WELCOME5 then 5
    else current
  }

  function PromoMessage(code: string): string {
    if ToLower(code) == SAVE10 then SAVE10_APPLIED
    else if ToLower(code) == WELCOME5 then WELCOME5_APPLIED
    else INVALID_PROMO
  }

  /** Codes are matched ignoring case, and applying a code twice is applying it
      once; the discount only ever takes the values 0, 5 and 10. */
  lemma PromoIgnoresCaseAndRepeats(code: string, current: int)
    ensures PromoDiscount(ToLower(code), current) == PromoDiscount(code, current)
    ensures PromoDiscount(code, PromoDiscount(code, current)) == PromoDiscount(code, current)
    ensures current in {0, 5, 10} ==> PromoDiscount(code, current) in {0, 5, 10}
  {
    ToLowerIdempotent(code);
  }

  // ---- quantity changes ----

  /** What `handleQuantityChange` asks the cart to do: nothing below one, else an
      update of that row to the new quantity. */
  function QuantityRequest(cartItemId: string, newQuantity: int): (r: Option<(string, int)>)
    ensures r.None? <==> newQuantity < 1
    ensures r.Some? ==> r.value == (cartItemId, newQuantity)
  {
    if newQuantity < 1 then None else Some((cartItemId, newQuantity))
  }

  /** A request that the page forwards is never refused by the service for being
      below one. */
  lemma ForwardedQuantityIsLargeEnough(rows: seq<CartItem>, ms: seq<Medicine>, cartItemId: string,
                                       newQuantity: int, now: int)
    requires QuantityRequest(cartItemId, newQuantity).Some?
    ensures CartService.UpdateOutcome(rows, ms, cartItemId, newQuantity, now).0 != Err(CartService.QUANTITY_TOO_SMALL)
  {
    CartService.UpdateRejections(rows, ms, cartItemId, newQuantity, now);
    var r := CartService.UpdateOutcome(rows, ms, cartItemId, newQuantity, now).0;
    if r.Err? {
      assert r.message != CartService.QUANTITY_TOO_SMALL;
    }
  }

  // ---- displayed items ----

  function DemoMedicine(id: string, name: string, brand: string, category: string, price: int,
                        prescriptionRequired: bool): Medicine
  {
    Medicine(id, name, brand, category, "", price, 0, prescriptionRequired, AVAILABLE, "", [],
             None, None, 0, 0)
  }

  /** The page's demonstration cart, shown to a signed-in user whose cart is empty. */
  const DEMO_LINES: seq<CartService.CartLine> := [
    CartService.CartLine(CartItem("1", "101", 2, 1705314600000, 1705314600000),
      DemoMedicine("101", "Pain Relief Tablets", "HealthCorp", "Pain Relief", 1299, false)),
    CartService.CartLine(CartItem("2", "102", 1, 1705316400000, 1705316400000),
      DemoMedicine("102", "Blood Pressure Monitor", "MedTech", "Medical Devices", 4500, false)),
    CartService.CartLine(CartItem("3", "103", 1, 1705320000000, 1705320000000),
      DemoMedicine("103", "Antibiotic Prescription", "PharmaCorp", "Antibiotics", 2850, true))
  ]

  /** `displayCartItems`: the real cart when it has items, else the demonstration
      cart for a signed-in user. */
  function DisplayItems(cartLines: seq<CartService.CartLine>, isAuthenticated: bool)
    : (items: seq<CartService.CartLine>)
    ensures cartLines != [] ==> items == cartLines
    ensures cartLines == [] && isAuthenticated ==> items == DEMO_LINES
    ensures cartLines == [] && !isAuthenticated ==> items == []
  {
    if |cartLines| > 0 then cartLines else if isAuthenticated then DEMO_LINES else []
  }

  // ---- the order summary ----

  /** `subtotal > 50 ? 0 : 5.99`, in cents. */
  function ShippingFee(subtotal: int): (fee: int)
    ensures fee == 0 <==> subtotal > FREE_SHIPPING_OVER
    ensures fee == 0 || fee == SHIPPING_FEE
  {
    if subtotal > FREE_SHIPPING_OVER then 0 else SHIPPING_FEE
  }

  /** The summary of the displayed items: the subtotal and shipping in cents, the
      discount and total in hundredths of a cent. */
  datatype Summary = Summary(subtotal: int, discountAmount: int, shippingFee: int, total: int)

  function Summarize(items: seq<CartService.CartLine>, percent: int): (s: Summary)
    ensures s.subtotal == CartService.TotalAmount(items)
    ensures s.shippingFee == ShippingFee(s.subtotal)
    ensures s.total == 100 * s.subtotal - s.discountAmount + 100 * s.shippingFee
    ensures s.discountAmount == s.subtotal * percent
  {
    var subtotal := CartService.TotalAmount(items);
    var discountAmount := subtotal * percent;
    var shippingFee := ShippingFee(subtotal);
    Summary(subtotal, discountAmount, shippingFee, 100 * subtotal - discountAmount + 100 * shippingFee)
  }

  /** For a discount between 0 and 100% the total lies between the shipping fee and
      subtotal plus shipping, and a larger discount never raises it. */
  lemma SummaryBounds(items: seq<CartService.CartLine>, percent: int, larger: int)
    requires forall l :: l in items ==> l.item.quantity >= 0 && l.medicine.price >= 0
    requires 0 <= percent <= larger <= 100
    ensures var s := Summarize(items, percent);
      100 * s.shippingFee <= s.total <= 100 * (s.subtotal + s.shippingFee)
    ensures Summarize(items, larger).total <= Summarize(items, percent).total
  {
    CartService.TotalsNonNegative(items);
    var subtotal := CartService.TotalAmount(items);
    assert subtotal * percent <= subtotal * 100 by {
      assert subtotal * (100 - percent) >= 0;
    }
    assert subtotal * percent <= subtotal * larger by {
      assert subtotal * (larger - percent) >= 0;
    }
    assert subtotal * percent >= 0;
  }

  /** The demonstration cart comes to $99.48 and ships free. */
  lemma DemoCartShipsFree()
    ensures CartService.TotalAmount(DEMO_LINES) == 9948
    ensures ShippingFee(CartService.TotalAmount(DEMO_LINES)) == 0
  {
    assert DEMO_LINES[..2][..1] == DEMO_LINES[..1];
    assert DEMO_LINES[..3] == DEMO_LINES;
    assert CartService.TotalAmount(DEMO_LINES[..1]) == 2598;
    assert CartService.TotalAmount(DEMO_LINES[..2]) == 7098;
  }

  // ---- the page state ----

  class CartPage {
    var promoCode: string
    var discountPercent: int

    constructor ()
      ensures promoCode == "" && discountPercent == 0
    {
      promoCode := "";
      discountPercent := 0;
    }

    /** `handleApplyPromo()`: sets the discount of a known code and says so; any
        other code keeps the discount and is reported invalid. */
    method ApplyPromo() returns (message: string)
      modifies this
      ensures promoCode == old(promoCode)
      ensures discountPercent == PromoDiscount(promoCode, old(discountPercent))
      ensures message == PromoMessage(promoCode)
    {
      var code := ToLower(promoCode);
      if code == SAVE10 {
        discountPercent := 10;
        message := SAVE10_APPLIED;
      } else if code == WELCOME5 {
        discountPercent := 5;
        message := WELCOME5_APPLIED;
      } else {
        message := INVALID_PROMO;
      }
    }
  }
}
