/**
 * The order summary shown beside the cart: 8% tax, a flat 10 shipping charge that
 * is waived strictly above a subtotal of 100, the total, the promo-code box and
 * the checkout button's enabled condition.
 */
module CartSummary {

  const TaxRate: real := 0.08
  const FreeShippingAbove: real := 100.0
  const ShippingCharge: real := 10.0

  /** Eight percent of the subtotal. */
  function Tax(subtotal: real): (r: real)
    ensures 100.0 * r == 8.0 * subtotal
    ensures subtotal >= 0.0 ==> 0.0 <= r <= subtotal
  {
    subtotal * TaxRate
  }

  /** Free strictly above 100; a subtotal of exactly 100 still pays 10. */
  function Shipping(subtotal: real): (r: real)
    ensures r == 0.0 <==> subtotal > FreeShippingAbove
    ensures r == 0.0 || r == ShippingCharge
  {
    if subtotal > FreeShippingAbove then 0.0 else ShippingCharge
  }

  function Total(subtotal: real): (r: real)
    ensures r == 1.08 * subtotal + Shipping(subtotal)
    ensures subtotal >= 0.0 ==> r > subtotal
    ensures subtotal >= 0.0 ==> r - subtotal <= 0.08 * subtotal + ShippingCharge
  {
    subtotal + Tax(subtotal) + Shipping(subtotal)
  }

  /** How the shipping line is displayed. */
  datatype ShippingDisplay = Free | Amount(value: real)

  function ShippingLabel(shipping: real): (r: ShippingDisplay)
    ensures r == Free <==> shipping == 0.0
    ensures r.Amount? ==> r.value == shipping
  {
    if shipping == 0.0 then Free else Amount(shipping)
  }

  /** The label reads "Free" exactly when the subtotal is above the threshold. */
  lemma FreeLabelExactlyAboveThreshold(subtotal: real)
    ensures ShippingLabel(Shipping(subtotal)) == Free <==> subtotal > FreeShippingAbove
  {
  }

  /** The checkout button is disabled while the cart is updating or when it holds no items. */
  predicate CheckoutDisabled(isLoading: bool, itemCount: int)
    ensures !CheckoutDisabled(isLoading, itemCount) <==> !isLoading && itemCount != 0
  {
    isLoading || itemCount == 0
  }

  /** The promo button is disabled while a check runs or when the code is empty. */
  predicate ApplyPromoDisabled(isApplyingPromo: bool, promoCode: string)
    ensures !ApplyPromoDisabled(isApplyingPromo, promoCode) <==> promoCode != "" && !isApplyingPromo
  {
    isApplyingPromo || promoCode == ""
  }

  /** The promo-code box: the typed code and whether a (simulated) check is running. */
  class PromoBox {
    var promoCode: string
    var isApplyingPromo: bool

    constructor ()
      ensures promoCode == "" && !isApplyingPromo
    {
      promoCode := "";
      isApplyingPromo := false;
    }

    method SetPromoCode(code: string)
      modifies this
      ensures promoCode == code && isApplyingPromo == old(isApplyingPromo)
    {
      promoCode := code;
    }

    /** An empty code does nothing; any other code starts a check. */
    method HandleApplyPromo() returns (started: bool)
      modifies this
      ensures started <==> old(promoCode) != ""
      ensures !ApplyPromoDisabled(old(isApplyingPromo), old(promoCode)) ==> started
      ensures promoCode == old(promoCode)
      ensures isApplyingPromo == (started || old(isApplyingPromo))
      ensures !started ==> isApplyingPromo == old(isApplyingPromo)
    {
      if promoCode == "" {
        started := false;
        return;
      }
      started := true;
      isApplyingPromo := true;
    }

    /** The delayed end of the check: every code is reported invalid, and the box is idle again. */
    method FinishPromoCheck() returns (accepted: bool)
      modifies this
      ensures !accepted
      ensures !isApplyingPromo && promoCode == old(promoCode)
    {
      accepted := false;
      isApplyingPromo := false;
    }
  }
}
