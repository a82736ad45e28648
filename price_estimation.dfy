/** The errand price estimator (mobile-app/src/core/hooks/usePriceEstimation.ts,
    with PRICING_CONFIG from mobile-app/src/core/constants/errandTasks.ts).
    It charges for every kilometre (there is no free base distance), adds a 5%
    platform fee, caps the coupon at the pre-discount total and floors the
    result at 800. Money is whole currency units; distance is an exact real
    produced by the injected `calculateDistance`. */
module PriceEstimation {
  import opened Wrappers
  import opened Types
  import opened Numeric

  const BaseFee: int := 500
  const PerKmRate: int := 150
  const PlatformFeePercentage: real := 0.05
  const MinimumTotal: int := 800

  /** The body of the `useMemo` once both locations are known. */
  function Price(distance: real, itemPurchaseCost: int, couponDiscount: int): (p: ErrandPricing)
    ensures p.baseFee == BaseFee
    ensures distance * PerKmRate as real <= p.distanceFee as real < distance * PerKmRate as real + 1.0
    ensures var subtotal := p.baseFee + p.distanceFee + p.itemPurchaseCost;
            subtotal as real * PlatformFeePercentage <= p.platformFee as real < subtotal as real * PlatformFeePercentage + 1.0
    ensures p.itemPurchaseCost == itemPurchaseCost && p.estimatedDistance == distance
    ensures var before := p.baseFee + p.distanceFee + p.itemPurchaseCost + p.platformFee;
            p.discount <= before && p.discount <= couponDiscount &&
            (p.discount == couponDiscount || p.discount == before)
    ensures p.totalAmount >= MinimumTotal
    ensures var net := p.baseFee + p.distanceFee + p.itemPurchaseCost + p.platformFee - p.discount;
            p.totalAmount == (if net >= MinimumTotal then net else MinimumTotal)
  {
    var baseFee := BaseFee;
    var distanceFee := Ceil(distance * PerKmRate as real);
    var subtotal := baseFee + distanceFee + itemPurchaseCost;
    var platformFee := Ceil(subtotal as real * PlatformFeePercentage);
    var totalBeforeDiscount := subtotal + platformFee;
    var discount := Min(couponDiscount, totalBeforeDiscount);
    var totalAmount := Max(totalBeforeDiscount - discount, MinimumTotal);
    ErrandPricing(baseFee, distanceFee, itemPurchaseCost, platformFee, discount, totalAmount, distance)
  }

  /** `usePriceEstimation`: no estimate until both locations are chosen; an
      omitted item cost or coupon counts as 0. */
  function EstimatePrice(pickupLocation: Option<ErrandLocation>, deliveryLocation: Option<ErrandLocation>,
                         itemPurchaseCost: Option<int>, couponDiscount: Option<int>,
                         calculateDistance: (ErrandLocation, ErrandLocation) -> real): (r: Option<ErrandPricing>)
    ensures r.None? <==> pickupLocation.None? || deliveryLocation.None?
    ensures r.Some? ==> r.value.totalAmount >= MinimumTotal
    ensures r.Some? ==> r.value.estimatedDistance == calculateDistance(pickupLocation.value, deliveryLocation.value)
    ensures r.Some? ==> r.value.itemPurchaseCost == itemPurchaseCost.GetOr(0)
    ensures r.Some? ==> r.value == Price(calculateDistance(pickupLocation.value, deliveryLocation.value),
                                         itemPurchaseCost.GetOr(0), couponDiscount.GetOr(0))
  {
    if pickupLocation.None? || deliveryLocation.None? then None
    else Some(Price(calculateDistance(pickupLocation.value, deliveryLocation.value),
                    itemPurchaseCost.GetOr(0), couponDiscount.GetOr(0)))
  }

  lemma CeilMonotone(x: real, y: real)
    requires x <= y
    ensures Ceil(x) <= Ceil(y)
  {
  }

  /** A longer trip never costs less, all else being equal. */
  lemma PriceMonotoneInDistance(d1: real, d2: real, itemPurchaseCost: int, couponDiscount: int)
    requires d1 <= d2
    ensures Price(d1, itemPurchaseCost, couponDiscount).totalAmount <= Price(d2, itemPurchaseCost, couponDiscount).totalAmount
  {
    var p1 := Price(d1, itemPurchaseCost, couponDiscount);
    var p2 := Price(d2, itemPurchaseCost, couponDiscount);
    CeilMonotone(d1 * PerKmRate as real, d2 * PerKmRate as real);
    var s1 := p1.baseFee + p1.distanceFee + itemPurchaseCost;
    var s2 := p2.baseFee + p2.distanceFee + itemPurchaseCost;
    CeilMonotone(s1 as real * PlatformFeePercentage, s2 as real * PlatformFeePercentage);
  }

  /** Without a coupon a zero-length errand costs the base fee plus its
      platform fee, which the floor raises to the minimum. */
  lemma ZeroDistanceIsMinimum()
    ensures Price(0.0, 0, 0).totalAmount == MinimumTotal
    ensures Price(0.0, 0, 0).distanceFee == 0 && Price(0.0, 0, 0).platformFee == 25
  {
  }

  /** A 5 km errand with no items and no coupon: 750 for distance, 63 platform
      fee (5% of 1250, rounded up), 1313 in all. */
  lemma FiveKilometreExample()
    ensures Price(5.0, 0, 0) == ErrandPricing(500, 750, 0, 63, 0, 1313, 5.0)
  {
  }
}
