/** The pricing engine of the cart page: the volume-discount tier table, the
    member discount, and the invoice pipeline item total -> discount ->
    shipping -> taxable amount -> tax -> invoice total.

    Money is kept exactly. Prices and item totals are integer cents; every
    derived amount (a discount, the tax) is a `real` number of cents, which
    in Dafny is an exact rational, so no rounding happens anywhere. This
    matches the JavaScript, which rounds only when it formats a figure for display. */
module Pricing {
  import opened Seqs

  /** Sales tax, 10.2 %. */
  const TaxRate: real := 0.102
  /** The member discount, a flat 15 % of the item total. */
  const MemberRate: real := 0.15
  /** The flat shipping fee, $25.00, added to every non-empty order. */
  const ShippingCents: int := 2500

  /** Which discount the cart page has settled on (`activeDiscount`). */
  datatype Discount = NoDiscount | Member | Volume

  /** Upper end of a tier; `Unbounded` is the JavaScript table's `Infinity`. */
  datatype Bound = Finite(cents: int) | Unbounded

  /** One row of the tier table; both ends are inclusive. */
  datatype Tier = Tier(min: int, max: Bound, rate: real)

  predicate InTier(t: Tier, subtotal: int) {
    subtotal >= t.min && (t.max.Unbounded? || subtotal <= t.max.cents)
  }

  /** The volume-discount tiers, in cents.

      The cart page's code writes the upper ends in dollars as 49.99, 99.99
      and 199.99, and compares floating-point subtotals against them. A float subtotal
      strictly between 49.99 and 50 (likewise 99.99..100, 199.99..200) lies
      in no tier, so the lookup falls through and returns no discount. In
      whole cents those gaps are empty: 4999 and 5000 are adjacent, and the
      tiers below cover every non-negative subtotal exactly once. */
  const VolumeTiers: seq<Tier> := [
    Tier(0, Finite(4999), 0.0),
    Tier(5000, Finite(9999), 0.05),
    Tier(10000, Finite(19999), 0.10),
    Tier(20000, Unbounded, 0.15)
  ]

  /** Reference definition of the volume rate, read off the published tier
      table: 0 % below $50, 5 % below $100, 10 % below $200, 15 % from $200. */
  function VolumeRate(subtotal: int): real {
    if subtotal >= 20000 then 0.15
    else if subtotal >= 10000 then 0.10
    else if subtotal >= 5000 then 0.05
    else 0.0
  }

  /** The volume discount in cents for a subtotal in cents: the rate of the
      first tier that contains the subtotal, times the subtotal; nothing when
      no tier contains it (a negative subtotal). */
  function VolumeDiscount(subtotal: int): (d: real)
    ensures subtotal >= 0 ==> 0.0 <= d <= subtotal as real
    ensures d > 0.0 <==> subtotal >= 5000
  {
    match FirstIndex((t: Tier) => InTier(t, subtotal), VolumeTiers)
    case None => 0.0
    case Some(i) => subtotal as real * VolumeTiers[i].rate
  }

  /** The member discount in cents: 15 % of the item total. */
  function MemberDiscount(itemTotal: int): (d: real)
    ensures itemTotal >= 0 ==> 0.0 <= d <= itemTotal as real
    ensures d > 0.0 <==> itemTotal > 0
  {
    itemTotal as real * MemberRate
  }

  /** Every non-negative subtotal lies in exactly one tier, and a negative
      one in none. */
  lemma TiersPartition(subtotal: int)
    ensures subtotal >= 0 ==> exists i :: 0 <= i < |VolumeTiers| && InTier(VolumeTiers[i], subtotal)
    ensures forall i, j :: 0 <= i < j < |VolumeTiers| ==>
      !(InTier(VolumeTiers[i], subtotal) && InTier(VolumeTiers[j], subtotal))
    ensures subtotal < 0 ==> forall i :: 0 <= i < |VolumeTiers| ==> !InTier(VolumeTiers[i], subtotal)
  {
    if subtotal >= 0 {
      var i := if subtotal >= 20000 then 3 else if subtotal >= 10000 then 2 else if subtotal >= 5000 then 1 else 0;
      assert InTier(VolumeTiers[i], subtotal);
    }
  }

  /** The first-match lookup over the tier table agrees with the published
      rates for every subtotal, negative ones included. */
  lemma VolumeDiscountMatchesTable(subtotal: int)
    ensures VolumeDiscount(subtotal) == subtotal as real * VolumeRate(subtotal)
  {
    var p := (t: Tier) => InTier(t, subtotal);
    var r := FirstIndex(p, VolumeTiers);
    TiersPartition(subtotal);
    if subtotal >= 0 {
      var k := if subtotal >= 20000 then 3 else if subtotal >= 10000 then 2 else if subtotal >= 5000 then 1 else 0;
      assert p(VolumeTiers[k]);
      assert r == Some(k);
    } else {
      assert r == None;
    }
  }

  /** The rate never falls as the subtotal grows, and nor does the discount. */
  lemma VolumeDiscountMonotone(a: int, b: int)
    requires 0 <= a <= b
    ensures VolumeRate(a) <= VolumeRate(b)
    ensures VolumeDiscount(a) <= VolumeDiscount(b)
  {
    VolumeDiscountMatchesTable(a);
    VolumeDiscountMatchesTable(b);
    assert a as real * VolumeRate(a) <= b as real * VolumeRate(a);
  }

  /** The boundary values of the tier table, in cents. */
  lemma TierBoundaries()
    ensures VolumeDiscount(4999) == 0.0
    ensures VolumeDiscount(5000) == 250.0
    ensures VolumeDiscount(9999) == 499.95
    ensures VolumeDiscount(10000) == 1000.0
    ensures VolumeDiscount(19999) == 1999.9
    ensures VolumeDiscount(20000) == 3000.0
  {
    VolumeDiscountMatchesTable(4999);
    VolumeDiscountMatchesTable(5000);
    VolumeDiscountMatchesTable(9999);
    VolumeDiscountMatchesTable(10000);
    VolumeDiscountMatchesTable(19999);
    VolumeDiscountMatchesTable(20000);
  }

  /** The invoice breakdown of one render, all amounts in cents. */
  datatype Invoice = Invoice(
    itemTotal: int,
    volumeDiscount: real,
    memberDiscount: real,
    shipping: real,
    taxable: real,
    tax: real,
    total: real)

  /** The fraction of the item total that the settled discount takes off,
      by the published rates. */
  function EffectiveRate(active: Discount, itemTotal: int): real {
    match active
    case NoDiscount => 0.0
    case Member => MemberRate
    case Volume => VolumeRate(itemTotal)
  }

  /** The invoice for an item total under the settled discount: only the
      settled discount is taken off, then the flat shipping is added, then tax
      is charged on the result. */
  function ComputeInvoice(itemTotal: int, active: Discount): (inv: Invoice)
    ensures inv.itemTotal == itemTotal
    ensures inv.volumeDiscount == 0.0 || inv.memberDiscount == 0.0
    ensures active != Volume ==> inv.volumeDiscount == 0.0
    ensures active != Member ==> inv.memberDiscount == 0.0
    ensures itemTotal >= 0 ==> 0.0 <= inv.volumeDiscount + inv.memberDiscount <= itemTotal as real
    ensures itemTotal >= 0 ==> inv.taxable >= ShippingCents as real
    ensures itemTotal >= 0 ==> 0.0 <= inv.tax && inv.taxable <= inv.total
    ensures inv.total == inv.taxable + inv.taxable * TaxRate
  {
    var volume := if active == Volume then VolumeDiscount(itemTotal) else 0.0;
    var member := if active == Member then MemberDiscount(itemTotal) else 0.0;
    var afterDiscounts := itemTotal as real - volume - member;
    var taxable := afterDiscounts + ShippingCents as real;
    var tax := taxable * TaxRate;
    Invoice(itemTotal, volume, member, ShippingCents as real, taxable, tax, taxable + tax)
  }

  /** The pipeline, stage by stage, for every item total and settled
      discount: the settled discount takes the published rate of the item
      total, shipping is the flat $25.00, tax is 10.2 % of the taxable amount,
      and the total is the taxable amount plus tax. In closed form the total
      is the discounted item total plus shipping, grossed up by the tax rate. */
  lemma InvoiceClosedForm(itemTotal: int, active: Discount)
    ensures var inv := ComputeInvoice(itemTotal, active);
      && inv.shipping == ShippingCents as real
      && inv.volumeDiscount + inv.memberDiscount == itemTotal as real * EffectiveRate(active, itemTotal)
      && inv.taxable == itemTotal as real - inv.volumeDiscount - inv.memberDiscount + inv.shipping
      && inv.tax == inv.taxable * TaxRate
      && inv.total == inv.taxable + inv.tax
    ensures ComputeInvoice(itemTotal, active).taxable
         == itemTotal as real * (1.0 - EffectiveRate(active, itemTotal)) + ShippingCents as real
    ensures ComputeInvoice(itemTotal, active).total
         == (itemTotal as real * (1.0 - EffectiveRate(active, itemTotal)) + ShippingCents as real) * (1.0 + TaxRate)
  {
    VolumeDiscountMatchesTable(itemTotal);
  }

  /** A $29.99 cart with no discount: taxable $54.99, tax $5.60898, total
      $60.59898 (shown as $60.60). */
  lemma ScenarioNoDiscount()
    ensures ComputeInvoice(2999, NoDiscount).taxable == 5499.0
    ensures ComputeInvoice(2999, NoDiscount).tax == 560.898
    ensures ComputeInvoice(2999, NoDiscount).total == 6059.898
  {
  }

  /** A $150.00 cart on the volume discount: $15.00 off, taxable $160.00,
      tax $16.32, total $176.32. */
  lemma ScenarioVolume()
    ensures ComputeInvoice(15000, Volume).volumeDiscount == 1500.0
    ensures ComputeInvoice(15000, Volume).taxable == 16000.0
    ensures ComputeInvoice(15000, Volume).tax == 1632.0
    ensures ComputeInvoice(15000, Volume).total == 17632.0
  {
    VolumeDiscountMatchesTable(15000);
  }

  /** The same $150.00 cart on the member discount: $22.50 off. */
  lemma ScenarioMember()
    ensures ComputeInvoice(15000, Member).memberDiscount == 2250.0
    ensures ComputeInvoice(15000, Member).taxable == 15250.0
    ensures ComputeInvoice(15000, Member).total == 16805.5
  {
  }
}
