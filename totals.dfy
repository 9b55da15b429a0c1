/**
 * The totals pipeline of src/Cart.php (`total`, `setOtherCharges` and the
 * `sum` closures it folds the collections with), as functions on the stored
 * values in insertion order.
 */
module Totals {
  import opened Collections
  import opened Numbers
  import opened Records

  /** `$collection->sum($f)`: the sum of f over the values. */
  function Sum<T>(s: seq<T>, f: T -> real): real {
    if s == [] then 0.0 else f(s[0]) + Sum(s[1..], f)
  }

  /** Folding from the front agrees with accumulating in order, one value at a time. */
  lemma {:induction false} SumAppend<T>(s: seq<T>, x: T, f: T -> real)
    ensures Sum(s + [x], f) == Sum(s, f) + f(x)
  {
    if s == [] {
      assert [x][1..] == [];
    } else {
      assert (s + [x])[1..] == s[1..] + [x];
      SumAppend(s[1..], x, f);
    }
  }

  function LineAmount(item: Item): real {
    item.quantity as real * item.price
  }

  function ItemDiscount(item: Item): real {
    PercentageValue(item.discount)
  }

  function ItemTax(item: Item): real {
    PercentageValue(item.tax)
  }

  function CouponDiscount(coupon: Coupon): real {
    PercentageValue(coupon.discount)
  }

  /**
   * `setOtherCharges`: the other charges as an array from name to amount,
   * filled in order, so a later charge replaces an earlier one of the same
   * name.
   */
  function ChargesByName(charges: seq<OtherCharge>): (byName: Collection<string>)
    ensures byName.Valid()
  {
    if charges == [] then Empty()
    else
      var last := charges[|charges| - 1];
      ChargesByName(charges[..|charges| - 1]).Put(last.name, last.amount)
  }

  /** The coupon part of the breakdown. */
  datatype CouponLine = CouponLine(couponDiscount: real, total: real)

  /**
   * The `summarized` breakdown: `coupon` is present exactly when the cart has
   * coupons; `charges` are the name-keyed other charges.
   */
  datatype Summary = Summary(
    amount: real, discount: real, subTotal: real, taxes: real,
    coupon: Option<CouponLine>, charges: Collection<string>, totalDue: real)

  /** What `total` returns: the figure due, or the whole breakdown. */
  datatype TotalResult = Due(value: real) | Summarized(summary: Summary)

  /**
   * The arithmetic of `total`, given the folded figures: the item discount
   * applied to the amount gives the subtotal and the tax is taken on it; with
   * coupons, the coupon discount applies to the subtotal and the tax is taken
   * again on the discounted total. Other charges come last.
   */
  function Pipeline(amount: real, discountRate: real, taxRate: real, couponRate: Option<real>,
                    byName: Collection<string>, chargesValue: real): Summary
  {
    var discount := amount * discountRate;
    var subTotal := amount + discount;
    if couponRate.Some? then
      var couponDiscount := subTotal * couponRate.value;
      var total := subTotal + couponDiscount;
      var taxes := total * taxRate;
      Summary(amount, discount, subTotal, taxes,
              Some(CouponLine(couponDiscount, total)), byName, total + taxes + chargesValue)
    else
      var taxes := subTotal * taxRate;
      Summary(amount, discount, subTotal, taxes, None, byName, subTotal + taxes + chargesValue)
  }

  /** The rate the coupons give: their summed discounts, when there is any coupon. */
  function CouponRate(coupons: seq<Coupon>): (rate: Option<real>)
    ensures rate.Some? <==> |coupons| > 0
  {
    if |coupons| > 0 then Some(Sum(coupons, CouponDiscount)) else None
  }

  /** `total`: the collections folded into the figures, then the pipeline. */
  function Summarize(items: seq<Item>, coupons: seq<Coupon>, charges: seq<OtherCharge>): Summary
  {
    var byName := ChargesByName(charges);
    Pipeline(Sum(items, LineAmount), Sum(items, ItemDiscount), Sum(items, ItemTax),
             CouponRate(coupons), byName, Sum(byName.Values(), LeadingNumber))
  }

  // ---------------------------------------------------------------------
  // Properties of the other charges.

  ghost predicate Named(charges: seq<OtherCharge>, name: string) {
    exists i :: 0 <= i < |charges| && charges[i].name == name
  }

  /** charges[i] is the last charge called name. */
  ghost predicate LastNamed(charges: seq<OtherCharge>, i: int, name: string) {
    0 <= i < |charges| && charges[i].name == name &&
    forall j :: i < j < |charges| ==> charges[j].name != name
  }

  /** A name appears in the breakdown exactly when some charge has it. */
  lemma {:induction false} ChargesByNameHas(charges: seq<OtherCharge>, name: string)
    ensures name in ChargesByName(charges).entries <==> Named(charges, name)
  {
    if charges != [] {
      var front := charges[..|charges| - 1];
      var last := charges[|charges| - 1];
      ChargesByNameHas(front, name);
      NamedSplit(charges, name);
      assert ChargesByName(charges).entries.Keys == ChargesByName(front).entries.Keys + {last.name};
    }
  }

  lemma NamedSplit(charges: seq<OtherCharge>, name: string)
    requires charges != []
    ensures Named(charges, name) <==>
              Named(charges[..|charges| - 1], name) || charges[|charges| - 1].name == name
  {
    var front := charges[..|charges| - 1];
    if Named(charges, name) {
      var i :| 0 <= i < |charges| && charges[i].name == name;
      if i < |front| { assert front[i] == charges[i]; }
    }
    if Named(front, name) {
      var i :| 0 <= i < |front| && front[i].name == name;
      assert charges[i] == front[i];
    }
  }

  /** The breakdown holds the amount of the last charge of each name. */
  lemma {:induction false} ChargesByNameLastWins(charges: seq<OtherCharge>, i: nat, name: string)
    requires LastNamed(charges, i, name)
    ensures name in ChargesByName(charges).entries
    ensures ChargesByName(charges).entries[name] == charges[i].amount
  {
    var front := charges[..|charges| - 1];
    var last := charges[|charges| - 1];
    assert ChargesByName(charges).entries == ChargesByName(front).entries[last.name := last.amount];
    if i < |front| {
      assert last.name != name;
      assert LastNamed(front, i, name);
      ChargesByNameLastWins(front, i, name);
    }
  }

  /** The other-charge breakdown has one entry per distinct charge name. */
  lemma ChargesByNameKeys(charges: seq<OtherCharge>)
    ensures ChargesByName(charges).entries.Keys == set i | 0 <= i < |charges| :: charges[i].name
    ensures ChargesByName(charges).Count() == |set i | 0 <= i < |charges| :: charges[i].name|
  {
    var names := set i | 0 <= i < |charges| :: charges[i].name;
    forall name
      ensures name in ChargesByName(charges).entries <==> name in names
    {
      ChargesByNameHas(charges, name);
      if Named(charges, name) {
        var i :| 0 <= i < |charges| && charges[i].name == name;
        assert name in names;
      }
    }
  }

  // ---------------------------------------------------------------------
  // Properties of the pipeline.

  /**
   * The steps compose to one formula: the amount scaled by the item discount,
   * the coupon discount (only when there are coupons) and the tax, plus the
   * other charges.
   */
  lemma PipelineClosedForm(amount: real, discountRate: real, taxRate: real,
                           couponRate: Option<real>, byName: Collection<string>, chargesValue: real)
    ensures var s := Pipeline(amount, discountRate, taxRate, couponRate, byName, chargesValue);
            var c := if couponRate.Some? then couponRate.value else 0.0;
            && s.amount == amount
            && s.subTotal == amount * (1.0 + discountRate)
            && s.totalDue == amount * (1.0 + discountRate) * (1.0 + c) * (1.0 + taxRate) + chargesValue
            && (s.coupon.Some? <==> couponRate.Some?)
            && (s.coupon.Some? ==> s.coupon.value.total == amount * (1.0 + discountRate) * (1.0 + c))
  {
    var a, d, t := amount, discountRate, taxRate;
    var c := if couponRate.Some? then couponRate.value else 0.0;
    var sub := a + a * d;
    assert sub == a * (1.0 + d);
    var total := sub + sub * c;
    assert total == sub * (1.0 + c);
    assert total + total * t == total * (1.0 + t);
    assert sub + sub * t == sub * (1.0 + t);
    assert sub * (1.0 + 0.0) == sub;
  }

  /** Summed item discounts of validated items are never positive. */
  lemma {:induction false} DiscountRateNonPositive(items: seq<Item>)
    requires forall i :: 0 <= i < |items| ==> WellFormedItem(items[i])
    ensures Sum(items, ItemDiscount) <= 0.0
  {
    if items != [] {
      DiscountRateNonPositive(items[1..]);
      if items[0].discount == NO_PERCENTAGE {
        ZeroPercent();
      } else {
        DiscountFractionNonPositive(items[0].discount);
      }
    }
  }

  /** Summed item taxes of validated items are never negative. */
  lemma {:induction false} TaxRateNonNegative(items: seq<Item>)
    requires forall i :: 0 <= i < |items| ==> WellFormedItem(items[i])
    ensures Sum(items, ItemTax) >= 0.0
  {
    if items != [] {
      TaxRateNonNegative(items[1..]);
      TaxFractionNonNegative(items[0].tax);
    }
  }

  /** Summed coupon discounts of validated coupons are never positive. */
  lemma {:induction false} CouponRateNonPositive(coupons: seq<Coupon>)
    requires forall i :: 0 <= i < |coupons| ==> WellFormedCoupon(coupons[i])
    ensures Sum(coupons, CouponDiscount) <= 0.0
  {
    if coupons != [] {
      CouponRateNonPositive(coupons[1..]);
      DiscountFractionNonPositive(coupons[0].discount);
    }
  }

  /**
   * The discounts never raise a figure: the item discount is at most 0 and
   * the subtotal at most the amount. Without coupons, the tax on a
   * non-negative subtotal is at least 0; with coupons, the coupon discount on
   * a non-negative subtotal is at most 0 and lowers it to the total, and the
   * tax on a non-negative total is at least 0.
   */
  ghost predicate DiscountsLower(s: Summary) {
    && s.discount <= 0.0 && s.subTotal <= s.amount
    && (s.subTotal >= 0.0 && s.coupon.None? ==> s.taxes >= 0.0)
    && (s.subTotal >= 0.0 && s.coupon.Some? ==>
          s.coupon.value.couponDiscount <= 0.0 && s.coupon.value.total <= s.subTotal)
    && (s.coupon.Some? && s.coupon.value.total >= 0.0 ==> s.taxes >= 0.0)
  }

  /**
   * With a non-negative amount, non-positive discounts and a non-negative tax
   * rate, discounts never raise a figure: the item discount lowers the amount
   * to the subtotal, and the coupon discount lowers a non-negative subtotal.
   * The tax is at least 0 when the figure it is taken on (the subtotal
   * without coupons, the total with them) is.
   */
  lemma PipelineDiscountsOnlyLower(amount: real, discountRate: real, taxRate: real,
                                   couponRate: Option<real>, byName: Collection<string>,
                                   chargesValue: real)
    requires amount >= 0.0 && discountRate <= 0.0 && taxRate >= 0.0
    requires couponRate.Some? ==> couponRate.value <= 0.0
    ensures DiscountsLower(Pipeline(amount, discountRate, taxRate, couponRate, byName, chargesValue))
  {
    var sub := amount + amount * discountRate;
    if sub >= 0.0 {
      assert sub * taxRate >= 0.0;
      if couponRate.Some? { assert sub * couponRate.value <= 0.0; }
    }
    if couponRate.Some? {
      var total := sub + sub * couponRate.value;
      if total >= 0.0 { assert total * taxRate >= 0.0; }
    }
  }

  /** The same for the figures a validated cart produces. */
  lemma DiscountsOnlyLower(items: seq<Item>, coupons: seq<Coupon>, charges: seq<OtherCharge>)
    requires forall i :: 0 <= i < |items| ==> WellFormedItem(items[i])
    requires forall i :: 0 <= i < |coupons| ==> WellFormedCoupon(coupons[i])
    requires Sum(items, LineAmount) >= 0.0
    ensures DiscountsLower(Summarize(items, coupons, charges))
  {
    DiscountRateNonPositive(items);
    TaxRateNonNegative(items);
    CouponRateNonPositive(coupons);
    var byName := ChargesByName(charges);
    PipelineDiscountsOnlyLower(Sum(items, LineAmount), Sum(items, ItemDiscount), Sum(items, ItemTax),
                               CouponRate(coupons), byName, Sum(byName.Values(), LeadingNumber));
  }

  /** An empty cart is due exactly its other charges. */
  lemma EmptyCartDue(charges: seq<OtherCharge>)
    ensures Summarize([], [], charges).totalDue == Sum(ChargesByName(charges).Values(), LeadingNumber)
    ensures Summarize([], [], charges).amount == 0.0
  {
  }

  // ---------------------------------------------------------------------
  // The worked examples: one Widget (2 at 10, 10% tax, -10% discount), first
  // without and then with a -5% coupon.

  const WIDGET := Item("1", "Widget", 2, 10.0, "10%", "-10%")

  lemma WidgetSums()
    ensures Sum([WIDGET], LineAmount) == 20.0
    ensures Sum([WIDGET], ItemDiscount) == -0.1
    ensures Sum([WIDGET], ItemTax) == 0.1
  {
    TenPercent();
    assert [WIDGET][1..] == [];
  }

  lemma NoCharges()
    ensures ChargesByName([]) == Empty()
    ensures Sum(Empty<string>().Values(), LeadingNumber) == 0.0
  {
  }

  lemma WidgetTotal()
    ensures var s := Summarize([WIDGET], [], []);
            s.amount == 20.0 && s.discount == -2.0 && s.subTotal == 18.0 &&
            s.taxes == 1.8 && s.totalDue == 19.8
  {
    WidgetSums();
    NoCharges();
  }

  lemma WidgetWithCouponTotal()
    ensures var s := Summarize([WIDGET], [Coupon("c", "Five off", "FIVE", "-5%")], []);
            s.subTotal == 18.0 && s.coupon == Some(CouponLine(-0.9, 17.1)) &&
            s.taxes == 1.71 && s.totalDue == 18.81
  {
    WidgetSums();
    NoCharges();
    var coupons := [Coupon("c", "Five off", "FIVE", "-5%")];
    FivePercent();
    assert coupons[1..] == [];
    assert CouponRate(coupons) == Some(-0.05);
  }
}
