/**
 * The cart of src/Cart.php. The three session entries it reads and writes
 * back on every call (items, coupons, other charges) are three fields; each
 * operation reads a collection, changes one entry and stores the collection
 * again, or throws (returns `Failed`) before anything is stored.
 */
module ShoppingCart {
  import opened Collections
  import opened Patterns
  import opened Numbers
  import opened Records
  import opened Totals

  /** Stored items are keyed by their own id and passed validation. */
  ghost predicate ValidItems(c: Collection<Item>) {
    c.Valid() && forall k :: k in c.entries ==> c.entries[k].id == k && WellFormedItem(c.entries[k])
  }

  ghost predicate ValidCoupons(c: Collection<Coupon>) {
    c.Valid() && forall k :: k in c.entries ==> c.entries[k].id == k && WellFormedCoupon(c.entries[k])
  }

  ghost predicate ValidOtherCharges(c: Collection<OtherCharge>) {
    c.Valid() &&
    forall k :: k in c.entries ==> c.entries[k].id == k && WellFormedOtherCharge(c.entries[k])
  }

  // Storing a validated record, or taking one out, keeps each collection valid.

  lemma PutItem(c: Collection<Item>, item: Item)
    requires ValidItems(c) && WellFormedItem(item)
    ensures ValidItems(c.Put(item.id, item))
  {
  }

  lemma ForgetItem(c: Collection<Item>, k: Key)
    requires ValidItems(c)
    ensures ValidItems(c.Forget(k))
  {
  }

  lemma PutCoupon(c: Collection<Coupon>, coupon: Coupon)
    requires ValidCoupons(c) && WellFormedCoupon(coupon)
    ensures ValidCoupons(c.Put(coupon.id, coupon))
  {
  }

  lemma ForgetCoupon(c: Collection<Coupon>, k: Key)
    requires ValidCoupons(c)
    ensures ValidCoupons(c.Forget(k))
  {
  }

  lemma PutOtherCharge(c: Collection<OtherCharge>, charge: OtherCharge)
    requires ValidOtherCharges(c) && WellFormedOtherCharge(charge)
    ensures ValidOtherCharges(c.Put(charge.id, charge))
  {
  }

  lemma ForgetOtherCharge(c: Collection<OtherCharge>, k: Key)
    requires ValidOtherCharges(c)
    ensures ValidOtherCharges(c.Forget(k))
  {
  }

  /**
   * Because every stored record passed validation, the discounts of a cart
   * with a non-negative amount never raise its figures.
   */
  lemma StoredDiscountsLower(items: Collection<Item>, coupons: Collection<Coupon>,
                             otherCharges: Collection<OtherCharge>)
    requires ValidItems(items) && ValidCoupons(coupons) && ValidOtherCharges(otherCharges)
    ensures Sum(items.Values(), LineAmount) >= 0.0 ==>
              DiscountsLower(Summarize(items.Values(), coupons.Values(), otherCharges.Values()))
  {
    var storedItems, storedCoupons := items.Values(), coupons.Values();
    forall i | 0 <= i < |storedItems|
      ensures WellFormedItem(storedItems[i])
    {
      assert items.keys[i] in items.entries;
    }
    forall i | 0 <= i < |storedCoupons|
      ensures WellFormedCoupon(storedCoupons[i])
    {
      assert coupons.keys[i] in coupons.entries;
    }
    if Sum(storedItems, LineAmount) >= 0.0 {
      DiscountsOnlyLower(storedItems, storedCoupons, otherCharges.Values());
    }
  }

  class Cart {
    var items: Collection<Item>
    var coupons: Collection<Coupon>
    var otherCharges: Collection<OtherCharge>

    ghost predicate Valid()
      reads this
    {
      ValidItems(items) && ValidCoupons(coupons) && ValidOtherCharges(otherCharges)
    }

    /**
     * `__construct` and `validateSessions`: each collection the session
     * already holds is kept, and each one it lacks starts empty.
     */
    constructor (savedItems: Option<Collection<Item>>, savedCoupons: Option<Collection<Coupon>>,
                 savedOtherCharges: Option<Collection<OtherCharge>>)
      requires savedItems.Some? ==> ValidItems(savedItems.value)
      requires savedCoupons.Some? ==> ValidCoupons(savedCoupons.value)
      requires savedOtherCharges.Some? ==> ValidOtherCharges(savedOtherCharges.value)
      ensures Valid()
      ensures items == if savedItems.Some? then savedItems.value else Empty()
      ensures coupons == if savedCoupons.Some? then savedCoupons.value else Empty()
      ensures otherCharges == if savedOtherCharges.Some? then savedOtherCharges.value else Empty()
    {
      items := if savedItems.Some? then savedItems.value else Empty();
      coupons := if savedCoupons.Some? then savedCoupons.value else Empty();
      otherCharges := if savedOtherCharges.Some? then savedOtherCharges.value else Empty();
    }

    /**
     * `add`: a validated item whose id is stored raises the stored quantity
     * by the new quantity and keeps everything else of the stored record; a
     * new id is appended as the validated record.
     */
    method Add(data: ItemData) returns (r: Outcome)
      requires Valid()
      modifies this
      ensures Valid()
      ensures coupons == old(coupons) && otherCharges == old(otherCharges)
      ensures ValidateItemData(data).Err? ==>
                r == Failed(ValidateItemData(data).error) && items == old(items)
      ensures ValidateItemData(data).Ok? ==> r == Done
      ensures ValidateItemData(data).Ok? && ValidateItemData(data).value.id in old(items).entries ==>
                var item := ValidateItemData(data).value;
                var stored := old(items).entries[item.id];
                && items.keys == old(items).keys
                && items.entries == old(items).entries[item.id := Restocked(stored, item.quantity)]
      ensures ValidateItemData(data).Ok? && ValidateItemData(data).value.id !in old(items).entries ==>
                var item := ValidateItemData(data).value;
                && items.keys == old(items).keys + [item.id]
                && items.entries == old(items).entries[item.id := item]
    {
      var validated := ValidateItemData(data);
      if validated.Err? {
        return Failed(validated.error);
      }
      var item := validated.value;
      var cartItems := items;
      if item.id in cartItems.entries {
        var stored := cartItems.entries[item.id];
        stored := Restocked(stored, item.quantity);
        PutItem(cartItems, stored);
        items := cartItems.Put(item.id, stored);
      } else {
        PutItem(cartItems, item);
        items := cartItems.Put(item.id, item);
      }
      r := Done;
    }

    /** `addCoupon`: a validated coupon is stored under its id, replacing any coupon there. */
    method AddCoupon(data: CouponData) returns (r: Outcome)
      requires Valid()
      modifies this
      ensures Valid()
      ensures items == old(items) && otherCharges == old(otherCharges)
      ensures ValidateCouponData(data).Err? ==>
                r == Failed(ValidateCouponData(data).error) && coupons == old(coupons)
      ensures ValidateCouponData(data).Ok? ==>
                var coupon := ValidateCouponData(data).value;
                && r == Done
                && coupons.entries == old(coupons).entries[coupon.id := coupon]
                && coupons.keys == if coupon.id in old(coupons).entries then old(coupons).keys
                                   else old(coupons).keys + [coupon.id]
    {
      var validated := ValidateCouponData(data);
      if validated.Err? {
        return Failed(validated.error);
      }
      var coupon := validated.value;
      PutCoupon(coupons, coupon);
      coupons := coupons.Put(coupon.id, coupon);
      r := Done;
    }

    /** `addOtherCharge`: a validated charge is stored under its id, replacing any charge there. */
    method AddOtherCharge(data: OtherChargeData) returns (r: Outcome)
      requires Valid()
      modifies this
      ensures Valid()
      ensures items == old(items) && coupons == old(coupons)
      ensures ValidateOtherChargeData(data).Err? ==>
                r == Failed(ValidateOtherChargeData(data).error) && otherCharges == old(otherCharges)
      ensures ValidateOtherChargeData(data).Ok? ==>
                var charge := ValidateOtherChargeData(data).value;
                && r == Done
                && otherCharges.entries == old(otherCharges).entries[charge.id := charge]
                && otherCharges.keys == if charge.id in old(otherCharges).entries then old(otherCharges).keys
                                        else old(otherCharges).keys + [charge.id]
    {
      var validated := ValidateOtherChargeData(data);
      if validated.Err? {
        return Failed(validated.error);
      }
      var charge := validated.value;
      PutOtherCharge(otherCharges, charge);
      otherCharges := otherCharges.Put(charge.id, charge);
      r := Done;
    }

    /**
     * `update`, as intended: a validated item replaces the whole stored
     * record of its id, quantity included; an id that is not stored fails.
     */
    method Update(data: ItemData) returns (r: Outcome)
      requires Valid()
      modifies this
      ensures Valid()
      ensures coupons == old(coupons) && otherCharges == old(otherCharges)
      ensures ValidateItemData(data).Err? ==>
                r == Failed(ValidateItemData(data).error) && items == old(items)
      ensures ValidateItemData(data).Ok? && ValidateItemData(data).value.id !in old(items).entries ==>
                r == Failed(ItemNotFound(ValidateItemData(data).value.id)) && items == old(items)
      ensures ValidateItemData(data).Ok? && ValidateItemData(data).value.id in old(items).entries ==>
                var item := ValidateItemData(data).value;
                && r == Done
                && items.keys == old(items).keys
                && items.entries == old(items).entries[item.id := item]
    {
      var validated := ValidateItemData(data);
      if validated.Err? {
        return Failed(validated.error);
      }
      var item := validated.value;
      var cartItems := items;
      if item.id !in cartItems.entries {
        return Failed(ItemNotFound(item.id));
      }
      PutItem(cartItems, item);
      items := cartItems.Put(item.id, item);
      r := Done;
    }

    /**
     * `update` as the source has it: the stored items are used before they
     * are fetched, so after validation the call always fails, whatever the
     * cart holds.
     */
    method UpdateAsWritten(data: ItemData) returns (r: Outcome)
      ensures ValidateItemData(data).Err? ==> r == Failed(ValidateItemData(data).error)
      ensures ValidateItemData(data).Ok? ==> r == Failed(UndefinedItems)
    {
      var validated := ValidateItemData(data);
      if validated.Err? {
        return Failed(validated.error);
      }
      r := Failed(UndefinedItems);
    }

    /**
     * `remove`: an id that is not stored fails. Without a quantity the entry
     * is deleted. With one, a larger stored quantity is lowered by it, an
     * equal one deletes the entry, and a smaller one fails and keeps the
     * cart as it was.
     */
    method Remove(itemId: Key, quantity: Option<int>) returns (r: Outcome)
      requires Valid()
      modifies this
      ensures Valid()
      ensures coupons == old(coupons) && otherCharges == old(otherCharges)
      ensures itemId !in old(items).entries ==>
                r == Failed(ItemNotFound(itemId)) && items == old(items)
      ensures itemId in old(items).entries ==>
                var stored := old(items).entries[itemId];
                && (quantity.None? ==> r == Done && items == old(items).Forget(itemId))
                && (quantity.Some? && stored.quantity > quantity.value ==>
                      && r == Done
                      && items.keys == old(items).keys
                      && items.entries == old(items).entries[itemId := Withdrawn(stored, quantity.value)])
                && (quantity.Some? && stored.quantity == quantity.value ==>
                      r == Done && items == old(items).Forget(itemId))
                && (quantity.Some? && stored.quantity < quantity.value ==>
                      && r == Failed(InsufficientQuantity(itemId, quantity.value, stored.quantity))
                      && items == old(items))
    {
      var cartItems := items;
      if itemId !in cartItems.entries {
        return Failed(ItemNotFound(itemId));
      }
      if quantity.Some? {
        var item := cartItems.entries[itemId];
        if item.quantity > quantity.value {
          item := Withdrawn(item, quantity.value);
          PutItem(cartItems, item);
          items := cartItems.Put(itemId, item);
        } else if item.quantity == quantity.value {
          ForgetItem(cartItems, itemId);
          items := cartItems.Forget(itemId);
        } else {
          return Failed(InsufficientQuantity(itemId, quantity.value, item.quantity));
        }
      } else {
        ForgetItem(cartItems, itemId);
        items := cartItems.Forget(itemId);
      }
      r := Done;
    }

    /** `removeCoupon`: an id that is not stored fails; otherwise exactly that coupon goes. */
    method RemoveCoupon(couponId: Key) returns (r: Outcome)
      requires Valid()
      modifies this
      ensures Valid()
      ensures items == old(items) && otherCharges == old(otherCharges)
      ensures couponId !in old(coupons).entries ==>
                r == Failed(CouponNotFound(couponId)) && coupons == old(coupons)
      ensures couponId in old(coupons).entries ==>
                && r == Done
                && coupons == old(coupons).Forget(couponId)
                && coupons.entries == old(coupons).entries - {couponId}
    {
      var cartCoupons := coupons;
      if couponId !in cartCoupons.entries {
        return Failed(CouponNotFound(couponId));
      }
      ForgetCoupon(cartCoupons, couponId);
      coupons := cartCoupons.Forget(couponId);
      r := Done;
    }

    /** `removeOtherCharge`: an id that is not stored fails; otherwise exactly that charge goes. */
    method RemoveOtherCharge(otherChargeId: Key) returns (r: Outcome)
      requires Valid()
      modifies this
      ensures Valid()
      ensures items == old(items) && coupons == old(coupons)
      ensures otherChargeId !in old(otherCharges).entries ==>
                r == Failed(OtherChargeNotFound(otherChargeId)) && otherCharges == old(otherCharges)
      ensures otherChargeId in old(otherCharges).entries ==>
                && r == Done
                && otherCharges == old(otherCharges).Forget(otherChargeId)
                && otherCharges.entries == old(otherCharges).entries - {otherChargeId}
    {
      var cartOtherCharges := otherCharges;
      if otherChargeId !in cartOtherCharges.entries {
        return Failed(OtherChargeNotFound(otherChargeId));
      }
      ForgetOtherCharge(cartOtherCharges, otherChargeId);
      otherCharges := cartOtherCharges.Forget(otherChargeId);
      r := Done;
    }

    /** `clear`: all three collections start over empty. */
    method Clear()
      requires Valid()
      modifies this
      ensures Valid()
      ensures items == Empty() && coupons == Empty() && otherCharges == Empty()
    {
      items := Empty();
      coupons := Empty();
      otherCharges := Empty();
    }

    /** `all`: the stored items in insertion order; an id added again after its removal comes last. */
    method All() returns (r: seq<Item>)
      requires Valid()
      ensures |r| == |items.keys| == |items.entries|
      ensures forall i :: 0 <= i < |r| ==> r[i] == items.entries[items.keys[i]] && r[i].id == items.keys[i]
    {
      r := items.Values();
      assert |items.entries| == items.Count();
    }

    /** `count`: the number of distinct item ids; `distinct` changes nothing. */
    method Count(distinct: bool) returns (n: nat)
      requires Valid()
      ensures n == |items.entries|
    {
      n := items.Count();
    }

    /**
     * `setOtherCharges`: the other charges as an array from name to amount,
     * in order, so the last charge of a name gives its amount.
     */
    method SetOtherCharges() returns (byName: Collection<string>)
      requires Valid()
      ensures byName == ChargesByName(otherCharges.Values())
    {
      var charges := otherCharges.Values();
      byName := Empty();
      var i := 0;
      while i < |charges|
        invariant 0 <= i <= |charges|
        invariant byName == ChargesByName(charges[..i])
      {
        var charge := charges[i];
        assert charges[..i + 1][..i] == charges[..i];
        byName := byName.Put(charge.name, charge.amount);
        i := i + 1;
      }
      assert charges[..i] == charges;
    }

    /**
     * `total`: the figures are built up one step after another; with coupons
     * the tax is taken again on the discounted total. With `summarized` the
     * whole breakdown is returned, otherwise the figure due.
     */
    method Total(summarized: bool) returns (r: TotalResult)
      requires Valid()
      ensures var s := Summarize(items.Values(), coupons.Values(), otherCharges.Values());
              r == if summarized then Summarized(s) else Due(s.totalDue)
      ensures Sum(items.Values(), LineAmount) >= 0.0 ==>
                DiscountsLower(Summarize(items.Values(), coupons.Values(), otherCharges.Values()))
    {
      StoredDiscountsLower(items, coupons, otherCharges);
      var cartItems := items.Values();
      var amount := Sum(cartItems, LineAmount);
      var discountRate := Sum(cartItems, ItemDiscount);
      var taxRate := Sum(cartItems, ItemTax);
      var summary: Summary;
      if coupons.Count() > 0 {
        var couponRate := Sum(coupons.Values(), CouponDiscount);
        var byName := SetOtherCharges();
        var chargesValue := Sum(byName.Values(), LeadingNumber);
        summary := Steps(amount, discountRate, taxRate, Some(couponRate), byName, chargesValue);
      } else {
        var byName := SetOtherCharges();
        var chargesValue := Sum(byName.Values(), LeadingNumber);
        summary := Steps(amount, discountRate, taxRate, None, byName, chargesValue);
      }
      if summarized {
        return Summarized(summary);
      }
      return Due(summary.totalDue);
    }

    /** The `$summary` array filled key by key. */
    static method Steps(amount: real, discountRate: real, taxRate: real, couponRate: Option<real>,
                        byName: Collection<string>, chargesValue: real) returns (s: Summary)
      ensures s == Pipeline(amount, discountRate, taxRate, couponRate, byName, chargesValue)
    {
      var discount := amount * discountRate;
      var subTotal := amount + discount;
      var taxes := subTotal * taxRate;
      var couponLine: Option<CouponLine> := None;
      var totalDue: real;
      if couponRate.Some? {
        var couponDiscount := subTotal * couponRate.value;
        var total := subTotal + couponDiscount;
        couponLine := Some(CouponLine(couponDiscount, total));
        taxes := total * taxRate;
        totalDue := total + taxes + chargesValue;
      } else {
        totalDue := subTotal + taxes + chargesValue;
      }
      s := Summary(amount, discount, subTotal, taxes, couponLine, byName, totalDue);
      var expected := Pipeline(amount, discountRate, taxRate, couponRate, byName, chargesValue);
      if couponRate.Some? {
        assert expected.coupon.Some?;
        assert expected.coupon.value.couponDiscount == subTotal * couponRate.value;
        assert expected.coupon.value.total == subTotal + subTotal * couponRate.value;
      } else {
        assert expected.coupon == None;
      }
    }
  }

  /**
   * The update defect on a concrete cart: the item is stored, the intended
   * update replaces it, and the update as written fails.
   */
  method UpdateDiscrepancy() returns (intended: Outcome, asWritten: Outcome)
    ensures intended == Done
    ensures asWritten == Failed(UndefinedItems)
  {
    var data := ItemData(Some("1"), Some("Widget"), Some(2), Some(10.0), Some("10%"), Some("-10%"));
    assert ValidateTaxPercentage("10%") by { assert DigitRun("10%") == 2; }
    assert ValidateDiscountPercentage("-10%") by { assert "-10%"[1..] == "10%"; assert DigitRun("10%") == 2; }
    var cart := new Cart(None, None, None);
    var added := cart.Add(data);
    intended := cart.Update(data);
    asWritten := cart.UpdateAsWritten(data);
  }

  /** A fresh cart into which two Widgets were added. */
  method WidgetCart() returns (cart: Cart)
    ensures fresh(cart) && cart.Valid()
    ensures cart.items.Values() == [WIDGET]
    ensures cart.coupons == Empty() && cart.otherCharges == Empty()
  {
    var data := ItemData(Some("1"), Some("Widget"), Some(2), Some(10.0), Some("10%"), Some("-10%"));
    assert ValidateTaxPercentage("10%") by { assert DigitRun("10%") == 2; }
    assert ValidateDiscountPercentage("-10%") by { assert "-10%"[1..] == "10%"; assert DigitRun("10%") == 2; }
    cart := new Cart(None, None, None);
    var added := cart.Add(data);
  }

  /** The same cart after a "-5%" coupon was added. */
  method WidgetCouponCart() returns (cart: Cart)
    ensures fresh(cart) && cart.Valid()
    ensures cart.items.Values() == [WIDGET]
    ensures cart.coupons.Values() == [Coupon("c", "Five off", "FIVE", "-5%")]
    ensures cart.otherCharges == Empty()
  {
    cart := WidgetCart();
    var five := CouponData(Some("c"), Some("Five off"), Some("FIVE"), Some("-5%"));
    assert ValidateDiscountPercentage("-5%") by { assert "-5%"[1..] == "5%"; assert DigitRun("5%") == 1; }
    var added := cart.AddCoupon(five);
  }

  /**
   * The worked example through the class: two Widgets at 10.0 with tax "10%"
   * and discount "-10%" are due 19.8; after a "-5%" coupon they are due 18.81.
   */
  method WidgetCheckout() returns (due: TotalResult, dueWithCoupon: TotalResult)
    ensures due == Due(19.8)
    ensures dueWithCoupon == Due(18.81)
  {
    var cart := WidgetCart();
    assert cart.coupons.Values() == [] && cart.otherCharges.Values() == [];
    WidgetTotal();
    due := cart.Total(false);
    var couponCart := WidgetCouponCart();
    assert couponCart.otherCharges.Values() == [];
    WidgetWithCouponTotal();
    dueWithCoupon := couponCart.Total(false);
  }

  // ---------------------------------------------------------------------
  // Quantities. The source checks a quantity only for being set, so a
  // negative one is stored as given; what it does keep is that removing never
  // takes a quantity below 0, and that adding or updating with a quantity of
  // at least 0 keeps every stored quantity at least 0.

  /** Every stored item has a quantity of at least 0. */
  ghost predicate NonNegativeQuantities(c: Collection<Item>) {
    forall k :: k in c.entries ==> c.entries[k].quantity >= 0
  }

  /** `add` with a quantity of at least 0 keeps every stored quantity at least 0. */
  method AddKeepsQuantities(cart: Cart, data: ItemData) returns (r: Outcome)
    requires cart.Valid() && NonNegativeQuantities(cart.items)
    requires data.quantity.Some? ==> data.quantity.value >= 0
    modifies cart
    ensures cart.Valid() && NonNegativeQuantities(cart.items)
  {
    r := cart.Add(data);
  }

  /** `update` with a quantity of at least 0 keeps every stored quantity at least 0. */
  method UpdateKeepsQuantities(cart: Cart, data: ItemData) returns (r: Outcome)
    requires cart.Valid() && NonNegativeQuantities(cart.items)
    requires data.quantity.Some? ==> data.quantity.value >= 0
    modifies cart
    ensures cart.Valid() && NonNegativeQuantities(cart.items)
  {
    r := cart.Update(data);
  }

  /** `remove` never takes a stored quantity below 0, whatever quantity it is given. */
  method RemoveKeepsQuantities(cart: Cart, itemId: Key, quantity: Option<int>) returns (r: Outcome)
    requires cart.Valid() && NonNegativeQuantities(cart.items)
    modifies cart
    ensures cart.Valid() && NonNegativeQuantities(cart.items)
  {
    r := cart.Remove(itemId, quantity);
  }

  /**
   * The quantity is not checked: `add` of -5 Widgets to a cart holding 2
   * succeeds and leaves -3 stored.
   */
  method NegativeAdd() returns (r: Outcome, quantity: int)
    ensures r == Done && quantity == -3
  {
    var cart := new Cart(None, None, None);
    var added := cart.Add(ItemData(Some("1"), Some("Widget"), Some(2), Some(10.0), None, None));
    assert cart.items.entries["1"].quantity == 2;
    r := cart.Add(ItemData(Some("1"), Some("Widget"), Some(-5), Some(10.0), None, None));
    quantity := cart.items.entries["1"].quantity;
  }
}
