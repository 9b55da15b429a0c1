/**
 * The records the cart stores, the arrays callers hand in before they are
 * validated, the errors the cart raises, and the three validators
 * (src/Cart.php, validateItemData, validateCouponData,
 * validateOtherChargeData).
 */
module Records {
  import opened Collections
  import opened Patterns

  datatype Option<T> = None | Some(value: T)

  /**
   * What the cart throws. The source throws plain exceptions whose messages
   * tell these cases apart; each message is one constructor here.
   */
  datatype CartError =
    | MissingItemFields
    | InvalidTax
    | InvalidDiscount
    | MissingCouponFields
    | MissingOtherChargeFields
    | InvalidAmount
    | ItemNotFound(itemId: Key)
    | InsufficientQuantity(itemId: Key, requested: int, available: int)
    | CouponNotFound(couponId: Key)
    | OtherChargeNotFound(otherChargeId: Key)
    | UndefinedItems

  datatype Result<T> = Ok(value: T) | Err(error: CartError)

  datatype Outcome = Done | Failed(error: CartError)

  /** An item array as the caller passes it: `None` is a key that is not set. */
  datatype ItemData = ItemData(
    id: Option<Key>, name: Option<string>, quantity: Option<int>,
    price: Option<real>, tax: Option<string>, discount: Option<string>)

  /** A stored line item. */
  datatype Item = Item(
    id: Key, name: string, quantity: int, price: real, tax: string, discount: string)

  datatype CouponData = CouponData(
    id: Option<Key>, name: Option<string>, code: Option<string>, discount: Option<string>)

  datatype Coupon = Coupon(id: Key, name: string, code: string, discount: string)

  datatype OtherChargeData = OtherChargeData(
    id: Option<Key>, name: Option<string>, amount: Option<string>)

  datatype OtherCharge = OtherCharge(id: Key, name: string, amount: string)

  /** The default percentage for an item's missing tax or discount. */
  const NO_PERCENTAGE := "0%"

  /**
   * What validation guarantees of a stored item: its tax has the tax shape and
   * its discount the discount shape, unless it is the default.
   */
  ghost predicate WellFormedItem(item: Item) {
    ValidateTaxPercentage(item.tax) &&
    (item.discount == NO_PERCENTAGE || ValidateDiscountPercentage(item.discount))
  }

  ghost predicate WellFormedCoupon(coupon: Coupon) {
    ValidateDiscountPercentage(coupon.discount)
  }

  ghost predicate WellFormedOtherCharge(charge: OtherCharge) {
    ValidateNumericValue(charge.amount)
  }

  /** The item with `more` added to its quantity and every other field kept. */
  function Restocked(item: Item, more: int): Item {
    item.(quantity := item.quantity + more)
  }

  /** The item with `less` taken from its quantity and every other field kept. */
  function Withdrawn(item: Item, less: int): Item {
    item.(quantity := item.quantity - less)
  }

  function ValueOr(o: Option<string>, default: string): string {
    if o.Some? then o.value else default
  }

  /**
   * `validateItemData`: id, name, quantity and price must be set; a set tax
   * must pass the tax check and a set discount the discount check (tax is
   * checked first); a missing tax or discount becomes "0%".
   */
  function ValidateItemData(data: ItemData): (r: Result<Item>)
    ensures r.Ok? <==>
      && data.id.Some? && data.name.Some? && data.quantity.Some? && data.price.Some?
      && (data.tax.Some? ==> ValidateTaxPercentage(data.tax.value))
      && (data.discount.Some? ==> ValidateDiscountPercentage(data.discount.value))
    ensures r.Ok? ==>
      && r.value.id == data.id.value && r.value.name == data.name.value
      && r.value.quantity == data.quantity.value && r.value.price == data.price.value
      && r.value.tax == ValueOr(data.tax, NO_PERCENTAGE)
      && r.value.discount == ValueOr(data.discount, NO_PERCENTAGE)
      && WellFormedItem(r.value)
    ensures r.Err? && !(data.id.Some? && data.name.Some? && data.quantity.Some? && data.price.Some?)
      ==> r.error == MissingItemFields
    ensures r.Err? && data.id.Some? && data.name.Some? && data.quantity.Some? && data.price.Some?
      ==> r.error == (if data.tax.Some? && !ValidateTaxPercentage(data.tax.value) then InvalidTax
                      else InvalidDiscount)
  {
    if data.id.Some? && data.name.Some? && data.quantity.Some? && data.price.Some? then
      if data.tax.Some? && !ValidateTaxPercentage(data.tax.value) then Err(InvalidTax)
      else if data.discount.Some? && !ValidateDiscountPercentage(data.discount.value) then
        Err(InvalidDiscount)
      else
        assert ValidateTaxPercentage(NO_PERCENTAGE) by { assert DigitRun(NO_PERCENTAGE) == 1; }
        Ok(Item(data.id.value, data.name.value, data.quantity.value, data.price.value,
                ValueOr(data.tax, NO_PERCENTAGE), ValueOr(data.discount, NO_PERCENTAGE)))
    else
      Err(MissingItemFields)
  }

  /**
   * `validateCouponData`: id, name, code and discount must be set and the
   * discount must pass the discount check; the record is kept as given.
   */
  function ValidateCouponData(data: CouponData): (r: Result<Coupon>)
    ensures r.Ok? <==>
      && data.id.Some? && data.name.Some? && data.code.Some? && data.discount.Some?
      && ValidateDiscountPercentage(data.discount.value)
    ensures r.Ok? ==>
      && r.value.id == data.id.value && r.value.name == data.name.value
      && r.value.code == data.code.value && r.value.discount == data.discount.value
      && WellFormedCoupon(r.value)
    ensures r.Err? ==>
      r.error == (if data.id.Some? && data.name.Some? && data.code.Some? && data.discount.Some?
                  then InvalidDiscount else MissingCouponFields)
  {
    if data.id.Some? && data.name.Some? && data.code.Some? && data.discount.Some? then
      if !ValidateDiscountPercentage(data.discount.value) then Err(InvalidDiscount)
      else Ok(Coupon(data.id.value, data.name.value, data.code.value, data.discount.value))
    else
      Err(MissingCouponFields)
  }

  /**
   * `validateOtherChargeData`: id, name and amount must be set and the amount
   * must pass the numeric check; the record is kept as given.
   */
  function ValidateOtherChargeData(data: OtherChargeData): (r: Result<OtherCharge>)
    ensures r.Ok? <==>
      && data.id.Some? && data.name.Some? && data.amount.Some?
      && ValidateNumericValue(data.amount.value)
    ensures r.Ok? ==>
      && r.value.id == data.id.value && r.value.name == data.name.value
      && r.value.amount == data.amount.value
      && WellFormedOtherCharge(r.value)
    ensures r.Err? ==>
      r.error == (if data.id.Some? && data.name.Some? && data.amount.Some?
                  then InvalidAmount else MissingOtherChargeFields)
  {
    if data.id.Some? && data.name.Some? && data.amount.Some? then
      if !ValidateNumericValue(data.amount.value) then Err(InvalidAmount)
      else Ok(OtherCharge(data.id.value, data.name.value, data.amount.value))
    else
      Err(MissingOtherChargeFields)
  }
}
