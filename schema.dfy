/**
 * The record validators and the two form schemas of shared/schema.js. A
 * validator returns its argument unchanged or throws; the thrown message is
 * the `Err` value. Reading a property of `null` or `undefined` throws a
 * TypeError before any check runs.
 */
module Schema {
  import opened Wrappers
  import opened JsValues

  /** Each of `keys` is truthy on `v`: the `!v.a || !v.b || ...` guard fails. */
  predicate AllTruthy(v: JsValue, keys: seq<string>) {
    forall i :: 0 <= i < |keys| ==> Truthy(Prop(v, keys[i]))
  }

  /**
   * The shape shared by the validators that test truthiness only: the first
   * property read throws on a nullish receiver, any falsy field throws
   * `message`, and otherwise the record comes back unchanged.
   */
  function RequireTruthy(v: JsValue, keys: seq<string>, message: string): (r: Result<JsValue, string>)
    requires |keys| > 0
    ensures r.Ok? ==> r.value == v
  {
    if IsNullish(v) then Err(ReadPropertyError(v, keys[0]))
    else if AllTruthy(v, keys) then Ok(v)
    else Err(message)
  }

  function ValidateUser(user: JsValue): (r: Result<JsValue, string>)
    ensures r.Ok? <==> !IsNullish(user) && Truthy(Prop(user, "username")) && Truthy(Prop(user, "password"))
    ensures r.Ok? ==> r.value == user
    ensures r.Err? && !IsNullish(user) ==> r.error == "Username and password are required"
    ensures IsNullish(user) ==> r == Err(ReadPropertyError(user, "username"))
  {
    var keys := ["username", "password"];
    assert AllTruthy(user, keys) <==> Truthy(Prop(user, keys[0])) && Truthy(Prop(user, keys[1]));
    RequireTruthy(user, keys, "Username and password are required")
  }

  function ValidateProduct(product: JsValue): (r: Result<JsValue, string>)
    ensures r.Ok? <==> !IsNullish(product) && Truthy(Prop(product, "name")) && Truthy(Prop(product, "price"))
                       && Truthy(Prop(product, "category")) && Truthy(Prop(product, "sku"))
    ensures r.Ok? ==> r.value == product
    ensures r.Err? && !IsNullish(product) ==> r.error == "Name, price, category, and SKU are required"
    ensures IsNullish(product) ==> r == Err(ReadPropertyError(product, "name"))
  {
    var keys := ["name", "price", "category", "sku"];
    assert AllTruthy(product, keys) <==> Truthy(Prop(product, keys[0])) && Truthy(Prop(product, keys[1]))
                                         && Truthy(Prop(product, keys[2])) && Truthy(Prop(product, keys[3]));
    RequireTruthy(product, keys, "Name, price, category, and SKU are required")
  }

  function ValidateCustomer(customer: JsValue): (r: Result<JsValue, string>)
    ensures r.Ok? <==> !IsNullish(customer) && Truthy(Prop(customer, "name")) && Truthy(Prop(customer, "email"))
    ensures r.Ok? ==> r.value == customer
    ensures r.Err? && !IsNullish(customer) ==> r.error == "Name and email are required"
    ensures IsNullish(customer) ==> r == Err(ReadPropertyError(customer, "name"))
  {
    var keys := ["name", "email"];
    assert AllTruthy(customer, keys) <==> Truthy(Prop(customer, keys[0])) && Truthy(Prop(customer, keys[1]));
    RequireTruthy(customer, keys, "Name and email are required")
  }

  function ValidateOrder(order: JsValue): (r: Result<JsValue, string>)
    ensures r.Ok? <==> !IsNullish(order) && Truthy(Prop(order, "customerName")) && Truthy(Prop(order, "total"))
                       && Truthy(Prop(order, "items"))
    ensures r.Ok? ==> r.value == order
    ensures r.Err? && !IsNullish(order) ==> r.error == "Customer name, total, and items are required"
    ensures IsNullish(order) ==> r == Err(ReadPropertyError(order, "customerName"))
  {
    var keys := ["customerName", "total", "items"];
    assert AllTruthy(order, keys) <==> Truthy(Prop(order, keys[0])) && Truthy(Prop(order, keys[1]))
                                       && Truthy(Prop(order, keys[2]));
    RequireTruthy(order, keys, "Customer name, total, and items are required")
  }

  /** The coupon guard mixes tests: `discount` need only be defined, the others truthy. */
  function ValidateCoupon(coupon: JsValue): (r: Result<JsValue, string>)
    ensures r.Ok? <==> !IsNullish(coupon) && Truthy(Prop(coupon, "code")) && Truthy(Prop(coupon, "name"))
                       && !Prop(coupon, "discount").Undefined? && Truthy(Prop(coupon, "usageLimit"))
                       && Truthy(Prop(coupon, "expiryDate"))
    ensures r.Ok? ==> r.value == coupon
    ensures r.Err? && !IsNullish(coupon) ==> r.error == "Code, name, discount, usage limit, and expiry date are required"
    ensures IsNullish(coupon) ==> r == Err(ReadPropertyError(coupon, "code"))
  {
    if IsNullish(coupon) then Err(ReadPropertyError(coupon, "code"))
    else if !Truthy(Prop(coupon, "code")) || !Truthy(Prop(coupon, "name")) || Prop(coupon, "discount") == Undefined
            || !Truthy(Prop(coupon, "usageLimit")) || !Truthy(Prop(coupon, "expiryDate"))
    then Err("Code, name, discount, usage limit, and expiry date are required")
    else Ok(coupon)
  }

  function ValidateStoreSettings(settings: JsValue): (r: Result<JsValue, string>)
    ensures r.Ok? <==> !IsNullish(settings) && Truthy(Prop(settings, "storeName"))
    ensures r.Ok? ==> r.value == settings
    ensures r.Err? && !IsNullish(settings) ==> r.error == "Store name is required"
    ensures IsNullish(settings) ==> r == Err(ReadPropertyError(settings, "storeName"))
  {
    var keys := ["storeName"];
    assert AllTruthy(settings, keys) <==> Truthy(Prop(settings, keys[0]));
    RequireTruthy(settings, keys, "Store name is required")
  }

  /** `z.string().min(1)`. */
  predicate NonEmptyString(v: JsValue) {
    v.Str? && |v.s| >= 1
  }

  /** `z.number().int().min(lo).max(hi)`; numbers are integers here, so `.int()` always holds. */
  predicate IntBetween(v: JsValue, lo: int, hi: int) {
    v.Num? && lo <= v.n <= hi
  }

  /** `.optional().nullable()` around `z.string()`. */
  predicate OptionalString(v: JsValue) {
    v.Undefined? || v.Null? || v.Str?
  }

  /**
   * `insertCouponSchema` accepts the object: the bounds on `discount` (1 to
   * 100) and `usageLimit` (at least 1), non-empty `code` and `name`, an
   * expiry given as a non-empty date string, and an optional boolean
   * `isActive`.
   */
  predicate CouponSchemaAccepts(v: JsValue) {
    v.Obj?
    && NonEmptyString(Prop(v, "code")) && NonEmptyString(Prop(v, "name"))
    && IntBetween(Prop(v, "discount"), 1, 100)
    && Prop(v, "usageLimit").Num? && Prop(v, "usageLimit").n >= 1
    && NonEmptyString(Prop(v, "expiryDate"))
    && (Prop(v, "isActive").Undefined? || Prop(v, "isActive").Bool?)
  }

  /** `insertStoreSettingsSchema` accepts the object: a non-empty `storeName`, the rest optional strings. */
  predicate StoreSettingsSchemaAccepts(v: JsValue) {
    v.Obj?
    && NonEmptyString(Prop(v, "storeName"))
    && OptionalString(Prop(v, "description")) && OptionalString(Prop(v, "contactEmail"))
    && OptionalString(Prop(v, "contactPhone")) && OptionalString(Prop(v, "address"))
  }

  /** What the coupon form lets through, the coupon validator accepts unchanged. */
  lemma CouponSchemaImpliesValidator(v: JsValue)
    requires CouponSchemaAccepts(v)
    ensures ValidateCoupon(v) == Ok(v)
  {
  }

  /** What the settings form lets through, the settings validator accepts unchanged. */
  lemma StoreSettingsSchemaImpliesValidator(v: JsValue)
    requires StoreSettingsSchemaAccepts(v)
    ensures ValidateStoreSettings(v) == Ok(v)
  {
  }

  /** A discount of 0 passes the validator (it is only tested against `undefined`) but not the form. */
  lemma ZeroDiscountPassesValidatorOnly(v: JsValue)
    requires !IsNullish(v) && Prop(v, "discount") == Num(0)
    requires Truthy(Prop(v, "code")) && Truthy(Prop(v, "name"))
    requires Truthy(Prop(v, "usageLimit")) && Truthy(Prop(v, "expiryDate"))
    ensures ValidateCoupon(v) == Ok(v)
    ensures !CouponSchemaAccepts(v)
  {
  }

  /** A usage limit of 0 fails both the validator and the form. */
  lemma ZeroUsageLimitRejected(v: JsValue)
    requires !IsNullish(v) && Prop(v, "usageLimit") == Num(0)
    ensures ValidateCoupon(v) == Err("Code, name, discount, usage limit, and expiry date are required")
    ensures !CouponSchemaAccepts(v)
  {
  }

  /** A price of 0 or a total of 0 counts as missing. */
  lemma ZeroAmountsRejected(v: JsValue)
    requires !IsNullish(v)
    ensures Prop(v, "price") == Num(0) ==> ValidateProduct(v) == Err("Name, price, category, and SKU are required")
    ensures Prop(v, "total") == Num(0) ==> ValidateOrder(v) == Err("Customer name, total, and items are required")
  {
  }

  /** The string "0" is truthy, so an unparsed form price passes the product validator. */
  lemma PriceStringZeroAccepted(v: JsValue)
    requires v.Obj? && Prop(v, "price") == Str("0")
    requires Truthy(Prop(v, "name")) && Truthy(Prop(v, "category")) && Truthy(Prop(v, "sku"))
    ensures ValidateProduct(v) == Ok(v)
  {
  }
}
