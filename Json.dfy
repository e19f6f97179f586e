/**
 * What the model layer relies on from Newtonsoft.Json and the C# runtime:
 * nullable values, the NullValueHandling setting of a [JsonProperty]
 * attribute, and the 32-bit `int` of `int?` properties.
 */
module Json {

  /** A C# reference or `Nullable<T>` value: `None` is `null`. */
  datatype Option<+T> = None | Some(value: T)

  /** The `NullValueHandling` named in a `[JsonProperty]` attribute; `Include` is the default. */
  datatype NullValueHandling = Include | Ignore

  /**
   * Whether the serializer writes a property's key: a property whose attribute
   * says `NullValueHandling.Ignore` is left out when it is null; any other
   * property is always written, with a JSON null when it is null.
   */
  predicate Written(handling: NullValueHandling, isNull: bool)
  {
    handling == Include || !isNull
  }

  /** C#'s `int`, the payload of an `int?` property. */
  newtype Int32 = x: int | -0x8000_0000 <= x < 0x8000_0000
}

/** The transport's per-response context, set after a response is decoded. */
module Http {
  type HttpContext
}

/**
 * Model types that the core refers to but does not define. Their structure
 * plays no part in construction or key presence, so they stay abstract.
 */
module Nested {
  type Address
  type V1PhoneNumber
  type V1MerchantLocationDetails
  type CatalogQuery
  type CatalogObject
  type Error
  type Customer
  type TeamMember
  type V1Money
  type OrderReturnLineItem
  type OrderReturnServiceCharge
  type OrderReturnTax
  type OrderReturnDiscount
  type OrderRoundingAdjustment
  type OrderMoneyAmounts
}
