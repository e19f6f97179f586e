# Square .NET SDK models: builders, key presence and cursor pagination

This project models the generated data-model layer of the Square .NET SDK
(`Square.Models`), and proves properties of the model. Every model class there
follows one pattern, and each of the eleven classes modelled here is one module:

- **An immutable value.** It has get-only properties filled once by a constructor
  whose parameters default to `null`. In the model it is a datatype with one
  `Option` field per property (`null` is `None`); lists are `seq` values and
  `int?` is `Option<Int32>`. `New` is the C# constructor, with the same defaults.
- **A nested `Builder`.** It is a class with one mutable field per property
  and one setter per field. Each setter overwrites its field and returns the
  same builder. `Build` passes the staged fields to the constructor and checks
  nothing. `Staged()` is the value that `Build` would return at any moment.
- **`ToBuilder`.** It copies a value back into a fresh builder through the setters.
- **`[JsonProperty]` attributes.** Each property's attribute gives its
  snake_case wire key (`JsonKey`) and its `NullValueHandling` (`Handling`).
  With `Ignore`, the key is left out when the property is null. Without it
  (`CustomerGroup.name`, `V1ListLocationsResponse.items`), the key is always
  written. `WireKeys()` is the set of keys the serializer writes for a value.
- **`Context`.** Response types carry a `[JsonIgnore]` transport context with an
  internal setter. It is a field outside the wire keys, set only by
  `WithContext`. The constructor, `Build` and `ToBuilder` never set or carry it.
- **Catalog pagination.** `CatalogPagination` follows the documented cursor
  protocol of `SearchCatalogObjectsRequest` and `SearchCatalogObjectsResponse`.
  The first request has no cursor. Each next request is
  `req.ToBuilder().Cursor(c).Build()`. A response without a cursor is the last
  page. `Paginate` is the client loop, proved equal to the function `Exchanges`.

`Json.dfy` holds what the layer takes from Newtonsoft.Json and C# (`Option`,
`NullValueHandling`, `Written`, `Int32`), the abstract `Http.HttpContext`, and
the abstract nested model types (`Nested`).

## Model

| member | source | states |
|---|---|---|
| `V1Merchant.JsonKeyInjective` | Square/Models/V1Merchant.cs:57-142 | the 15 `[JsonProperty]` keys (`id`, `name`, `email`, `account_type`, `account_capabilities`, `country_code`, `language_code`, `currency_code`, `business_name`, `business_address`, `business_phone`, `business_type`, `shipping_address`, `location_details`, `market_url`) are pairwise distinct |
| `V1Merchant.WireKeysExact` | Square/Models/V1Merchant.cs:57-142 | every attribute sets `NullValueHandling.Ignore`: a property's key is in the written key set if and only if the property is non-null |
| `V1Merchant.V1Merchant.WithContext` | Square/Models/V1Merchant.cs:51-52 | the transport's internal setter puts the given context in `Context`; `[JsonIgnore]` keeps it off the wire, so the written key set is unchanged |
| `V1Merchant.NewDefaultsToNull` | Square/Models/V1Merchant.cs:18-49 | omitted constructor parameters are null, `Context` is unset, and such a value writes no key |
| `V1Merchant.V1Merchant.ToBuilder` | Square/Models/V1Merchant.cs:144-163 | returns a fresh builder whose staged fields equal this value's properties, one setter call per property; `Context` is not staged |
| `V1Merchant.Builder.constructor` | Square/Models/V1Merchant.cs:167-181 | a new builder stages null in all 15 private fields |
| `V1Merchant.Builder.Id` | Square/Models/V1Merchant.cs:185-189 | replaces the staged `id` (a later call overwrites an earlier one), leaves every other staged field unchanged, and returns the same builder |
| `V1Merchant.Builder.Name` | Square/Models/V1Merchant.cs:191-195 | replaces the staged `name` (a later call overwrites an earlier one), leaves every other staged field unchanged, and returns the same builder |
| `V1Merchant.Builder.Email` | Square/Models/V1Merchant.cs:197-201 | replaces the staged `email` (a later call overwrites an earlier one), leaves every other staged field unchanged, and returns the same builder |
| `V1Merchant.Builder.AccountType` | Square/Models/V1Merchant.cs:203-207 | replaces the staged `accountType` (a later call overwrites an earlier one), leaves every other staged field unchanged, and returns the same builder |
| `V1Merchant.Builder.AccountCapabilities` | Square/Models/V1Merchant.cs:209-213 | replaces the staged `accountCapabilities` (a later call overwrites an earlier one), leaves every other staged field unchanged, and returns the same builder |
| `V1Merchant.Builder.CountryCode` | Square/Models/V1Merchant.cs:215-219 | replaces the staged `countryCode` (a later call overwrites an earlier one), leaves every other staged field unchanged, and returns the same builder |
| `V1Merchant.Builder.LanguageCode` | Square/Models/V1Merchant.cs:221-225 | replaces the staged `languageCode` (a later call overwrites an earlier one), leaves every other staged field unchanged, and returns the same builder |
| `V1Merchant.Builder.CurrencyCode` | Square/Models/V1Merchant.cs:227-231 | replaces the staged `currencyCode` (a later call overwrites an earlier one), leaves every other staged field unchanged, and returns the same builder |
| `V1Merchant.Builder.BusinessName` | Square/Models/V1Merchant.cs:233-237 | replaces the staged `businessName` (a later call overwrites an earlier one), leaves every other staged field unchanged, and returns the same builder |
| `V1Merchant.Builder.BusinessAddress` | Square/Models/V1Merchant.cs:239-243 | replaces the staged `businessAddress` (a later call overwrites an earlier one), leaves every other staged field unchanged, and returns the same builder |
| `V1Merchant.Builder.BusinessPhone` | Square/Models/V1Merchant.cs:245-249 | replaces the staged `businessPhone` (a later call overwrites an earlier one), leaves every other staged field unchanged, and returns the same builder |
| `V1Merchant.Builder.BusinessType` | Square/Models/V1Merchant.cs:251-255 | replaces the staged `businessType` (a later call overwrites an earlier one), leaves every other staged field unchanged, and returns the same builder |
| `V1Merchant.Builder.ShippingAddress` | Square/Models/V1Merchant.cs:257-261 | replaces the staged `shippingAddress` (a later call overwrites an earlier one), leaves every other staged field unchanged, and returns the same builder |
| `V1Merchant.Builder.LocationDetails` | Square/Models/V1Merchant.cs:263-267 | replaces the staged `locationDetails` (a later call overwrites an earlier one), leaves every other staged field unchanged, and returns the same builder |
| `V1Merchant.Builder.MarketUrl` | Square/Models/V1Merchant.cs:269-273 | replaces the staged `marketUrl` (a later call overwrites an earlier one), leaves every other staged field unchanged, and returns the same builder |
| `V1Merchant.Builder.Build` | Square/Models/V1Merchant.cs:275-292 | returns a value whose 15 properties equal the staged fields, each in its same-named property, with `Context` unset; nothing is validated |
| `V1Merchant.Rebuild` | Square/Models/V1Merchant.cs:144-163 | `m.ToBuilder().Build()` equals `m` on every wire property; `Context` comes back unset |
| `V1Merchant.BuildUnset` | Square/Models/V1Merchant.cs:167-292 | a builder with no setter call builds a value whose properties are all null and which writes no key |
| `SearchCatalogObjectsRequest.JsonKeyInjective` | Square/Models/SearchCatalogObjectsRequest.cs:38-108 | the 7 `[JsonProperty]` keys (`cursor`, `object_types`, `include_deleted_objects`, `include_related_objects`, `begin_time`, `query`, `limit`) are pairwise distinct |
| `SearchCatalogObjectsRequest.WireKeysExact` | Square/Models/SearchCatalogObjectsRequest.cs:38-108 | every attribute sets `NullValueHandling.Ignore`: a property's key is in the written key set if and only if the property is non-null |
| `SearchCatalogObjectsRequest.NewDefaultsToNull` | Square/Models/SearchCatalogObjectsRequest.cs:17-32 | omitted constructor parameters are null, and such a value writes no key |
| `SearchCatalogObjectsRequest.SearchCatalogObjectsRequest.ToBuilder` | Square/Models/SearchCatalogObjectsRequest.cs:110-121 | returns a fresh builder whose staged fields equal this value's properties, one setter call per property |
| `SearchCatalogObjectsRequest.Builder.constructor` | Square/Models/SearchCatalogObjectsRequest.cs:125-131 | a new builder stages null in all 7 private fields |
| `SearchCatalogObjectsRequest.Builder.Cursor` | Square/Models/SearchCatalogObjectsRequest.cs:135-139 | replaces the staged `cursor` (a later call overwrites an earlier one), leaves every other staged field unchanged, and returns the same builder |
| `SearchCatalogObjectsRequest.Builder.ObjectTypes` | Square/Models/SearchCatalogObjectsRequest.cs:141-145 | replaces the staged `objectTypes` (a later call overwrites an earlier one), leaves every other staged field unchanged, and returns the same builder |
| `SearchCatalogObjectsRequest.Builder.IncludeDeletedObjects` | Square/Models/SearchCatalogObjectsRequest.cs:147-151 | replaces the staged `includeDeletedObjects` (a later call overwrites an earlier one), leaves every other staged field unchanged, and returns the same builder |
| `SearchCatalogObjectsRequest.Builder.IncludeRelatedObjects` | Square/Models/SearchCatalogObjectsRequest.cs:153-157 | replaces the staged `includeRelatedObjects` (a later call overwrites an earlier one), leaves every other staged field unchanged, and returns the same builder |
| `SearchCatalogObjectsRequest.Builder.BeginTime` | Square/Models/SearchCatalogObjectsRequest.cs:159-163 | replaces the staged `beginTime` (a later call overwrites an earlier one), leaves every other staged field unchanged, and returns the same builder |
| `SearchCatalogObjectsRequest.Builder.Query` | Square/Models/SearchCatalogObjectsRequest.cs:165-169 | replaces the staged `query` (a later call overwrites an earlier one), leaves every other staged field unchanged, and returns the same builder |
| `SearchCatalogObjectsRequest.Builder.Limit` | Square/Models/SearchCatalogObjectsRequest.cs:171-175 | replaces the staged `limit` (a later call overwrites an earlier one), leaves every other staged field unchanged, and returns the same builder |
| `SearchCatalogObjectsRequest.Builder.Build` | Square/Models/SearchCatalogObjectsRequest.cs:177-186 | returns a value whose 7 properties equal the staged fields, each in its same-named property; nothing is validated |
| `SearchCatalogObjectsRequest.Rebuild` | Square/Models/SearchCatalogObjectsRequest.cs:110-121 | `m.ToBuilder().Build()` equals `m` on every wire property |
| `SearchCatalogObjectsRequest.BuildUnset` | Square/Models/SearchCatalogObjectsRequest.cs:125-186 | a builder with no setter call builds a value whose properties are all null and which writes no key |
| `OrderReturn.JsonKeyInjective` | Square/Models/OrderReturn.cs:39-88 | the 8 `[JsonProperty]` keys (`uid`, `source_order_id`, `return_line_items`, `return_service_charges`, `return_taxes`, `return_discounts`, `rounding_adjustment`, `return_amounts`) are pairwise distinct |
| `OrderReturn.WireKeysExact` | Square/Models/OrderReturn.cs:39-88 | every attribute sets `NullValueHandling.Ignore`: a property's key is in the written key set if and only if the property is non-null |
| `OrderReturn.NewDefaultsToNull` | Square/Models/OrderReturn.cs:17-34 | omitted constructor parameters are null, and such a value writes no key |
| `OrderReturn.OrderReturn.ToBuilder` | Square/Models/OrderReturn.cs:90-102 | returns a fresh builder whose staged fields equal this value's properties, one setter call per property |
| `OrderReturn.Builder.constructor` | Square/Models/OrderReturn.cs:106-113 | a new builder stages null in all 8 private fields |
| `OrderReturn.Builder.Uid` | Square/Models/OrderReturn.cs:117-121 | replaces the staged `uid` (a later call overwrites an earlier one), leaves every other staged field unchanged, and returns the same builder |
| `OrderReturn.Builder.SourceOrderId` | Square/Models/OrderReturn.cs:123-127 | replaces the staged `sourceOrderId` (a later call overwrites an earlier one), leaves every other staged field unchanged, and returns the same builder |
| `OrderReturn.Builder.ReturnLineItems` | Square/Models/OrderReturn.cs:129-133 | replaces the staged `returnLineItems` (a later call overwrites an earlier one), leaves every other staged field unchanged, and returns the same builder |
| `OrderReturn.Builder.ReturnServiceCharges` | Square/Models/OrderReturn.cs:135-139 | replaces the staged `returnServiceCharges` (a later call overwrites an earlier one), leaves every other staged field unchanged, and returns the same builder |
| `OrderReturn.Builder.ReturnTaxes` | Square/Models/OrderReturn.cs:141-145 | replaces the staged `returnTaxes` (a later call overwrites an earlier one), leaves every other staged field unchanged, and returns the same builder |
| `OrderReturn.Builder.ReturnDiscounts` | Square/Models/OrderReturn.cs:147-151 | replaces the staged `returnDiscounts` (a later call overwrites an earlier one), leaves every other staged field unchanged, and returns the same builder |
| `OrderReturn.Builder.RoundingAdjustment` | Square/Models/OrderReturn.cs:153-157 | replaces the staged `roundingAdjustment` (a later call overwrites an earlier one), leaves every other staged field unchanged, and returns the same builder |
| `OrderReturn.Builder.ReturnAmounts` | Square/Models/OrderReturn.cs:159-163 | replaces the staged `returnAmounts` (a later call overwrites an earlier one), leaves every other staged field unchanged, and returns the same builder |
| `OrderReturn.Builder.Build` | Square/Models/OrderReturn.cs:165-175 | returns a value whose 8 properties equal the staged fields, each in its same-named property; nothing is validated |
| `OrderReturn.Rebuild` | Square/Models/OrderReturn.cs:90-102 | `m.ToBuilder().Build()` equals `m` on every wire property |
| `OrderReturn.BuildUnset` | Square/Models/OrderReturn.cs:106-175 | a builder with no setter call builds a value whose properties are all null and which writes no key |
| `SearchCatalogObjectsResponse.JsonKeyInjective` | Square/Models/SearchCatalogObjectsResponse.cs:37-64 | the 5 `[JsonProperty]` keys (`errors`, `cursor`, `objects`, `related_objects`, `latest_time`) are pairwise distinct |
| `SearchCatalogObjectsResponse.WireKeysExact` | Square/Models/SearchCatalogObjectsResponse.cs:37-64 | every attribute sets `NullValueHandling.Ignore`: a property's key is in the written key set if and only if the property is non-null |
| `SearchCatalogObjectsResponse.SearchCatalogObjectsResponse.WithContext` | Square/Models/SearchCatalogObjectsResponse.cs:31-32 | the transport's internal setter puts the given context in `Context`; `[JsonIgnore]` keeps it off the wire, so the written key set is unchanged |
| `SearchCatalogObjectsResponse.NewDefaultsToNull` | Square/Models/SearchCatalogObjectsResponse.cs:18-29 | omitted constructor parameters are null, `Context` is unset, and such a value writes no key |
| `SearchCatalogObjectsResponse.SearchCatalogObjectsResponse.ToBuilder` | Square/Models/SearchCatalogObjectsResponse.cs:66-75 | returns a fresh builder whose staged fields equal this value's properties, one setter call per property; `Context` is not staged |
| `SearchCatalogObjectsResponse.Builder.constructor` | Square/Models/SearchCatalogObjectsResponse.cs:79-83 | a new builder stages null in all 5 private fields |
| `SearchCatalogObjectsResponse.Builder.Errors` | Square/Models/SearchCatalogObjectsResponse.cs:87-91 | replaces the staged `errors` (a later call overwrites an earlier one), leaves every other staged field unchanged, and returns the same builder |
| `SearchCatalogObjectsResponse.Builder.Cursor` | Square/Models/SearchCatalogObjectsResponse.cs:93-97 | replaces the staged `cursor` (a later call overwrites an earlier one), leaves every other staged field unchanged, and returns the same builder |
| `SearchCatalogObjectsResponse.Builder.Objects` | Square/Models/SearchCatalogObjectsResponse.cs:99-103 | replaces the staged `objects` (a later call overwrites an earlier one), leaves every other staged field unchanged, and returns the same builder |
| `SearchCatalogObjectsResponse.Builder.RelatedObjects` | Square/Models/SearchCatalogObjectsResponse.cs:105-109 | replaces the staged `relatedObjects` (a later call overwrites an earlier one), leaves every other staged field unchanged, and returns the same builder |
| `SearchCatalogObjectsResponse.Builder.LatestTime` | Square/Models/SearchCatalogObjectsResponse.cs:111-115 | replaces the staged `latestTime` (a later call overwrites an earlier one), leaves every other staged field unchanged, and returns the same builder |
| `SearchCatalogObjectsResponse.Builder.Build` | Square/Models/SearchCatalogObjectsResponse.cs:117-124 | returns a value whose 5 properties equal the staged fields, each in its same-named property, with `Context` unset; nothing is validated |
| `SearchCatalogObjectsResponse.Rebuild` | Square/Models/SearchCatalogObjectsResponse.cs:66-75 | `m.ToBuilder().Build()` equals `m` on every wire property; `Context` comes back unset |
| `SearchCatalogObjectsResponse.BuildUnset` | Square/Models/SearchCatalogObjectsResponse.cs:79-124 | a builder with no setter call builds a value whose properties are all null and which writes no key |
| `V1PaymentTax.JsonKeyInjective` | Square/Models/V1PaymentTax.cs:35-66 | the 6 `[JsonProperty]` keys (`errors`, `name`, `applied_money`, `rate`, `inclusion_type`, `fee_id`) are pairwise distinct |
| `V1PaymentTax.WireKeysExact` | Square/Models/V1PaymentTax.cs:35-66 | every attribute sets `NullValueHandling.Ignore`: a property's key is in the written key set if and only if the property is non-null |
| `V1PaymentTax.NewDefaultsToNull` | Square/Models/V1PaymentTax.cs:17-30 | omitted constructor parameters are null, and such a value writes no key |
| `V1PaymentTax.V1PaymentTax.ToBuilder` | Square/Models/V1PaymentTax.cs:68-78 | returns a fresh builder whose staged fields equal this value's properties, one setter call per property |
| `V1PaymentTax.Builder.constructor` | Square/Models/V1PaymentTax.cs:82-87 | a new builder stages null in all 6 private fields |
| `V1PaymentTax.Builder.Errors` | Square/Models/V1PaymentTax.cs:91-95 | replaces the staged `errors` (a later call overwrites an earlier one), leaves every other staged field unchanged, and returns the same builder |
| `V1PaymentTax.Builder.Name` | Square/Models/V1PaymentTax.cs:97-101 | replaces the staged `name` (a later call overwrites an earlier one), leaves every other staged field unchanged, and returns the same builder |
| `V1PaymentTax.Builder.AppliedMoney` | Square/Models/V1PaymentTax.cs:103-107 | replaces the staged `appliedMoney` (a later call overwrites an earlier one), leaves every other staged field unchanged, and returns the same builder |
| `V1PaymentTax.Builder.Rate` | Square/Models/V1PaymentTax.cs:109-113 | replaces the staged `rate` (a later call overwrites an earlier one), leaves every other staged field unchanged, and returns the same builder |
| `V1PaymentTax.Builder.InclusionType` | Square/Models/V1PaymentTax.cs:115-119 | replaces the staged `inclusionType` (a later call overwrites an earlier one), leaves every other staged field unchanged, and returns the same builder |
| `V1PaymentTax.Builder.FeeId` | Square/Models/V1PaymentTax.cs:121-125 | replaces the staged `feeId` (a later call overwrites an earlier one), leaves every other staged field unchanged, and returns the same builder |
| `V1PaymentTax.Builder.Build` | Square/Models/V1PaymentTax.cs:127-135 | returns a value whose 6 properties equal the staged fields, each in its same-named property; nothing is validated |
| `V1PaymentTax.Rebuild` | Square/Models/V1PaymentTax.cs:68-78 | `m.ToBuilder().Build()` equals `m` on every wire property |
| `V1PaymentTax.BuildUnset` | Square/Models/V1PaymentTax.cs:82-135 | a builder with no setter call builds a value whose properties are all null and which writes no key |
| `CatalogModifierList.JsonKeyInjective` | Square/Models/CatalogModifierList.cs:31-53 | the 4 `[JsonProperty]` keys (`name`, `ordinal`, `selection_type`, `modifiers`) are pairwise distinct |
| `CatalogModifierList.WireKeysExact` | Square/Models/CatalogModifierList.cs:31-53 | every attribute sets `NullValueHandling.Ignore`: a property's key is in the written key set if and only if the property is non-null |
| `CatalogModifierList.NewDefaultsToNull` | Square/Models/CatalogModifierList.cs:17-26 | omitted constructor parameters are null, and such a value writes no key |
| `CatalogModifierList.CatalogModifierList.ToBuilder` | Square/Models/CatalogModifierList.cs:55-63 | returns a fresh builder whose staged fields equal this value's properties, one setter call per property |
| `CatalogModifierList.Builder.constructor` | Square/Models/CatalogModifierList.cs:67-70 | a new builder stages null in all 4 private fields |
| `CatalogModifierList.Builder.Name` | Square/Models/CatalogModifierList.cs:74-78 | replaces the staged `name` (a later call overwrites an earlier one), leaves every other staged field unchanged, and returns the same builder |
| `CatalogModifierList.Builder.Ordinal` | Square/Models/CatalogModifierList.cs:80-84 | replaces the staged `ordinal` (a later call overwrites an earlier one), leaves every other staged field unchanged, and returns the same builder |
| `CatalogModifierList.Builder.SelectionType` | Square/Models/CatalogModifierList.cs:86-90 | replaces the staged `selectionType` (a later call overwrites an earlier one), leaves every other staged field unchanged, and returns the same builder |
| `CatalogModifierList.Builder.Modifiers` | Square/Models/CatalogModifierList.cs:92-96 | replaces the staged `modifiers` (a later call overwrites an earlier one), leaves every other staged field unchanged, and returns the same builder |
| `CatalogModifierList.Builder.Build` | Square/Models/CatalogModifierList.cs:98-104 | returns a value whose 4 properties equal the staged fields, each in its same-named property; nothing is validated |
| `CatalogModifierList.Rebuild` | Square/Models/CatalogModifierList.cs:55-63 | `m.ToBuilder().Build()` equals `m` on every wire property |
| `CatalogModifierList.BuildUnset` | Square/Models/CatalogModifierList.cs:67-104 | a builder with no setter call builds a value whose properties are all null and which writes no key |
| `CustomerGroup.JsonKeyInjective` | Square/Models/CustomerGroup.cs:31-50 | the 4 `[JsonProperty]` keys (`id`, `name`, `created_at`, `updated_at`) are pairwise distinct |
| `CustomerGroup.WireKeysExact` | Square/Models/CustomerGroup.cs:31-50 | `name` has no `NullValueHandling`, so its key is always written, null or not; `id`, `created_at` and `updated_at` are written exactly when non-null |
| `CustomerGroup.NewDefaultsToNull` | Square/Models/CustomerGroup.cs:17-26 | the constructor stores `name` as given, even null, puts no other parameter in it (though it assigns in another order than it takes them), leaves the others null, and only `name` is written |
| `CustomerGroup.CustomerGroup.ToBuilder` | Square/Models/CustomerGroup.cs:52-59 | returns a fresh builder whose staged fields equal this value's properties, one setter call per property |
| `CustomerGroup.Builder.constructor` | Square/Models/CustomerGroup.cs:68-71 | the only builder constructor takes a name (possibly null) and stages it; the other three fields start null |
| `CustomerGroup.Builder.Id` | Square/Models/CustomerGroup.cs:79-83 | replaces the staged `id` (a later call overwrites an earlier one), leaves every other staged field unchanged, and returns the same builder |
| `CustomerGroup.Builder.Name` | Square/Models/CustomerGroup.cs:73-77 | replaces the staged `name` (a later call overwrites an earlier one), leaves every other staged field unchanged, and returns the same builder |
| `CustomerGroup.Builder.CreatedAt` | Square/Models/CustomerGroup.cs:85-89 | replaces the staged `createdAt` (a later call overwrites an earlier one), leaves every other staged field unchanged, and returns the same builder |
| `CustomerGroup.Builder.UpdatedAt` | Square/Models/CustomerGroup.cs:91-95 | replaces the staged `updatedAt` (a later call overwrites an earlier one), leaves every other staged field unchanged, and returns the same builder |
| `CustomerGroup.Builder.Build` | Square/Models/CustomerGroup.cs:97-103 | returns a value whose 4 properties equal the staged fields, each in its same-named property; nothing is validated |
| `CustomerGroup.Rebuild` | Square/Models/CustomerGroup.cs:52-59 | `m.ToBuilder().Build()` equals `m` on every wire property |
| `ListCustomersResponse.JsonKeyInjective` | Square/Models/ListCustomersResponse.cs:33-49 | the 3 `[JsonProperty]` keys (`errors`, `customers`, `cursor`) are pairwise distinct |
| `ListCustomersResponse.WireKeysExact` | Square/Models/ListCustomersResponse.cs:33-49 | every attribute sets `NullValueHandling.Ignore`: a property's key is in the written key set if and only if the property is non-null |
| `ListCustomersResponse.ListCustomersResponse.WithContext` | Square/Models/ListCustomersResponse.cs:27-28 | the transport's internal setter puts the given context in `Context`; `[JsonIgnore]` keeps it off the wire, so the written key set is unchanged |
| `ListCustomersResponse.NewDefaultsToNull` | Square/Models/ListCustomersResponse.cs:18-25 | omitted constructor parameters are null, `Context` is unset, and such a value writes no key |
| `ListCustomersResponse.ListCustomersResponse.ToBuilder` | Square/Models/ListCustomersResponse.cs:51-58 | returns a fresh builder whose staged fields equal this value's properties, one setter call per property; `Context` is not staged |
| `ListCustomersResponse.Builder.constructor` | Square/Models/ListCustomersResponse.cs:62-64 | a new builder stages null in all 3 private fields |
| `ListCustomersResponse.Builder.Errors` | Square/Models/ListCustomersResponse.cs:68-72 | replaces the staged `errors` (a later call overwrites an earlier one), leaves every other staged field unchanged, and returns the same builder |
| `ListCustomersResponse.Builder.Customers` | Square/Models/ListCustomersResponse.cs:74-78 | replaces the staged `customers` (a later call overwrites an earlier one), leaves every other staged field unchanged, and returns the same builder |
| `ListCustomersResponse.Builder.Cursor` | Square/Models/ListCustomersResponse.cs:80-84 | replaces the staged `cursor` (a later call overwrites an earlier one), leaves every other staged field unchanged, and returns the same builder |
| `ListCustomersResponse.Builder.Build` | Square/Models/ListCustomersResponse.cs:86-91 | returns a value whose 3 properties equal the staged fields, each in its same-named property, with `Context` unset; nothing is validated |
| `ListCustomersResponse.Rebuild` | Square/Models/ListCustomersResponse.cs:51-58 | `m.ToBuilder().Build()` equals `m` on every wire property; `Context` comes back unset |
| `ListCustomersResponse.BuildUnset` | Square/Models/ListCustomersResponse.cs:62-91 | a builder with no setter call builds a value whose properties are all null and which writes no key |
| `RetrieveTeamMemberResponse.JsonKeyInjective` | Square/Models/RetrieveTeamMemberResponse.cs:31-38 | the 2 `[JsonProperty]` keys (`team_member`, `errors`) are pairwise distinct |
| `RetrieveTeamMemberResponse.WireKeysExact` | Square/Models/RetrieveTeamMemberResponse.cs:31-38 | every attribute sets `NullValueHandling.Ignore`: a property's key is in the written key set if and only if the property is non-null |
| `RetrieveTeamMemberResponse.RetrieveTeamMemberResponse.WithContext` | Square/Models/RetrieveTeamMemberResponse.cs:25-26 | the transport's internal setter puts the given context in `Context`; `[JsonIgnore]` keeps it off the wire, so the written key set is unchanged |
| `RetrieveTeamMemberResponse.NewDefaultsToNull` | Square/Models/RetrieveTeamMemberResponse.cs:18-23 | omitted constructor parameters are null, `Context` is unset, and such a value writes no key |
| `RetrieveTeamMemberResponse.RetrieveTeamMemberResponse.ToBuilder` | Square/Models/RetrieveTeamMemberResponse.cs:40-46 | returns a fresh builder whose staged fields equal this value's properties, one setter call per property; `Context` is not staged |
| `RetrieveTeamMemberResponse.Builder.constructor` | Square/Models/RetrieveTeamMemberResponse.cs:50-51 | a new builder stages null in all 2 private fields |
| `RetrieveTeamMemberResponse.Builder.TeamMember` | Square/Models/RetrieveTeamMemberResponse.cs:55-59 | replaces the staged `teamMember` (a later call overwrites an earlier one), leaves every other staged field unchanged, and returns the same builder |
| `RetrieveTeamMemberResponse.Builder.Errors` | Square/Models/RetrieveTeamMemberResponse.cs:61-65 | replaces the staged `errors` (a later call overwrites an earlier one), leaves every other staged field unchanged, and returns the same builder |
| `RetrieveTeamMemberResponse.Builder.Build` | Square/Models/RetrieveTeamMemberResponse.cs:67-71 | returns a value whose 2 properties equal the staged fields, each in its same-named property, with `Context` unset; nothing is validated |
| `RetrieveTeamMemberResponse.Rebuild` | Square/Models/RetrieveTeamMemberResponse.cs:40-46 | `m.ToBuilder().Build()` equals `m` on every wire property; `Context` comes back unset |
| `RetrieveTeamMemberResponse.BuildUnset` | Square/Models/RetrieveTeamMemberResponse.cs:50-71 | a builder with no setter call builds a value whose properties are all null and which writes no key |
| `V1OrderHistoryEntry.JsonKeyInjective` | Square/Models/V1OrderHistoryEntry.cs:27-34 | the 2 `[JsonProperty]` keys (`action`, `created_at`) are pairwise distinct |
| `V1OrderHistoryEntry.WireKeysExact` | Square/Models/V1OrderHistoryEntry.cs:27-34 | every attribute sets `NullValueHandling.Ignore`: a property's key is in the written key set if and only if the property is non-null |
| `V1OrderHistoryEntry.NewDefaultsToNull` | Square/Models/V1OrderHistoryEntry.cs:17-22 | omitted constructor parameters are null, and such a value writes no key |
| `V1OrderHistoryEntry.V1OrderHistoryEntry.ToBuilder` | Square/Models/V1OrderHistoryEntry.cs:36-42 | returns a fresh builder whose staged fields equal this value's properties, one setter call per property |
| `V1OrderHistoryEntry.Builder.constructor` | Square/Models/V1OrderHistoryEntry.cs:46-47 | a new builder stages null in all 2 private fields |
| `V1OrderHistoryEntry.Builder.Action` | Square/Models/V1OrderHistoryEntry.cs:51-55 | replaces the staged `action` (a later call overwrites an earlier one), leaves every other staged field unchanged, and returns the same builder |
| `V1OrderHistoryEntry.Builder.CreatedAt` | Square/Models/V1OrderHistoryEntry.cs:57-61 | replaces the staged `createdAt` (a later call overwrites an earlier one), leaves every other staged field unchanged, and returns the same builder |
| `V1OrderHistoryEntry.Builder.Build` | Square/Models/V1OrderHistoryEntry.cs:63-67 | returns a value whose 2 properties equal the staged fields, each in its same-named property; nothing is validated |
| `V1OrderHistoryEntry.Rebuild` | Square/Models/V1OrderHistoryEntry.cs:36-42 | `m.ToBuilder().Build()` equals `m` on every wire property |
| `V1OrderHistoryEntry.BuildUnset` | Square/Models/V1OrderHistoryEntry.cs:46-67 | a builder with no setter call builds a value whose properties are all null and which writes no key |
| `V1ListLocationsResponse.V1ListLocationsResponse.ToBuilder` | Square/Models/V1ListLocationsResponse.cs:28-33 | returns a fresh builder whose staged fields equal this value's properties, one setter call per property |
| `V1ListLocationsResponse.Builder.constructor` | Square/Models/V1ListLocationsResponse.cs:39 | the explicit empty constructor stages null items |
| `V1ListLocationsResponse.Builder.Items` | Square/Models/V1ListLocationsResponse.cs:40-44 | replaces the staged `items` (a later call overwrites an earlier one), leaves every other staged field unchanged, and returns the same builder |
| `V1ListLocationsResponse.Builder.Build` | Square/Models/V1ListLocationsResponse.cs:46-49 | returns a value whose 1 property equals the staged field; nothing is validated |
| `V1ListLocationsResponse.Rebuild` | Square/Models/V1ListLocationsResponse.cs:28-33 | `m.ToBuilder().Build()` equals `m` on every wire property |
| `SearchCatalogObjectsRequest.LimitIsNotClamped` | Square/Models/SearchCatalogObjectsRequest.cs:102-108 | any 32-bit limit, including values below 1 and above 1000, is stored and written as given: no clamping, no rejection |
| `OrderReturn.BuildWithLists` | Square/Models/OrderReturn.cs:129-151 | the four list setters keep each list exactly as given (same elements, order and length), and exactly those four keys are written |
| `SearchCatalogObjectsResponse.BuildWithErrorsAndResults` | Square/Models/SearchCatalogObjectsResponse.cs:18-29 | a response with non-empty errors together with objects and a cursor is built without complaint, keeps all three, and writes their three keys |
| `V1PaymentTax.BuildWithErrors` | Square/Models/V1PaymentTax.cs:17-30 | errors coexist with the other fields, and the rate string is stored verbatim ("0.07" stays "0.07"), never parsed |
| `CatalogModifierList.BuildWithoutModifiers` | Square/Models/CatalogModifierList.cs:98-104 | `Build` accepts an empty modifier list and any ordinal: the documented "at least one modifier" and any ordinal range are not enforced |
| `CustomerGroup.BuildNamed` | Square/Models/CustomerGroup.cs:97-103 | `new Builder(name).Build()` keeps the name, even null (no validation), leaves the rest null, and writes exactly `{name}`, e.g. for "VIP" |
| `ListCustomersResponse.BuildErrorWithoutCustomers` | Square/Models/ListCustomersResponse.cs:18-25 | a response with one error and an empty customer list keeps both exactly and writes `errors` and `customers` but no `cursor` |
| `RetrieveTeamMemberResponse.BuildWithMemberAndErrors` | Square/Models/RetrieveTeamMemberResponse.cs:18-23 | a team member and errors may both be set: no exclusivity check, both keys written |
| `V1ListLocationsResponse.ItemsAlwaysWritten` | Square/Models/V1ListLocationsResponse.cs:15-26 | `items` has no `NullValueHandling` and there is no `Context`, errors or cursor, so the written key set is always exactly `{items}` |
| `V1ListLocationsResponse.NewDefaultsToNull` | Square/Models/V1ListLocationsResponse.cs:17-20 | the omitted constructor parameter is null, and `items` is still written |
| `V1ListLocationsResponse.BuildUnset` | Square/Models/V1ListLocationsResponse.cs:35-49 | a builder with no `Items` call builds null items, written as `"items": null` |
| `CatalogPagination.FirstRequest` | Square/Models/SearchCatalogObjectsRequest.cs:34-39 | the initial request is built without a `Cursor` call: its cursor is null and no `cursor` key is written |
| `CatalogPagination.NextRequest` | Square/Models/SearchCatalogObjectsRequest.cs:110-121 | `req.ToBuilder().Cursor(c).Build()` differs from `req` only in its cursor, which is exactly `c`: every filter and the limit are kept |
| `CatalogPagination.Paginate` | Square/Models/SearchCatalogObjectsResponse.cs:41-45 | the client loop sends the first request, feeds each response's cursor into the next request, and stops at the first response without a cursor (or at the caller's page budget); its pages are exactly `Exchanges` |
| `CatalogPagination.ExchangesChain` | Square/Models/SearchCatalogObjectsResponse.cs:41-45 | a run starts with the given request, every page but the last has a cursor that the next request carries, and a run that ends within its budget ends at a page without a cursor |
| `CatalogPagination.FiltersKept` | Square/Models/SearchCatalogObjectsRequest.cs:35-39 | every request of a run is the first request with another cursor |
| `CatalogPagination.ThreePages` | Square/Models/SearchCatalogObjectsResponse.cs:41-45 | with pages whose cursors are "A", "B" and none, the run from the initial request visits exactly three pages, sending no cursor, then "A", then "B" |

## Left out

- JSON text: writing, parsing, deserialization, unknown keys and type-mismatch errors all happen inside Newtonsoft.Json, which is not part of this model. Only the key-presence rule that the attributes declare is modelled, as a set of keys; the order in which keys are written is not.
- Nested model types (`Address`, `V1PhoneNumber`, `V1MerchantLocationDetails`, `CatalogQuery`, `CatalogObject`, `Error`, `Customer`, `TeamMember`, `V1Money`, the `OrderReturn*` items, `OrderRoundingAdjustment`, `OrderMoneyAmounts`) are abstract types. Their classes are not part of this model.
- `HttpContext` is an abstract type. How the transport (`Square.Http.Client`) fills it is not modelled. Its internal setter is modelled as the functional update `WithContext`, not as an in-place change of a shared object.
- The C# classes do not override `Equals`, so C# compares them by reference. "Equal" in the round-trip contracts means equal property by property, which is the datatype equality of the model.
- Lists are immutable `seq` values. In C#, `ToBuilder` and `Build` share `IList` references between builder and value, so a list mutated after the call is seen by both. That aliasing is not modelled.
- Fluent chains such as `new Builder().Id(id).Name(name)` are written as one statement per call (`b := b.Id(id);`), since a Dafny method call cannot be nested in an expression. Each setter's `ensures b == this` is what makes the two forms the same.
- A builder is single-owner scratch state. Sharing it between threads is outside this model.
- Server-side behaviour that the doc comments describe is not implemented by this layer, so it is not modelled: limit clamping and ignoring, `begin_time` exclusivity, related-object inclusion, searchable attributes, and "at least one modifier".
- The layer has two states per property (null or a value), and `Build` never fails. Some descriptions of this SDK's design mention a three-state optional (unset, explicit null, value) and required-field errors at build time. The code has neither, and the model follows the code: `CustomerGroup` builds with a null name.
- The code has no pagination loop; the protocol is fixed by the doc comments of the two `Cursor` properties. `CatalogPagination` is a client built on them. The server is a function parameter, and the caller gives a page budget, because the protocol itself does not bound the number of pages.
- Unused `using` directives (`System.IO`, `System.Linq`, `System.Threading.Tasks` and others) carry no behaviour.
