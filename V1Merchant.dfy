/**
 * Square.Models.V1Merchant: a merchant account as the v1 API returns it,
 * and its builder.
 */
module V1Merchant {
  import opened Json
  import Http
  import Nested

  /** The fifteen wire properties of a merchant, in declaration order. */
  datatype Field =
    | Id
    | Name
    | Email
    | AccountType
    | AccountCapabilities
    | CountryCode
    | LanguageCode
    | CurrencyCode
    | BusinessName
    | BusinessAddress
    | BusinessPhone
    | BusinessType
    | ShippingAddress
    | LocationDetails
    | MarketUrl

  /** Every property of the type. */
  const Properties: set<Field> :=
    {Id, Name, Email, AccountType, AccountCapabilities,
     CountryCode, LanguageCode, CurrencyCode, BusinessName, BusinessAddress,
     BusinessPhone, BusinessType, ShippingAddress, LocationDetails, MarketUrl}

  /** The wire key that each property's [JsonProperty] attribute names. */
  function JsonKey(f: Field): string
  {
    match f
    case Id => "id"
    case Name => "name"
    case Email => "email"
    case AccountType => "account_type"
    case AccountCapabilities => "account_capabilities"
    case CountryCode => "country_code"
    case LanguageCode => "language_code"
    case CurrencyCode => "currency_code"
    case BusinessName => "business_name"
    case BusinessAddress => "business_address"
    case BusinessPhone => "business_phone"
    case BusinessType => "business_type"
    case ShippingAddress => "shipping_address"
    case LocationDetails => "location_details"
    case MarketUrl => "market_url"
  }

  /** The NullValueHandling that each property's [JsonProperty] attribute sets. */
  function Handling(f: Field): NullValueHandling
  {
    Ignore
  }

  /** No two properties share a wire key. */
  lemma JsonKeyInjective()
    ensures forall f, g :: JsonKey(f) == JsonKey(g) ==> f == g
  {
  }

  /**
   * An immutable merchant: one nullable value per property, and the
   * response context, which is not part of the wire format.
   */
  datatype V1Merchant = V1Merchant(
    id: Option<string>,
    name: Option<string>,
    email: Option<string>,
    accountType: Option<string>,
    accountCapabilities: Option<seq<string>>,
    countryCode: Option<string>,
    languageCode: Option<string>,
    currencyCode: Option<string>,
    businessName: Option<string>,
    businessAddress: Option<Nested.Address>,
    businessPhone: Option<Nested.V1PhoneNumber>,
    businessType: Option<string>,
    shippingAddress: Option<Nested.Address>,
    locationDetails: Option<Nested.V1MerchantLocationDetails>,
    marketUrl: Option<string>,
    context: Option<Http.HttpContext>)
  {
    /** Whether property f is null. */
    predicate IsNull(f: Field)
    {
      match f
      case Id => id.None?
      case Name => name.None?
      case Email => email.None?
      case AccountType => accountType.None?
      case AccountCapabilities => accountCapabilities.None?
      case CountryCode => countryCode.None?
      case LanguageCode => languageCode.None?
      case CurrencyCode => currencyCode.None?
      case BusinessName => businessName.None?
      case BusinessAddress => businessAddress.None?
      case BusinessPhone => businessPhone.None?
      case BusinessType => businessType.None?
      case ShippingAddress => shippingAddress.None?
      case LocationDetails => locationDetails.None?
      case MarketUrl => marketUrl.None?
    }

    /** The properties whose keys the serializer writes. */
    function WireFields(): set<Field>
    {
      set f | f in Properties && Written(Handling(f), IsNull(f))
    }

    /** The keys of the JSON object the serializer writes for this value. */
    function WireKeys(): set<string>
    {
      set f | f in WireFields() :: JsonKey(f)
    }

    /**
     * The transport attaching its context through the internal setter of
     * Context; [JsonIgnore] keeps it off the wire.
     */
    function WithContext(c: Http.HttpContext): (r: V1Merchant)
      ensures r.context == Some(c)
      ensures r.WireKeys() == WireKeys()
    {
      this.(context := Some(c))
    }

    /** A fresh builder staging this value's properties, by one setter call each. */
    method ToBuilder() returns (b: Builder)
      ensures fresh(b)
      ensures b.Staged() == this.(context := None)
    {
      b := new Builder();
      b := b.Id(id);
      b := b.Name(name);
      b := b.Email(email);
      b := b.AccountType(accountType);
      b := b.AccountCapabilities(accountCapabilities);
      b := b.CountryCode(countryCode);
      b := b.LanguageCode(languageCode);
      b := b.CurrencyCode(currencyCode);
      b := b.BusinessName(businessName);
      b := b.BusinessAddress(businessAddress);
      b := b.BusinessPhone(businessPhone);
      b := b.BusinessType(businessType);
      b := b.ShippingAddress(shippingAddress);
      b := b.LocationDetails(locationDetails);
      b := b.MarketUrl(marketUrl);
    }
  }

  /** The C# constructor: every parameter defaults to null, and Context is left unset. */
  function New(id: Option<string> := None,
               name: Option<string> := None,
               email: Option<string> := None,
               accountType: Option<string> := None,
               accountCapabilities: Option<seq<string>> := None,
               countryCode: Option<string> := None,
               languageCode: Option<string> := None,
               currencyCode: Option<string> := None,
               businessName: Option<string> := None,
               businessAddress: Option<Nested.Address> := None,
               businessPhone: Option<Nested.V1PhoneNumber> := None,
               businessType: Option<string> := None,
               shippingAddress: Option<Nested.Address> := None,
               locationDetails: Option<Nested.V1MerchantLocationDetails> := None,
               marketUrl: Option<string> := None): V1Merchant
  {
    V1Merchant(id, name, email, accountType, accountCapabilities, countryCode, languageCode, currencyCode, businessName, businessAddress, businessPhone, businessType, shippingAddress, locationDetails, marketUrl, None)
  }

  /** V1Merchant.Builder: one private field per property, each overwritten by its setter. */
  class Builder {
    var id: Option<string>
    var name: Option<string>
    var email: Option<string>
    var accountType: Option<string>
    var accountCapabilities: Option<seq<string>>
    var countryCode: Option<string>
    var languageCode: Option<string>
    var currencyCode: Option<string>
    var businessName: Option<string>
    var businessAddress: Option<Nested.Address>
    var businessPhone: Option<Nested.V1PhoneNumber>
    var businessType: Option<string>
    var shippingAddress: Option<Nested.Address>
    var locationDetails: Option<Nested.V1MerchantLocationDetails>
    var marketUrl: Option<string>

    /** A builder with every field null. */
    constructor ()
      ensures Staged() == New()
    {
      id := None;
      name := None;
      email := None;
      accountType := None;
      accountCapabilities := None;
      countryCode := None;
      languageCode := None;
      currencyCode := None;
      businessName := None;
      businessAddress := None;
      businessPhone := None;
      businessType := None;
      shippingAddress := None;
      locationDetails := None;
      marketUrl := None;
    }

    /** The value that Build would return now. */
    function Staged(): V1Merchant
      reads this
    {
      New(id,
          name,
          email,
          accountType,
          accountCapabilities,
          countryCode,
          languageCode,
          currencyCode,
          businessName,
          businessAddress,
          businessPhone,
          businessType,
          shippingAddress,
          locationDetails,
          marketUrl)
    }

    /** Stages id, overwriting any earlier value, and returns this builder. */
    method Id(id: Option<string>) returns (b: Builder)
      modifies this
      ensures b == this
      ensures Staged() == old(Staged()).(id := id)
    {
      this.id := id;
      b := this;
    }

    /** Stages name, overwriting any earlier value, and returns this builder. */
    method Name(name: Option<string>) returns (b: Builder)
      modifies this
      ensures b == this
      ensures Staged() == old(Staged()).(name := name)
    {
      this.name := name;
      b := this;
    }

    /** Stages email, overwriting any earlier value, and returns this builder. */
    method Email(email: Option<string>) returns (b: Builder)
      modifies this
      ensures b == this
      ensures Staged() == old(Staged()).(email := email)
    {
      this.email := email;
      b := this;
    }

    /** Stages accountType, overwriting any earlier value, and returns this builder. */
    method AccountType(accountType: Option<string>) returns (b: Builder)
      modifies this
      ensures b == this
      ensures Staged() == old(Staged()).(accountType := accountType)
    {
      this.accountType := accountType;
      b := this;
    }

    /** Stages accountCapabilities, overwriting any earlier value, and returns this builder. */
    method AccountCapabilities(accountCapabilities: Option<seq<string>>) returns (b: Builder)
      modifies this
      ensures b == this
      ensures Staged() == old(Staged()).(accountCapabilities := accountCapabilities)
    {
      this.accountCapabilities := accountCapabilities;
      b := this;
    }

    /** Stages countryCode, overwriting any earlier value, and returns this builder. */
    method CountryCode(countryCode: Option<string>) returns (b: Builder)
      modifies this
      ensures b == this
      ensures Staged() == old(Staged()).(countryCode := countryCode)
    {
      this.countryCode := countryCode;
      b := this;
    }

    /** Stages languageCode, overwriting any earlier value, and returns this builder. */
    method LanguageCode(languageCode: Option<string>) returns (b: Builder)
      modifies this
      ensures b == this
      ensures Staged() == old(Staged()).(languageCode := languageCode)
    {
      this.languageCode := languageCode;
      b := this;
    }

    /** Stages currencyCode, overwriting any earlier value, and returns this builder. */
    method CurrencyCode(currencyCode: Option<string>) returns (b: Builder)
      modifies this
      ensures b == this
      ensures Staged() == old(Staged()).(currencyCode := currencyCode)
    {
      this.currencyCode := currencyCode;
      b := this;
    }

    /** Stages businessName, overwriting any earlier value, and returns this builder. */
    method BusinessName(businessName: Option<string>) returns (b: Builder)
      modifies this
      ensures b == this
      ensures Staged() == old(Staged()).(businessName := businessName)
    {
      this.businessName := businessName;
      b := this;
    }

    /** Stages businessAddress, overwriting any earlier value, and returns this builder. */
    method BusinessAddress(businessAddress: Option<Nested.Address>) returns (b: Builder)
      modifies this
      ensures b == this
      ensures Staged() == old(Staged()).(businessAddress := businessAddress)
    {
      this.businessAddress := businessAddress;
      b := this;
    }

    /** Stages businessPhone, overwriting any earlier value, and returns this builder. */
    method BusinessPhone(businessPhone: Option<Nested.V1PhoneNumber>) returns (b: Builder)
      modifies this
      ensures b == this
      ensures Staged() == old(Staged()).(businessPhone := businessPhone)
    {
      this.businessPhone := businessPhone;
      b := this;
    }

    /** Stages businessType, overwriting any earlier value, and returns this builder. */
    method BusinessType(businessType: Option<string>) returns (b: Builder)
      modifies this
      ensures b == this
      ensures Staged() == old(Staged()).(businessType := businessType)
    {
      this.businessType := businessType;
      b := this;
    }

    /** Stages shippingAddress, overwriting any earlier value, and returns this builder. */
    method ShippingAddress(shippingAddress: Option<Nested.Address>) returns (b: Builder)
      modifies this
      ensures b == this
      ensures Staged() == old(Staged()).(shippingAddress := shippingAddress)
    {
      this.shippingAddress := shippingAddress;
      b := this;
    }

    /** Stages locationDetails, overwriting any earlier value, and returns this builder. */
    method LocationDetails(locationDetails: Option<Nested.V1MerchantLocationDetails>) returns (b: Builder)
      modifies this
      ensures b == this
      ensures Staged() == old(Staged()).(locationDetails := locationDetails)
    {
      this.locationDetails := locationDetails;
      b := this;
    }

    /** Stages marketUrl, overwriting any earlier value, and returns this builder. */
    method MarketUrl(marketUrl: Option<string>) returns (b: Builder)
      modifies this
      ensures b == this
      ensures Staged() == old(Staged()).(marketUrl := marketUrl)
    {
      this.marketUrl := marketUrl;
      b := this;
    }

    /** Passes the staged fields to the constructor, without any check. */
    method Build() returns (r: V1Merchant)
      ensures r.id == id
      ensures r.name == name
      ensures r.email == email
      ensures r.accountType == accountType
      ensures r.accountCapabilities == accountCapabilities
      ensures r.countryCode == countryCode
      ensures r.languageCode == languageCode
      ensures r.currencyCode == currencyCode
      ensures r.businessName == businessName
      ensures r.businessAddress == businessAddress
      ensures r.businessPhone == businessPhone
      ensures r.businessType == businessType
      ensures r.shippingAddress == shippingAddress
      ensures r.locationDetails == locationDetails
      ensures r.marketUrl == marketUrl
      ensures r.context == None
    {
      r := New(id,
               name,
               email,
               accountType,
               accountCapabilities,
               countryCode,
               languageCode,
               currencyCode,
               businessName,
               businessAddress,
               businessPhone,
               businessType,
               shippingAddress,
               locationDetails,
               marketUrl);
    }
  }

  /** Every attribute sets NullValueHandling.Ignore, so a key is written exactly when its property is not null. */
  lemma WireKeysExact(r: V1Merchant)
    ensures forall f :: JsonKey(f) in r.WireKeys() <==> !r.IsNull(f)
  {
    JsonKeyInjective();
  }

  /** Omitted constructor parameters are null, and the constructor never sets Context. */
  lemma NewDefaultsToNull()
    ensures forall f :: New().IsNull(f)
    ensures New().context == None
    ensures New().WireKeys() == {}
  {
  }

  /** m.ToBuilder().Build(): every wire property survives, Context does not. */
  method Rebuild(m: V1Merchant) returns (r: V1Merchant)
    ensures r == m.(context := None)
  {
    var b := m.ToBuilder();
    r := b.Build();
  }

  /** new Builder().Build(): every property null, so nothing is written. */
  method BuildUnset() returns (r: V1Merchant)
    ensures forall f :: r.IsNull(f)
    ensures r.WireKeys() == {}
  {
    var b := new Builder();
    r := b.Build();
  }


}
