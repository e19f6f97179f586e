/**
 * Square.Models.V1PaymentTax: a tax applied to a v1 payment, and its builder.
 */
module V1PaymentTax {
  import opened Json
  import Nested

  /** The six wire properties of a payment tax, in declaration order. */
  datatype Field =
    | Errors
    | Name
    | AppliedMoney
    | Rate
    | InclusionType
    | FeeId

  /** Every property of the type. */
  const Properties: set<Field> :=
    {Errors, Name, AppliedMoney, Rate, InclusionType,
     FeeId}

  /** The wire key that each property's [JsonProperty] attribute names. */
  function JsonKey(f: Field): string
  {
    match f
    case Errors => "errors"
    case Name => "name"
    case AppliedMoney => "applied_money"
    case Rate => "rate"
    case InclusionType => "inclusion_type"
    case FeeId => "fee_id"
  }

  /** The NullValueHandling that each property's [JsonProperty] attribute sets. */
  function Handling(f: Field): NullValueHandling
  {
    Ignore
  }

  /** No two properties share a wire key. */
  lemma JsonKeyInjective()
    ensures forall f, g :: JsonKey(f) == JsonKey(g) ==> f == g
  {
  }

  /**
   * An immutable payment tax. The rate is an opaque decimal string:
   * nothing here parses or normalises it.
   */
  datatype V1PaymentTax = V1PaymentTax(
    errors: Option<seq<Nested.Error>>,
    name: Option<string>,
    appliedMoney: Option<Nested.V1Money>,
    rate: Option<string>,
    inclusionType: Option<string>,
    feeId: Option<string>)
  {
    /** Whether property f is null. */
    predicate IsNull(f: Field)
    {
      match f
      case Errors => errors.None?
      case Name => name.None?
      case AppliedMoney => appliedMoney.None?
      case Rate => rate.None?
      case InclusionType => inclusionType.None?
      case FeeId => feeId.None?
    }

    /** The properties whose keys the serializer writes. */
    function WireFields(): set<Field>
    {
      set f | f in Properties && Written(Handling(f), IsNull(f))
    }

    /** The keys of the JSON object the serializer writes for this value. */
    function WireKeys(): set<string>
    {
      set f | f in WireFields() :: JsonKey(f)
    }

    /** A fresh builder staging this value's properties, by one setter call each. */
    method ToBuilder() returns (b: Builder)
      ensures fresh(b)
      ensures b.Staged() == this
    {
      b := new Builder();
      b := b.Errors(errors);
      b := b.Name(name);
      b := b.AppliedMoney(appliedMoney);
      b := b.Rate(rate);
      b := b.InclusionType(inclusionType);
      b := b.FeeId(feeId);
    }
  }

  /** The C# constructor: every parameter defaults to null. */
  function New(errors: Option<seq<Nested.Error>> := None,
               name: Option<string> := None,
               appliedMoney: Option<Nested.V1Money> := None,
               rate: Option<string> := None,
               inclusionType: Option<string> := None,
               feeId: Option<string> := None): V1PaymentTax
  {
    V1PaymentTax(errors, name, appliedMoney, rate, inclusionType, feeId)
  }

  /** V1PaymentTax.Builder: one private field per property. */
  class Builder {
    var errors: Option<seq<Nested.Error>>
    var name: Option<string>
    var appliedMoney: Option<Nested.V1Money>
    var rate: Option<string>
    var inclusionType: Option<string>
    var feeId: Option<string>

    /** A builder with every field null. */
    constructor ()
      ensures Staged() == New()
    {
      errors := None;
      name := None;
      appliedMoney := None;
      rate := None;
      inclusionType := None;
      feeId := None;
    }

    /** The value that Build would return now. */
    function Staged(): V1PaymentTax
      reads this
    {
      New(errors,
          name,
          appliedMoney,
          rate,
          inclusionType,
          feeId)
    }

    /** Stages errors, overwriting any earlier value, and returns this builder. */
    method Errors(errors: Option<seq<Nested.Error>>) returns (b: Builder)
      modifies this
      ensures b == this
      ensures Staged() == old(Staged()).(errors := errors)
    {
      this.errors := errors;
      b := this;
    }

    /** Stages name, overwriting any earlier value, and returns this builder. */
    method Name(name: Option<string>) returns (b: Builder)
      modifies this
      ensures b == this
      ensures Staged() == old(Staged()).(name := name)
    {
      this.name := name;
      b := this;
    }

    /** Stages appliedMoney, overwriting any earlier value, and returns this builder. */
    method AppliedMoney(appliedMoney: Option<Nested.V1Money>) returns (b: Builder)
      modifies this
      ensures b == this
      ensures Staged() == old(Staged()).(appliedMoney := appliedMoney)
    {
      this.appliedMoney := appliedMoney;
      b := this;
    }

    /** Stages rate, overwriting any earlier value, and returns this builder. */
    method Rate(rate: Option<string>) returns (b: Builder)
      modifies this
      ensures b == this
      ensures Staged() == old(Staged()).(rate := rate)
    {
      this.rate := rate;
      b := this;
    }

    /** Stages inclusionType, overwriting any earlier value, and returns this builder. */
    method InclusionType(inclusionType: Option<string>) returns (b: Builder)
      modifies this
      ensures b == this
      ensures Staged() == old(Staged()).(inclusionType := inclusionType)
    {
      this.inclusionType := inclusionType;
      b := this;
    }

    /** Stages feeId, overwriting any earlier value, and returns this builder. */
    method FeeId(feeId: Option<string>) returns (b: Builder)
      modifies this
      ensures b == this
      ensures Staged() == old(Staged()).(feeId := feeId)
    {
      this.feeId := feeId;
      b := this;
    }

    /** Passes the staged fields to the constructor, without any check. */
    method Build() returns (r: V1PaymentTax)
      ensures r.errors == errors
      ensures r.name == name
      ensures r.appliedMoney == appliedMoney
      ensures r.rate == rate
      ensures r.inclusionType == inclusionType
      ensures r.feeId == feeId
    {
      r := New(errors,
               name,
               appliedMoney,
               rate,
               inclusionType,
               feeId);
    }
  }

  /** Every attribute sets NullValueHandling.Ignore, so a key is written exactly when its property is not null. */
  lemma WireKeysExact(r: V1PaymentTax)
    ensures forall f :: JsonKey(f) in r.WireKeys() <==> !r.IsNull(f)
  {
    JsonKeyInjective();
  }

  /** Omitted constructor parameters are null. */
  lemma NewDefaultsToNull()
    ensures forall f :: New().IsNull(f)
    ensures New().WireKeys() == {}
  {
  }

  /** m.ToBuilder().Build(): the same value. */
  method Rebuild(m: V1PaymentTax) returns (r: V1PaymentTax)
    ensures r == m
  {
    var b := m.ToBuilder();
    r := b.Build();
  }

  /** new Builder().Build(): every property null, so nothing is written. */
  method BuildUnset() returns (r: V1PaymentTax)
    ensures forall f :: r.IsNull(f)
    ensures r.WireKeys() == {}
  {
    var b := new Builder();
    r := b.Build();
  }

  /**
   * Errors do not clear the other fields, and the rate string is kept
   * character for character ("0.07" stays "0.07").
   */
  method BuildWithErrors(errors: seq<Nested.Error>, rate: string) returns (t: V1PaymentTax)
    ensures t.errors == Some(errors)
    ensures t.rate == Some(rate)
    ensures t.WireKeys() == {"errors", "rate"}
  {
    var b := new Builder();
    b := b.Errors(Some(errors));
    b := b.Rate(Some(rate));
    t := b.Build();
    WireKeysExact(t);
  }

}
