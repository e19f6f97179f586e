/**
 * Square.Models.V1ListLocationsResponse: the v1 list of locations, each a
 * merchant, and its builder.
 */
module V1ListLocationsResponse {
  import opened Json
  import V1Merchant

  /** The one wire property of the response. */
  datatype Field = Items

  /** Every property of the type. */
  const Properties: set<Field> := {Items}

  /** The wire key that each property's [JsonProperty] attribute names. */
  function JsonKey(f: Field): string
  {
    "items"
  }

  /** The NullValueHandling that each property's [JsonProperty] attribute sets. */
  function Handling(f: Field): NullValueHandling
  {
    Include
  }

  /**
   * An immutable list of locations. Unlike the other responses it has no
   * Context, no errors and no cursor.
   */
  datatype V1ListLocationsResponse = V1ListLocationsResponse(
    items: Option<seq<V1Merchant.V1Merchant>>)
  {
    /** Whether property f is null. */
    predicate IsNull(f: Field)
    {
      items.None?
    }

    /** The properties whose keys the serializer writes. */
    function WireFields(): set<Field>
    {
      set f | f in Properties && Written(Handling(f), IsNull(f))
    }

    /** The keys of the JSON object the serializer writes for this value. */
    function WireKeys(): set<string>
    {
      set f | f in WireFields() :: JsonKey(f)
    }

    /** A fresh builder staging this value's properties, by one setter call each. */
    method ToBuilder() returns (b: Builder)
      ensures fresh(b)
      ensures b.Staged() == this
    {
      b := new Builder();
      b := b.Items(items);
    }
  }

  /** The C# constructor: items defaults to null. */
  function New(items: Option<seq<V1Merchant.V1Merchant>> := None): V1ListLocationsResponse
  {
    V1ListLocationsResponse(items)
  }

  /** V1ListLocationsResponse.Builder, with its explicit empty constructor. */
  class Builder {
    var items: Option<seq<V1Merchant.V1Merchant>>

    /** A builder with every field null. */
    constructor ()
      ensures Staged() == New()
    {
      items := None;
    }

    /** The value that Build would return now. */
    function Staged(): V1ListLocationsResponse
      reads this
    {
      New(items)
    }

    /** Stages items, overwriting any earlier value, and returns this builder. */
    method Items(value: Option<seq<V1Merchant.V1Merchant>>) returns (b: Builder)
      modifies this
      ensures b == this
      ensures Staged() == old(Staged()).(items := value)
    {
      items := value;
      b := this;
    }

    /** Passes the staged fields to the constructor, without any check. */
    method Build() returns (r: V1ListLocationsResponse)
      ensures r.items == items
    {
      r := New(items);
    }
  }


  /** m.ToBuilder().Build(): the same value. */
  method Rebuild(m: V1ListLocationsResponse) returns (r: V1ListLocationsResponse)
    ensures r == m
  {
    var b := m.ToBuilder();
    r := b.Build();
  }

  /** items has no NullValueHandling, so its key is always written, and it is the only key. */
  lemma ItemsAlwaysWritten(r: V1ListLocationsResponse)
    ensures r.WireKeys() == {"items"}
  {
    assert r.WireFields() == {Items};
  }

  /** Omitted, the constructor's parameter is null. */
  lemma NewDefaultsToNull()
    ensures New().items == None
    ensures New().WireKeys() == {"items"}
  {
    ItemsAlwaysWritten(New());
  }

  /** new Builder().Build(): null items, still written as "items": null. */
  method BuildUnset() returns (r: V1ListLocationsResponse)
    ensures r.items == None
    ensures r.WireKeys() == {"items"}
  {
    var b := new Builder();
    r := b.Build();
    ItemsAlwaysWritten(r);
  }

}
