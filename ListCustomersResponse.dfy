/**
 * Square.Models.ListCustomersResponse: one page of customers, and its builder.
 */
module ListCustomersResponse {
  import opened Json
  import Http
  import Nested

  /** The three wire properties of the response, in declaration order. */
  datatype Field =
    | Errors
    | Customers
    | Cursor

  /** Every property of the type. */
  const Properties: set<Field> := {Errors, Customers, Cursor}

  /** The wire key that each property's [JsonProperty] attribute names. */
  function JsonKey(f: Field): string
  {
    match f
    case Errors => "errors"
    case Customers => "customers"
    case Cursor => "cursor"
  }

  /** The NullValueHandling that each property's [JsonProperty] attribute sets. */
  function Handling(f: Field): NullValueHandling
  {
    Ignore
  }

  /** No two properties share a wire key. */
  lemma JsonKeyInjective()
    ensures forall f, g :: JsonKey(f) == JsonKey(g) ==> f == g
  {
  }

  /**
   * An immutable page of customers. A null cursor means there are no
   * further results. Context is not part of the wire format.
   */
  datatype ListCustomersResponse = ListCustomersResponse(
    errors: Option<seq<Nested.Error>>,
    customers: Option<seq<Nested.Customer>>,
    cursor: Option<string>,
    context: Option<Http.HttpContext>)
  {
    /** Whether property f is null. */
    predicate IsNull(f: Field)
    {
      match f
      case Errors => errors.None?
      case Customers => customers.None?
      case Cursor => cursor.None?
    }

    /** The properties whose keys the serializer writes. */
    function WireFields(): set<Field>
    {
      set f | f in Properties && Written(Handling(f), IsNull(f))
    }

    /** The keys of the JSON object the serializer writes for this value. */
    function WireKeys(): set<string>
    {
      set f | f in WireFields() :: JsonKey(f)
    }

    /**
     * The transport attaching its context through the internal setter of
     * Context; [JsonIgnore] keeps it off the wire.
     */
    function WithContext(c: Http.HttpContext): (r: ListCustomersResponse)
      ensures r.context == Some(c)
      ensures r.WireKeys() == WireKeys()
    {
      this.(context := Some(c))
    }

    /** A fresh builder staging this value's properties, by one setter call each. */
    method ToBuilder() returns (b: Builder)
      ensures fresh(b)
      ensures b.Staged() == this.(context := None)
    {
      b := new Builder();
      b := b.Errors(errors);
      b := b.Customers(customers);
      b := b.Cursor(cursor);
    }
  }

  /** The C# constructor: every parameter defaults to null, and Context is left unset. */
  function New(errors: Option<seq<Nested.Error>> := None,
               customers: Option<seq<Nested.Customer>> := None,
               cursor: Option<string> := None): ListCustomersResponse
  {
    ListCustomersResponse(errors, customers, cursor, None)
  }

  /** ListCustomersResponse.Builder: one private field per property. */
  class Builder {
    var errors: Option<seq<Nested.Error>>
    var customers: Option<seq<Nested.Customer>>
    var cursor: Option<string>

    /** A builder with every field null. */
    constructor ()
      ensures Staged() == New()
    {
      errors := None;
      customers := None;
      cursor := None;
    }

    /** The value that Build would return now. */
    function Staged(): ListCustomersResponse
      reads this
    {
      New(errors,
          customers,
          cursor)
    }

    /** Stages errors, overwriting any earlier value, and returns this builder. */
    method Errors(errors: Option<seq<Nested.Error>>) returns (b: Builder)
      modifies this
      ensures b == this
      ensures Staged() == old(Staged()).(errors := errors)
    {
      this.errors := errors;
      b := this;
    }

    /** Stages customers, overwriting any earlier value, and returns this builder. */
    method Customers(customers: Option<seq<Nested.Customer>>) returns (b: Builder)
      modifies this
      ensures b == this
      ensures Staged() == old(Staged()).(customers := customers)
    {
      this.customers := customers;
      b := this;
    }

    /** Stages cursor, overwriting any earlier value, and returns this builder. */
    method Cursor(cursor: Option<string>) returns (b: Builder)
      modifies this
      ensures b == this
      ensures Staged() == old(Staged()).(cursor := cursor)
    {
      this.cursor := cursor;
      b := this;
    }

    /** Passes the staged fields to the constructor, without any check. */
    method Build() returns (r: ListCustomersResponse)
      ensures r.errors == errors
      ensures r.customers == customers
      ensures r.cursor == cursor
      ensures r.context == None
    {
      r := New(errors,
               customers,
               cursor);
    }
  }

  /** Every attribute sets NullValueHandling.Ignore, so a key is written exactly when its property is not null;
   * in particular the final page, whose cursor is null, has no cursor key. */
  lemma WireKeysExact(r: ListCustomersResponse)
    ensures forall f :: JsonKey(f) in r.WireKeys() <==> !r.IsNull(f)
  {
    JsonKeyInjective();
  }

  /** Omitted constructor parameters are null, and the constructor never sets Context. */
  lemma NewDefaultsToNull()
    ensures forall f :: New().IsNull(f)
    ensures New().context == None
    ensures New().WireKeys() == {}
  {
  }

  /** m.ToBuilder().Build(): every wire property survives, Context does not. */
  method Rebuild(m: ListCustomersResponse) returns (r: ListCustomersResponse)
    ensures r == m.(context := None)
  {
    var b := m.ToBuilder();
    r := b.Build();
  }

  /** new Builder().Build(): every property null, so nothing is written. */
  method BuildUnset() returns (r: ListCustomersResponse)
    ensures forall f :: r.IsNull(f)
    ensures r.WireKeys() == {}
  {
    var b := new Builder();
    r := b.Build();
  }

  /**
   * An error in a successful call: errors and an empty customer list are
   * both kept as given, and both are written.
   */
  method BuildErrorWithoutCustomers(e: Nested.Error) returns (r: ListCustomersResponse)
    ensures r.errors == Some([e])
    ensures r.customers == Some([])
    ensures r.cursor == None
    ensures r.WireKeys() == {"errors", "customers"}
  {
    var b := new Builder();
    b := b.Errors(Some([e]));
    b := b.Customers(Some([]));
    r := b.Build();
    WireKeysExact(r);
  }

}
