/**
 * Square.Models.CustomerGroup: a named group of customers, and its builder.
 */
module CustomerGroup {
  import opened Json

  /** The four wire properties of a customer group, in declaration order. */
  datatype Field =
    | Id
    | Name
    | CreatedAt
    | UpdatedAt

  /** Every property of the type. */
  const Properties: set<Field> := {Id, Name, CreatedAt, UpdatedAt}

  /** The wire key that each property's [JsonProperty] attribute names. */
  function JsonKey(f: Field): string
  {
    match f
    case Id => "id"
    case Name => "name"
    case CreatedAt => "created_at"
    case UpdatedAt => "updated_at"
  }

  /** The NullValueHandling that each property's [JsonProperty] attribute sets. */
  function Handling(f: Field): NullValueHandling
  {
    match f
    case Name => Include
    case _ => Ignore
  }

  /** No two properties share a wire key. */
  lemma JsonKeyInjective()
    ensures forall f, g :: JsonKey(f) == JsonKey(g) ==> f == g
  {
  }

  /**
   * An immutable customer group. The name is required by the constructor's
   * signature but may still be null: nothing checks it.
   */
  datatype CustomerGroup = CustomerGroup(
    id: Option<string>,
    name: Option<string>,
    createdAt: Option<string>,
    updatedAt: Option<string>)
  {
    /** Whether property f is null. */
    predicate IsNull(f: Field)
    {
      match f
      case Id => id.None?
      case Name => name.None?
      case CreatedAt => createdAt.None?
      case UpdatedAt => updatedAt.None?
    }

    /** The properties whose keys the serializer writes. */
    function WireFields(): set<Field>
    {
      set f | f in Properties && Written(Handling(f), IsNull(f))
    }

    /** The keys of the JSON object the serializer writes for this value. */
    function WireKeys(): set<string>
    {
      set f | f in WireFields() :: JsonKey(f)
    }

    /** A fresh builder staging this value's properties, by one setter call each. */
    method ToBuilder() returns (b: Builder)
      ensures fresh(b)
      ensures b.Staged() == this
    {
      b := new Builder(name);
      b := b.Id(id);
      b := b.CreatedAt(createdAt);
      b := b.UpdatedAt(updatedAt);
    }
  }

  /** The C# constructor: name has no default, the other parameters default to null.
   * It assigns the properties in another order than it takes them. */
  function New(name: Option<string>, id: Option<string> := None,
             createdAt: Option<string> := None, updatedAt: Option<string> := None): CustomerGroup
  {
    CustomerGroup(id, name, createdAt, updatedAt)
  }

  /** CustomerGroup.Builder: seeded with a name, the other fields set by setters. */
  class Builder {
    var name: Option<string>
    var id: Option<string>
    var createdAt: Option<string>
    var updatedAt: Option<string>

    /** The only way to obtain a builder: with a name, which may be null. */
    constructor (name: Option<string>)
      ensures Staged() == New(name)
    {
      this.name := name;
      id := None;
      createdAt := None;
      updatedAt := None;
    }

    /** The value that Build would return now. */
    function Staged(): CustomerGroup
      reads this
    {
      New(name, id, createdAt, updatedAt)
    }

    /** Stages name, overwriting any earlier value, and returns this builder. */
    method Name(name: Option<string>) returns (b: Builder)
      modifies this
      ensures b == this
      ensures Staged() == old(Staged()).(name := name)
    {
      this.name := name;
      b := this;
    }

    /** Stages id, overwriting any earlier value, and returns this builder. */
    method Id(id: Option<string>) returns (b: Builder)
      modifies this
      ensures b == this
      ensures Staged() == old(Staged()).(id := id)
    {
      this.id := id;
      b := this;
    }

    /** Stages createdAt, overwriting any earlier value, and returns this builder. */
    method CreatedAt(createdAt: Option<string>) returns (b: Builder)
      modifies this
      ensures b == this
      ensures Staged() == old(Staged()).(createdAt := createdAt)
    {
      this.createdAt := createdAt;
      b := this;
    }

    /** Stages updatedAt, overwriting any earlier value, and returns this builder. */
    method UpdatedAt(updatedAt: Option<string>) returns (b: Builder)
      modifies this
      ensures b == this
      ensures Staged() == old(Staged()).(updatedAt := updatedAt)
    {
      this.updatedAt := updatedAt;
      b := this;
    }

    /** Passes the staged fields to the constructor, without any check. */
    method Build() returns (r: CustomerGroup)
      ensures r.id == id
      ensures r.name == name
      ensures r.createdAt == createdAt
      ensures r.updatedAt == updatedAt
    {
      r := New(name, id, createdAt, updatedAt);
    }
  }

  /** name has no NullValueHandling, so it is always written (as null when null);
   * the other keys are written exactly when their property is not null. */
  lemma WireKeysExact(r: CustomerGroup)
    ensures forall f :: JsonKey(f) in r.WireKeys() <==> f == Name || !r.IsNull(f)
  {
    JsonKeyInjective();
  }

  /** The constructor stores the name as given, even null; the other parameters default to null. */
  lemma NewDefaultsToNull(name: Option<string>)
    ensures New(name).name == name
    ensures forall f :: f != Name ==> New(name).IsNull(f)
    ensures New(name).WireKeys() == {"name"}
  {
    WireKeysExact(New(name));
  }

  /** m.ToBuilder().Build(): the same value. */
  method Rebuild(m: CustomerGroup) returns (r: CustomerGroup)
    ensures r == m
  {
    var b := m.ToBuilder();
    r := b.Build();
  }

  /**
   * new Builder(name).Build(): the name as given, even null (Build checks
   * nothing), and only the name key written; for "VIP" that is {"name": "VIP"}.
   */
  method BuildNamed(name: Option<string>) returns (g: CustomerGroup)
    ensures g.name == name
    ensures forall f :: f != Name ==> g.IsNull(f)
    ensures g.WireKeys() == {"name"}
  {
    var b := new Builder(name);
    g := b.Build();
    WireKeysExact(g);
  }

}
