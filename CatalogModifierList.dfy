/**
 * Square.Models.CatalogModifierList: a list of catalog modifiers, and its builder.
 */
module CatalogModifierList {
  import opened Json
  import Nested

  /** The four wire properties of a modifier list, in declaration order. */
  datatype Field =
    | Name
    | Ordinal
    | SelectionType
    | Modifiers

  /** Every property of the type. */
  const Properties: set<Field> := {Name, Ordinal, SelectionType, Modifiers}

  /** The wire key that each property's [JsonProperty] attribute names. */
  function JsonKey(f: Field): string
  {
    match f
    case Name => "name"
    case Ordinal => "ordinal"
    case SelectionType => "selection_type"
    case Modifiers => "modifiers"
  }

  /** The NullValueHandling that each property's [JsonProperty] attribute sets. */
  function Handling(f: Field): NullValueHandling
  {
    Ignore
  }

  /** No two properties share a wire key. */
  lemma JsonKeyInjective()
    ensures forall f, g :: JsonKey(f) == JsonKey(g) ==> f == g
  {
  }

  /**
   * An immutable modifier list. The documented "at least one modifier" and
   * any range for the ordinal are not checked here.
   */
  datatype CatalogModifierList = CatalogModifierList(
    name: Option<string>,
    ordinal: Option<Int32>,
    selectionType: Option<string>,
    modifiers: Option<seq<Nested.CatalogObject>>)
  {
    /** Whether property f is null. */
    predicate IsNull(f: Field)
    {
      match f
      case Name => name.None?
      case Ordinal => ordinal.None?
      case SelectionType => selectionType.None?
      case Modifiers => modifiers.None?
    }

    /** The properties whose keys the serializer writes. */
    function WireFields(): set<Field>
    {
      set f | f in Properties && Written(Handling(f), IsNull(f))
    }

    /** The keys of the JSON object the serializer writes for this value. */
    function WireKeys(): set<string>
    {
      set f | f in WireFields() :: JsonKey(f)
    }

    /** A fresh builder staging this value's properties, by one setter call each. */
    method ToBuilder() returns (b: Builder)
      ensures fresh(b)
      ensures b.Staged() == this
    {
      b := new Builder();
      b := b.Name(name);
      b := b.Ordinal(ordinal);
      b := b.SelectionType(selectionType);
      b := b.Modifiers(modifiers);
    }
  }

  /** The C# constructor: every parameter defaults to null. */
  function New(name: Option<string> := None,
               ordinal: Option<Int32> := None,
               selectionType: Option<string> := None,
               modifiers: Option<seq<Nested.CatalogObject>> := None): CatalogModifierList
  {
    CatalogModifierList(name, ordinal, selectionType, modifiers)
  }

  /** CatalogModifierList.Builder: one private field per property. */
  class Builder {
    var name: Option<string>
    var ordinal: Option<Int32>
    var selectionType: Option<string>
    var modifiers: Option<seq<Nested.CatalogObject>>

    /** A builder with every field null. */
    constructor ()
      ensures Staged() == New()
    {
      name := None;
      ordinal := None;
      selectionType := None;
      modifiers := None;
    }

    /** The value that Build would return now. */
    function Staged(): CatalogModifierList
      reads this
    {
      New(name,
          ordinal,
          selectionType,
          modifiers)
    }

    /** Stages name, overwriting any earlier value, and returns this builder. */
    method Name(name: Option<string>) returns (b: Builder)
      modifies this
      ensures b == this
      ensures Staged() == old(Staged()).(name := name)
    {
      this.name := name;
      b := this;
    }

    /** Stages ordinal, overwriting any earlier value, and returns this builder. */
    method Ordinal(ordinal: Option<Int32>) returns (b: Builder)
      modifies this
      ensures b == this
      ensures Staged() == old(Staged()).(ordinal := ordinal)
    {
      this.ordinal := ordinal;
      b := this;
    }

    /** Stages selectionType, overwriting any earlier value, and returns this builder. */
    method SelectionType(selectionType: Option<string>) returns (b: Builder)
      modifies this
      ensures b == this
      ensures Staged() == old(Staged()).(selectionType := selectionType)
    {
      this.selectionType := selectionType;
      b := this;
    }

    /** Stages modifiers, overwriting any earlier value, and returns this builder. */
    method Modifiers(modifiers: Option<seq<Nested.CatalogObject>>) returns (b: Builder)
      modifies this
      ensures b == this
      ensures Staged() == old(Staged()).(modifiers := modifiers)
    {
      this.modifiers := modifiers;
      b := this;
    }

    /** Passes the staged fields to the constructor, without any check. */
    method Build() returns (r: CatalogModifierList)
      ensures r.name == name
      ensures r.ordinal == ordinal
      ensures r.selectionType == selectionType
      ensures r.modifiers == modifiers
    {
      r := New(name,
               ordinal,
               selectionType,
               modifiers);
    }
  }

  /** Every attribute sets NullValueHandling.Ignore, so a key is written exactly when its property is not null. */
  lemma WireKeysExact(r: CatalogModifierList)
    ensures forall f :: JsonKey(f) in r.WireKeys() <==> !r.IsNull(f)
  {
    JsonKeyInjective();
  }

  /** Omitted constructor parameters are null. */
  lemma NewDefaultsToNull()
    ensures forall f :: New().IsNull(f)
    ensures New().WireKeys() == {}
  {
  }

  /** m.ToBuilder().Build(): the same value. */
  method Rebuild(m: CatalogModifierList) returns (r: CatalogModifierList)
    ensures r == m
  {
    var b := m.ToBuilder();
    r := b.Build();
  }

  /** new Builder().Build(): every property null, so nothing is written. */
  method BuildUnset() returns (r: CatalogModifierList)
    ensures forall f :: r.IsNull(f)
    ensures r.WireKeys() == {}
  {
    var b := new Builder();
    r := b.Build();
  }

  /**
   * Build accepts an empty modifier list and any ordinal: neither the
   * documented "at least one modifier" nor a range is enforced.
   */
  method BuildWithoutModifiers(ordinal: Int32) returns (l: CatalogModifierList)
    ensures l.modifiers == Some([])
    ensures l.ordinal == Some(ordinal)
    ensures l.WireKeys() == {"ordinal", "modifiers"}
  {
    var b := new Builder();
    b := b.Ordinal(Some(ordinal));
    b := b.Modifiers(Some([]));
    l := b.Build();
    WireKeysExact(l);
  }

}
