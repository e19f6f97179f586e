/**
 * Square.Models.V1OrderHistoryEntry: one entry of a v1 order's history,
 * and its builder.
 */
module V1OrderHistoryEntry {
  import opened Json

  /** The two wire properties of a history entry, in declaration order. */
  datatype Field =
    | Action
    | CreatedAt

  /** Every property of the type. */
  const Properties: set<Field> := {Action, CreatedAt}

  /** The wire key that each property's [JsonProperty] attribute names. */
  function JsonKey(f: Field): string
  {
    match f
    case Action => "action"
    case CreatedAt => "created_at"
  }

  /** The NullValueHandling that each property's [JsonProperty] attribute sets. */
  function Handling(f: Field): NullValueHandling
  {
    Ignore
  }

  /** No two properties share a wire key. */
  lemma JsonKeyInjective()
    ensures forall f, g :: JsonKey(f) == JsonKey(g) ==> f == g
  {
  }

  /**
   * An immutable history entry.
   */
  datatype V1OrderHistoryEntry = V1OrderHistoryEntry(
    action: Option<string>,
    createdAt: Option<string>)
  {
    /** Whether property f is null. */
    predicate IsNull(f: Field)
    {
      match f
      case Action => action.None?
      case CreatedAt => createdAt.None?
    }

    /** The properties whose keys the serializer writes. */
    function WireFields(): set<Field>
    {
      set f | f in Properties && Written(Handling(f), IsNull(f))
    }

    /** The keys of the JSON object the serializer writes for this value. */
    function WireKeys(): set<string>
    {
      set f | f in WireFields() :: JsonKey(f)
    }

    /** A fresh builder staging this value's properties, by one setter call each. */
    method ToBuilder() returns (b: Builder)
      ensures fresh(b)
      ensures b.Staged() == this
    {
      b := new Builder();
      b := b.Action(action);
      b := b.CreatedAt(createdAt);
    }
  }

  /** The C# constructor: both parameters default to null. */
  function New(action: Option<string> := None,
               createdAt: Option<string> := None): V1OrderHistoryEntry
  {
    V1OrderHistoryEntry(action, createdAt)
  }

  /** V1OrderHistoryEntry.Builder: one private field per property. */
  class Builder {
    var action: Option<string>
    var createdAt: Option<string>

    /** A builder with every field null. */
    constructor ()
      ensures Staged() == New()
    {
      action := None;
      createdAt := None;
    }

    /** The value that Build would return now. */
    function Staged(): V1OrderHistoryEntry
      reads this
    {
      New(action,
          createdAt)
    }

    /** Stages action, overwriting any earlier value, and returns this builder. */
    method Action(action: Option<string>) returns (b: Builder)
      modifies this
      ensures b == this
      ensures Staged() == old(Staged()).(action := action)
    {
      this.action := action;
      b := this;
    }

    /** Stages createdAt, overwriting any earlier value, and returns this builder. */
    method CreatedAt(createdAt: Option<string>) returns (b: Builder)
      modifies this
      ensures b == this
      ensures Staged() == old(Staged()).(createdAt := createdAt)
    {
      this.createdAt := createdAt;
      b := this;
    }

    /** Passes the staged fields to the constructor, without any check. */
    method Build() returns (r: V1OrderHistoryEntry)
      ensures r.action == action
      ensures r.createdAt == createdAt
    {
      r := New(action,
               createdAt);
    }
  }

  /** Both attributes set NullValueHandling.Ignore, so a key is written exactly when its property is not null. */
  lemma WireKeysExact(r: V1OrderHistoryEntry)
    ensures forall f :: JsonKey(f) in r.WireKeys() <==> !r.IsNull(f)
  {
    JsonKeyInjective();
  }

  /** Omitted constructor parameters are null. */
  lemma NewDefaultsToNull()
    ensures forall f :: New().IsNull(f)
    ensures New().WireKeys() == {}
  {
  }

  /** m.ToBuilder().Build(): the same value. */
  method Rebuild(m: V1OrderHistoryEntry) returns (r: V1OrderHistoryEntry)
    ensures r == m
  {
    var b := m.ToBuilder();
    r := b.Build();
  }

  /** new Builder().Build(): every property null, so nothing is written. */
  method BuildUnset() returns (r: V1OrderHistoryEntry)
    ensures forall f :: r.IsNull(f)
    ensures r.WireKeys() == {}
  {
    var b := new Builder();
    r := b.Build();
  }


}
