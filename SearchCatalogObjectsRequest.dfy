/**
 * Square.Models.SearchCatalogObjectsRequest: the body of a catalog search,
 * a paginated request, and its builder.
 */
module SearchCatalogObjectsRequest {
  import opened Json
  import Nested

  /** The seven wire properties of the request, in declaration order. */
  datatype Field =
    | Cursor
    | ObjectTypes
    | IncludeDeletedObjects
    | IncludeRelatedObjects
    | BeginTime
    | Query
    | Limit

  /** Every property of the type. */
  const Properties: set<Field> :=
    {Cursor, ObjectTypes, IncludeDeletedObjects, IncludeRelatedObjects, BeginTime,
     Query, Limit}

  /** The wire key that each property's [JsonProperty] attribute names. */
  function JsonKey(f: Field): string
  {
    match f
    case Cursor => "cursor"
    case ObjectTypes => "object_types"
    case IncludeDeletedObjects => "include_deleted_objects"
    case IncludeRelatedObjects => "include_related_objects"
    case BeginTime => "begin_time"
    case Query => "query"
    case Limit => "limit"
  }

  /** The NullValueHandling that each property's [JsonProperty] attribute sets. */
  function Handling(f: Field): NullValueHandling
  {
    Ignore
  }

  /** No two properties share a wire key. */
  lemma JsonKeyInjective()
    ensures forall f, g :: JsonKey(f) == JsonKey(g) ==> f == g
  {
  }

  /**
   * An immutable catalog search request. The cursor is left unset on the
   * first request; the limit is advisory and is sent as given.
   */
  datatype SearchCatalogObjectsRequest = SearchCatalogObjectsRequest(
    cursor: Option<string>,
    objectTypes: Option<seq<string>>,
    includeDeletedObjects: Option<bool>,
    includeRelatedObjects: Option<bool>,
    beginTime: Option<string>,
    query: Option<Nested.CatalogQuery>,
    limit: Option<Int32>)
  {
    /** Whether property f is null. */
    predicate IsNull(f: Field)
    {
      match f
      case Cursor => cursor.None?
      case ObjectTypes => objectTypes.None?
      case IncludeDeletedObjects => includeDeletedObjects.None?
      case IncludeRelatedObjects => includeRelatedObjects.None?
      case BeginTime => beginTime.None?
      case Query => query.None?
      case Limit => limit.None?
    }

    /** The properties whose keys the serializer writes. */
    function WireFields(): set<Field>
    {
      set f | f in Properties && Written(Handling(f), IsNull(f))
    }

    /** The keys of the JSON object the serializer writes for this value. */
    function WireKeys(): set<string>
    {
      set f | f in WireFields() :: JsonKey(f)
    }

    /** A fresh builder staging this value's properties, by one setter call each. */
    method ToBuilder() returns (b: Builder)
      ensures fresh(b)
      ensures b.Staged() == this
    {
      b := new Builder();
      b := b.Cursor(cursor);
      b := b.ObjectTypes(objectTypes);
      b := b.IncludeDeletedObjects(includeDeletedObjects);
      b := b.IncludeRelatedObjects(includeRelatedObjects);
      b := b.BeginTime(beginTime);
      b := b.Query(query);
      b := b.Limit(limit);
    }
  }

  /** The C# constructor: every parameter defaults to null. */
  function New(cursor: Option<string> := None,
               objectTypes: Option<seq<string>> := None,
               includeDeletedObjects: Option<bool> := None,
               includeRelatedObjects: Option<bool> := None,
               beginTime: Option<string> := None,
               query: Option<Nested.CatalogQuery> := None,
               limit: Option<Int32> := None): SearchCatalogObjectsRequest
  {
    SearchCatalogObjectsRequest(cursor, objectTypes, includeDeletedObjects, includeRelatedObjects, beginTime, query, limit)
  }

  /** SearchCatalogObjectsRequest.Builder: one private field per property. */
  class Builder {
    var cursor: Option<string>
    var objectTypes: Option<seq<string>>
    var includeDeletedObjects: Option<bool>
    var includeRelatedObjects: Option<bool>
    var beginTime: Option<string>
    var query: Option<Nested.CatalogQuery>
    var limit: Option<Int32>

    /** A builder with every field null. */
    constructor ()
      ensures Staged() == New()
    {
      cursor := None;
      objectTypes := None;
      includeDeletedObjects := None;
      includeRelatedObjects := None;
      beginTime := None;
      query := None;
      limit := None;
    }

    /** The value that Build would return now. */
    function Staged(): SearchCatalogObjectsRequest
      reads this
    {
      New(cursor,
          objectTypes,
          includeDeletedObjects,
          includeRelatedObjects,
          beginTime,
          query,
          limit)
    }

    /** Stages cursor, overwriting any earlier value, and returns this builder. */
    method Cursor(cursor: Option<string>) returns (b: Builder)
      modifies this
      ensures b == this
      ensures Staged() == old(Staged()).(cursor := cursor)
    {
      this.cursor := cursor;
      b := this;
    }

    /** Stages objectTypes, overwriting any earlier value, and returns this builder. */
    method ObjectTypes(objectTypes: Option<seq<string>>) returns (b: Builder)
      modifies this
      ensures b == this
      ensures Staged() == old(Staged()).(objectTypes := objectTypes)
    {
      this.objectTypes := objectTypes;
      b := this;
    }

    /** Stages includeDeletedObjects, overwriting any earlier value, and returns this builder. */
    method IncludeDeletedObjects(includeDeletedObjects: Option<bool>) returns (b: Builder)
      modifies this
      ensures b == this
      ensures Staged() == old(Staged()).(includeDeletedObjects := includeDeletedObjects)
    {
      this.includeDeletedObjects := includeDeletedObjects;
      b := this;
    }

    /** Stages includeRelatedObjects, overwriting any earlier value, and returns this builder. */
    method IncludeRelatedObjects(includeRelatedObjects: Option<bool>) returns (b: Builder)
      modifies this
      ensures b == this
      ensures Staged() == old(Staged()).(includeRelatedObjects := includeRelatedObjects)
    {
      this.includeRelatedObjects := includeRelatedObjects;
      b := this;
    }

    /** Stages beginTime, overwriting any earlier value, and returns this builder. */
    method BeginTime(beginTime: Option<string>) returns (b: Builder)
      modifies this
      ensures b == this
      ensures Staged() == old(Staged()).(beginTime := beginTime)
    {
      this.beginTime := beginTime;
      b := this;
    }

    /** Stages query, overwriting any earlier value, and returns this builder. */
    method Query(query: Option<Nested.CatalogQuery>) returns (b: Builder)
      modifies this
      ensures b == this
      ensures Staged() == old(Staged()).(query := query)
    {
      this.query := query;
      b := this;
    }

    /** Stages limit, overwriting any earlier value, and returns this builder. */
    method Limit(limit: Option<Int32>) returns (b: Builder)
      modifies this
      ensures b == this
      ensures Staged() == old(Staged()).(limit := limit)
    {
      this.limit := limit;
      b := this;
    }

    /** Passes the staged fields to the constructor, without any check. */
    method Build() returns (r: SearchCatalogObjectsRequest)
      ensures r.cursor == cursor
      ensures r.objectTypes == objectTypes
      ensures r.includeDeletedObjects == includeDeletedObjects
      ensures r.includeRelatedObjects == includeRelatedObjects
      ensures r.beginTime == beginTime
      ensures r.query == query
      ensures r.limit == limit
    {
      r := New(cursor,
               objectTypes,
               includeDeletedObjects,
               includeRelatedObjects,
               beginTime,
               query,
               limit);
    }
  }

  /** Every attribute sets NullValueHandling.Ignore, so a key is written exactly when its property is not null. */
  lemma WireKeysExact(r: SearchCatalogObjectsRequest)
    ensures forall f :: JsonKey(f) in r.WireKeys() <==> !r.IsNull(f)
  {
    JsonKeyInjective();
  }

  /** Omitted constructor parameters are null. */
  lemma NewDefaultsToNull()
    ensures forall f :: New().IsNull(f)
    ensures New().WireKeys() == {}
  {
  }

  /** m.ToBuilder().Build(): the same value. */
  method Rebuild(m: SearchCatalogObjectsRequest) returns (r: SearchCatalogObjectsRequest)
    ensures r == m
  {
    var b := m.ToBuilder();
    r := b.Build();
  }

  /** new Builder().Build(): every property null, so nothing is written. */
  method BuildUnset() returns (r: SearchCatalogObjectsRequest)
    ensures forall f :: r.IsNull(f)
    ensures r.WireKeys() == {}
  {
    var b := new Builder();
    r := b.Build();
  }

  /**
   * The limit is stored and written as given: the builder neither clamps
   * nor rejects a value below 1 or above 1000; ignoring it is the server's
   * business.
   */
  method LimitIsNotClamped(limit: Int32) returns (r: SearchCatalogObjectsRequest)
    ensures r.limit == Some(limit)
    ensures r.WireKeys() == {"limit"}
  {
    var b := new Builder();
    b := b.Limit(Some(limit));
    r := b.Build();
    assert r.WireFields() == {Limit};
  }

}
