/**
 * Square.Models.SearchCatalogObjectsResponse: one page of catalog search
 * results, and its builder.
 */
module SearchCatalogObjectsResponse {
  import opened Json
  import Http
  import Nested

  /** The five wire properties of the response, in declaration order. */
  datatype Field =
    | Errors
    | Cursor
    | Objects
    | RelatedObjects
    | LatestTime

  /** Every property of the type. */
  const Properties: set<Field> := {Errors, Cursor, Objects, RelatedObjects, LatestTime}

  /** The wire key that each property's [JsonProperty] attribute names. */
  function JsonKey(f: Field): string
  {
    match f
    case Errors => "errors"
    case Cursor => "cursor"
    case Objects => "objects"
    case RelatedObjects => "related_objects"
    case LatestTime => "latest_time"
  }

  /** The NullValueHandling that each property's [JsonProperty] attribute sets. */
  function Handling(f: Field): NullValueHandling
  {
    Ignore
  }

  /** No two properties share a wire key. */
  lemma JsonKeyInjective()
    ensures forall f, g :: JsonKey(f) == JsonKey(g) ==> f == g
  {
  }

  /**
   * An immutable page of results. A null cursor marks the final page;
   * latest_time is a separate timestamp, not a cursor. Context is not part of
   * the wire format.
   */
  datatype SearchCatalogObjectsResponse = SearchCatalogObjectsResponse(
    errors: Option<seq<Nested.Error>>,
    cursor: Option<string>,
    objects: Option<seq<Nested.CatalogObject>>,
    relatedObjects: Option<seq<Nested.CatalogObject>>,
    latestTime: Option<string>,
    context: Option<Http.HttpContext>)
  {
    /** Whether property f is null. */
    predicate IsNull(f: Field)
    {
      match f
      case Errors => errors.None?
      case Cursor => cursor.None?
      case Objects => objects.None?
      case RelatedObjects => relatedObjects.None?
      case LatestTime => latestTime.None?
    }

    /** The properties whose keys the serializer writes. */
    function WireFields(): set<Field>
    {
      set f | f in Properties && Written(Handling(f), IsNull(f))
    }

    /** The keys of the JSON object the serializer writes for this value. */
    function WireKeys(): set<string>
    {
      set f | f in WireFields() :: JsonKey(f)
    }

    /**
     * The transport attaching its context through the internal setter of
     * Context; [JsonIgnore] keeps it off the wire.
     */
    function WithContext(c: Http.HttpContext): (r: SearchCatalogObjectsResponse)
      ensures r.context == Some(c)
      ensures r.WireKeys() == WireKeys()
    {
      this.(context := Some(c))
    }

    /** A fresh builder staging this value's properties, by one setter call each. */
    method ToBuilder() returns (b: Builder)
      ensures fresh(b)
      ensures b.Staged() == this.(context := None)
    {
      b := new Builder();
      b := b.Errors(errors);
      b := b.Cursor(cursor);
      b := b.Objects(objects);
      b := b.RelatedObjects(relatedObjects);
      b := b.LatestTime(latestTime);
    }
  }

  /** The C# constructor: every parameter defaults to null, and Context is left unset. */
  function New(errors: Option<seq<Nested.Error>> := None,
               cursor: Option<string> := None,
               objects: Option<seq<Nested.CatalogObject>> := None,
               relatedObjects: Option<seq<Nested.CatalogObject>> := None,
               latestTime: Option<string> := None): SearchCatalogObjectsResponse
  {
    SearchCatalogObjectsResponse(errors, cursor, objects, relatedObjects, latestTime, None)
  }

  /** SearchCatalogObjectsResponse.Builder: one private field per property. */
  class Builder {
    var errors: Option<seq<Nested.Error>>
    var cursor: Option<string>
    var objects: Option<seq<Nested.CatalogObject>>
    var relatedObjects: Option<seq<Nested.CatalogObject>>
    var latestTime: Option<string>

    /** A builder with every field null. */
    constructor ()
      ensures Staged() == New()
    {
      errors := None;
      cursor := None;
      objects := None;
      relatedObjects := None;
      latestTime := None;
    }

    /** The value that Build would return now. */
    function Staged(): SearchCatalogObjectsResponse
      reads this
    {
      New(errors,
          cursor,
          objects,
          relatedObjects,
          latestTime)
    }

    /** Stages errors, overwriting any earlier value, and returns this builder. */
    method Errors(errors: Option<seq<Nested.Error>>) returns (b: Builder)
      modifies this
      ensures b == this
      ensures Staged() == old(Staged()).(errors := errors)
    {
      this.errors := errors;
      b := this;
    }

    /** Stages cursor, overwriting any earlier value, and returns this builder. */
    method Cursor(cursor: Option<string>) returns (b: Builder)
      modifies this
      ensures b == this
      ensures Staged() == old(Staged()).(cursor := cursor)
    {
      this.cursor := cursor;
      b := this;
    }

    /** Stages objects, overwriting any earlier value, and returns this builder. */
    method Objects(objects: Option<seq<Nested.CatalogObject>>) returns (b: Builder)
      modifies this
      ensures b == this
      ensures Staged() == old(Staged()).(objects := objects)
    {
      this.objects := objects;
      b := this;
    }

    /** Stages relatedObjects, overwriting any earlier value, and returns this builder. */
    method RelatedObjects(relatedObjects: Option<seq<Nested.CatalogObject>>) returns (b: Builder)
      modifies this
      ensures b == this
      ensures Staged() == old(Staged()).(relatedObjects := relatedObjects)
    {
      this.relatedObjects := relatedObjects;
      b := this;
    }

    /** Stages latestTime, overwriting any earlier value, and returns this builder. */
    method LatestTime(latestTime: Option<string>) returns (b: Builder)
      modifies this
      ensures b == this
      ensures Staged() == old(Staged()).(latestTime := latestTime)
    {
      this.latestTime := latestTime;
      b := this;
    }

    /** Passes the staged fields to the constructor, without any check. */
    method Build() returns (r: SearchCatalogObjectsResponse)
      ensures r.errors == errors
      ensures r.cursor == cursor
      ensures r.objects == objects
      ensures r.relatedObjects == relatedObjects
      ensures r.latestTime == latestTime
      ensures r.context == None
    {
      r := New(errors,
               cursor,
               objects,
               relatedObjects,
               latestTime);
    }
  }

  /** Every attribute sets NullValueHandling.Ignore, so a key is written exactly when its property is not null. */
  lemma WireKeysExact(r: SearchCatalogObjectsResponse)
    ensures forall f :: JsonKey(f) in r.WireKeys() <==> !r.IsNull(f)
  {
    JsonKeyInjective();
  }

  /** Omitted constructor parameters are null, and the constructor never sets Context. */
  lemma NewDefaultsToNull()
    ensures forall f :: New().IsNull(f)
    ensures New().context == None
    ensures New().WireKeys() == {}
  {
  }

  /** m.ToBuilder().Build(): every wire property survives, Context does not. */
  method Rebuild(m: SearchCatalogObjectsResponse) returns (r: SearchCatalogObjectsResponse)
    ensures r == m.(context := None)
  {
    var b := m.ToBuilder();
    r := b.Build();
  }

  /** new Builder().Build(): every property null, so nothing is written. */
  method BuildUnset() returns (r: SearchCatalogObjectsResponse)
    ensures forall f :: r.IsNull(f)
    ensures r.WireKeys() == {}
  {
    var b := new Builder();
    r := b.Build();
  }

  /**
   * Errors are data: a response that carries errors together with results
   * and a cursor is built without complaint, and nothing is cleared.
   */
  method BuildWithErrorsAndResults(errors: seq<Nested.Error>, objects: seq<Nested.CatalogObject>, cursor: string)
    returns (r: SearchCatalogObjectsResponse)
    requires errors != []
    ensures r.errors == Some(errors) && r.objects == Some(objects) && r.cursor == Some(cursor)
    ensures r.WireKeys() == {"errors", "cursor", "objects"}
  {
    var b := new Builder();
    b := b.Errors(Some(errors));
    b := b.Objects(Some(objects));
    b := b.Cursor(Some(cursor));
    r := b.Build();
    assert r.WireFields() == {Errors, Cursor, Objects};
  }

}
