/**
 * Square.Models.RetrieveTeamMemberResponse: the answer to a team member lookup,
 * and its builder.
 */
module RetrieveTeamMemberResponse {
  import opened Json
  import Http
  import Nested

  /** The two wire properties of the response, in declaration order. */
  datatype Field =
    | TeamMember
    | Errors

  /** Every property of the type. */
  const Properties: set<Field> := {TeamMember, Errors}

  /** The wire key that each property's [JsonProperty] attribute names. */
  function JsonKey(f: Field): string
  {
    match f
    case TeamMember => "team_member"
    case Errors => "errors"
  }

  /** The NullValueHandling that each property's [JsonProperty] attribute sets. */
  function Handling(f: Field): NullValueHandling
  {
    Ignore
  }

  /** No two properties share a wire key. */
  lemma JsonKeyInjective()
    ensures forall f, g :: JsonKey(f) == JsonKey(g) ==> f == g
  {
  }

  /**
   * An immutable response: a team member and errors, independent of each
   * other. Context is not part of the wire format.
   */
  datatype RetrieveTeamMemberResponse = RetrieveTeamMemberResponse(
    teamMember: Option<Nested.TeamMember>,
    errors: Option<seq<Nested.Error>>,
    context: Option<Http.HttpContext>)
  {
    /** Whether property f is null. */
    predicate IsNull(f: Field)
    {
      match f
      case TeamMember => teamMember.None?
      case Errors => errors.None?
    }

    /** The properties whose keys the serializer writes. */
    function WireFields(): set<Field>
    {
      set f | f in Properties && Written(Handling(f), IsNull(f))
    }

    /** The keys of the JSON object the serializer writes for this value. */
    function WireKeys(): set<string>
    {
      set f | f in WireFields() :: JsonKey(f)
    }

    /**
     * The transport attaching its context through the internal setter of
     * Context; [JsonIgnore] keeps it off the wire.
     */
    function WithContext(c: Http.HttpContext): (r: RetrieveTeamMemberResponse)
      ensures r.context == Some(c)
      ensures r.WireKeys() == WireKeys()
    {
      this.(context := Some(c))
    }

    /** A fresh builder staging this value's properties, by one setter call each. */
    method ToBuilder() returns (b: Builder)
      ensures fresh(b)
      ensures b.Staged() == this.(context := None)
    {
      b := new Builder();
      b := b.TeamMember(teamMember);
      b := b.Errors(errors);
    }
  }

  /** The C# constructor: both parameters default to null, and Context is left unset. */
  function New(teamMember: Option<Nested.TeamMember> := None,
               errors: Option<seq<Nested.Error>> := None): RetrieveTeamMemberResponse
  {
    RetrieveTeamMemberResponse(teamMember, errors, None)
  }

  /** RetrieveTeamMemberResponse.Builder: one private field per property. */
  class Builder {
    var teamMember: Option<Nested.TeamMember>
    var errors: Option<seq<Nested.Error>>

    /** A builder with every field null. */
    constructor ()
      ensures Staged() == New()
    {
      teamMember := None;
      errors := None;
    }

    /** The value that Build would return now. */
    function Staged(): RetrieveTeamMemberResponse
      reads this
    {
      New(teamMember,
          errors)
    }

    /** Stages teamMember, overwriting any earlier value, and returns this builder. */
    method TeamMember(teamMember: Option<Nested.TeamMember>) returns (b: Builder)
      modifies this
      ensures b == this
      ensures Staged() == old(Staged()).(teamMember := teamMember)
    {
      this.teamMember := teamMember;
      b := this;
    }

    /** Stages errors, overwriting any earlier value, and returns this builder. */
    method Errors(errors: Option<seq<Nested.Error>>) returns (b: Builder)
      modifies this
      ensures b == this
      ensures Staged() == old(Staged()).(errors := errors)
    {
      this.errors := errors;
      b := this;
    }

    /** Passes the staged fields to the constructor, without any check. */
    method Build() returns (r: RetrieveTeamMemberResponse)
      ensures r.teamMember == teamMember
      ensures r.errors == errors
      ensures r.context == None
    {
      r := New(teamMember,
               errors);
    }
  }

  /** Both attributes set NullValueHandling.Ignore, so a key is written exactly when its property is not null. */
  lemma WireKeysExact(r: RetrieveTeamMemberResponse)
    ensures forall f :: JsonKey(f) in r.WireKeys() <==> !r.IsNull(f)
  {
    JsonKeyInjective();
  }

  /** Omitted constructor parameters are null, and the constructor never sets Context. */
  lemma NewDefaultsToNull()
    ensures forall f :: New().IsNull(f)
    ensures New().context == None
    ensures New().WireKeys() == {}
  {
  }

  /** m.ToBuilder().Build(): every wire property survives, Context does not. */
  method Rebuild(m: RetrieveTeamMemberResponse) returns (r: RetrieveTeamMemberResponse)
    ensures r == m.(context := None)
  {
    var b := m.ToBuilder();
    r := b.Build();
  }

  /** new Builder().Build(): every property null, so nothing is written. */
  method BuildUnset() returns (r: RetrieveTeamMemberResponse)
    ensures forall f :: r.IsNull(f)
    ensures r.WireKeys() == {}
  {
    var b := new Builder();
    r := b.Build();
  }

  /** A team member and errors may both be present: nothing makes them exclusive. */
  method BuildWithMemberAndErrors(member: Nested.TeamMember, errors: seq<Nested.Error>)
    returns (r: RetrieveTeamMemberResponse)
    ensures r.teamMember == Some(member)
    ensures r.errors == Some(errors)
    ensures r.WireKeys() == {"team_member", "errors"}
  {
    var b := new Builder();
    b := b.TeamMember(Some(member));
    b := b.Errors(Some(errors));
    r := b.Build();
    assert r.WireFields() == {TeamMember, Errors};
  }

}
