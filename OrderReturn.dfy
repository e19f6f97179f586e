/**
 * Square.Models.OrderReturn: the returned part of an order, and its builder.
 */
module OrderReturn {
  import opened Json
  import Nested

  /** The eight wire properties of a return, in declaration order. */
  datatype Field =
    | Uid
    | SourceOrderId
    | ReturnLineItems
    | ReturnServiceCharges
    | ReturnTaxes
    | ReturnDiscounts
    | RoundingAdjustment
    | ReturnAmounts

  /** Every property of the type. */
  const Properties: set<Field> :=
    {Uid, SourceOrderId, ReturnLineItems, ReturnServiceCharges, ReturnTaxes,
     ReturnDiscounts, RoundingAdjustment, ReturnAmounts}

  /** The wire key that each property's [JsonProperty] attribute names. */
  function JsonKey(f: Field): string
  {
    match f
    case Uid => "uid"
    case SourceOrderId => "source_order_id"
    case ReturnLineItems => "return_line_items"
    case ReturnServiceCharges => "return_service_charges"
    case ReturnTaxes => "return_taxes"
    case ReturnDiscounts => "return_discounts"
    case RoundingAdjustment => "rounding_adjustment"
    case ReturnAmounts => "return_amounts"
  }

  /** The NullValueHandling that each property's [JsonProperty] attribute sets. */
  function Handling(f: Field): NullValueHandling
  {
    Ignore
  }

  /** No two properties share a wire key. */
  lemma JsonKeyInjective()
    ensures forall f, g :: JsonKey(f) == JsonKey(g) ==> f == g
  {
  }

  /**
   * An immutable order return. Its four lists are values here: each is kept
   * with the same elements, in the same order.
   */
  datatype OrderReturn = OrderReturn(
    uid: Option<string>,
    sourceOrderId: Option<string>,
    returnLineItems: Option<seq<Nested.OrderReturnLineItem>>,
    returnServiceCharges: Option<seq<Nested.OrderReturnServiceCharge>>,
    returnTaxes: Option<seq<Nested.OrderReturnTax>>,
    returnDiscounts: Option<seq<Nested.OrderReturnDiscount>>,
    roundingAdjustment: Option<Nested.OrderRoundingAdjustment>,
    returnAmounts: Option<Nested.OrderMoneyAmounts>)
  {
    /** Whether property f is null. */
    predicate IsNull(f: Field)
    {
      match f
      case Uid => uid.None?
      case SourceOrderId => sourceOrderId.None?
      case ReturnLineItems => returnLineItems.None?
      case ReturnServiceCharges => returnServiceCharges.None?
      case ReturnTaxes => returnTaxes.None?
      case ReturnDiscounts => returnDiscounts.None?
      case RoundingAdjustment => roundingAdjustment.None?
      case ReturnAmounts => returnAmounts.None?
    }

    /** The properties whose keys the serializer writes. */
    function WireFields(): set<Field>
    {
      set f | f in Properties && Written(Handling(f), IsNull(f))
    }

    /** The keys of the JSON object the serializer writes for this value. */
    function WireKeys(): set<string>
    {
      set f | f in WireFields() :: JsonKey(f)
    }

    /** A fresh builder staging this value's properties, by one setter call each. */
    method ToBuilder() returns (b: Builder)
      ensures fresh(b)
      ensures b.Staged() == this
    {
      b := new Builder();
      b := b.Uid(uid);
      b := b.SourceOrderId(sourceOrderId);
      b := b.ReturnLineItems(returnLineItems);
      b := b.ReturnServiceCharges(returnServiceCharges);
      b := b.ReturnTaxes(returnTaxes);
      b := b.ReturnDiscounts(returnDiscounts);
      b := b.RoundingAdjustment(roundingAdjustment);
      b := b.ReturnAmounts(returnAmounts);
    }
  }

  /** The C# constructor: every parameter defaults to null. */
  function New(uid: Option<string> := None,
               sourceOrderId: Option<string> := None,
               returnLineItems: Option<seq<Nested.OrderReturnLineItem>> := None,
               returnServiceCharges: Option<seq<Nested.OrderReturnServiceCharge>> := None,
               returnTaxes: Option<seq<Nested.OrderReturnTax>> := None,
               returnDiscounts: Option<seq<Nested.OrderReturnDiscount>> := None,
               roundingAdjustment: Option<Nested.OrderRoundingAdjustment> := None,
               returnAmounts: Option<Nested.OrderMoneyAmounts> := None): OrderReturn
  {
    OrderReturn(uid, sourceOrderId, returnLineItems, returnServiceCharges, returnTaxes, returnDiscounts, roundingAdjustment, returnAmounts)
  }

  /** OrderReturn.Builder: one private field per property. */
  class Builder {
    var uid: Option<string>
    var sourceOrderId: Option<string>
    var returnLineItems: Option<seq<Nested.OrderReturnLineItem>>
    var returnServiceCharges: Option<seq<Nested.OrderReturnServiceCharge>>
    var returnTaxes: Option<seq<Nested.OrderReturnTax>>
    var returnDiscounts: Option<seq<Nested.OrderReturnDiscount>>
    var roundingAdjustment: Option<Nested.OrderRoundingAdjustment>
    var returnAmounts: Option<Nested.OrderMoneyAmounts>

    /** A builder with every field null. */
    constructor ()
      ensures Staged() == New()
    {
      uid := None;
      sourceOrderId := None;
      returnLineItems := None;
      returnServiceCharges := None;
      returnTaxes := None;
      returnDiscounts := None;
      roundingAdjustment := None;
      returnAmounts := None;
    }

    /** The value that Build would return now. */
    function Staged(): OrderReturn
      reads this
    {
      New(uid,
          sourceOrderId,
          returnLineItems,
          returnServiceCharges,
          returnTaxes,
          returnDiscounts,
          roundingAdjustment,
          returnAmounts)
    }

    /** Stages uid, overwriting any earlier value, and returns this builder. */
    method Uid(uid: Option<string>) returns (b: Builder)
      modifies this
      ensures b == this
      ensures Staged() == old(Staged()).(uid := uid)
    {
      this.uid := uid;
      b := this;
    }

    /** Stages sourceOrderId, overwriting any earlier value, and returns this builder. */
    method SourceOrderId(sourceOrderId: Option<string>) returns (b: Builder)
      modifies this
      ensures b == this
      ensures Staged() == old(Staged()).(sourceOrderId := sourceOrderId)
    {
      this.sourceOrderId := sourceOrderId;
      b := this;
    }

    /** Stages returnLineItems, overwriting any earlier value, and returns this builder. */
    method ReturnLineItems(returnLineItems: Option<seq<Nested.OrderReturnLineItem>>) returns (b: Builder)
      modifies this
      ensures b == this
      ensures Staged() == old(Staged()).(returnLineItems := returnLineItems)
    {
      this.returnLineItems := returnLineItems;
      b := this;
    }

    /** Stages returnServiceCharges, overwriting any earlier value, and returns this builder. */
    method ReturnServiceCharges(returnServiceCharges: Option<seq<Nested.OrderReturnServiceCharge>>) returns (b: Builder)
      modifies this
      ensures b == this
      ensures Staged() == old(Staged()).(returnServiceCharges := returnServiceCharges)
    {
      this.returnServiceCharges := returnServiceCharges;
      b := this;
    }

    /** Stages returnTaxes, overwriting any earlier value, and returns this builder. */
    method ReturnTaxes(returnTaxes: Option<seq<Nested.OrderReturnTax>>) returns (b: Builder)
      modifies this
      ensures b == this
      ensures Staged() == old(Staged()).(returnTaxes := returnTaxes)
    {
      this.returnTaxes := returnTaxes;
      b := this;
    }

    /** Stages returnDiscounts, overwriting any earlier value, and returns this builder. */
    method ReturnDiscounts(returnDiscounts: Option<seq<Nested.OrderReturnDiscount>>) returns (b: Builder)
      modifies this
      ensures b == this
      ensures Staged() == old(Staged()).(returnDiscounts := returnDiscounts)
    {
      this.returnDiscounts := returnDiscounts;
      b := this;
    }

    /** Stages roundingAdjustment, overwriting any earlier value, and returns this builder. */
    method RoundingAdjustment(roundingAdjustment: Option<Nested.OrderRoundingAdjustment>) returns (b: Builder)
      modifies this
      ensures b == this
      ensures Staged() == old(Staged()).(roundingAdjustment := roundingAdjustment)
    {
      this.roundingAdjustment := roundingAdjustment;
      b := this;
    }

    /** Stages returnAmounts, overwriting any earlier value, and returns this builder. */
    method ReturnAmounts(returnAmounts: Option<Nested.OrderMoneyAmounts>) returns (b: Builder)
      modifies this
      ensures b == this
      ensures Staged() == old(Staged()).(returnAmounts := returnAmounts)
    {
      this.returnAmounts := returnAmounts;
      b := this;
    }

    /** Passes the staged fields to the constructor, without any check. */
    method Build() returns (r: OrderReturn)
      ensures r.uid == uid
      ensures r.sourceOrderId == sourceOrderId
      ensures r.returnLineItems == returnLineItems
      ensures r.returnServiceCharges == returnServiceCharges
      ensures r.returnTaxes == returnTaxes
      ensures r.returnDiscounts == returnDiscounts
      ensures r.roundingAdjustment == roundingAdjustment
      ensures r.returnAmounts == returnAmounts
    {
      r := New(uid,
               sourceOrderId,
               returnLineItems,
               returnServiceCharges,
               returnTaxes,
               returnDiscounts,
               roundingAdjustment,
               returnAmounts);
    }
  }

  /** Every attribute sets NullValueHandling.Ignore, so a key is written exactly when its property is not null. */
  lemma WireKeysExact(r: OrderReturn)
    ensures forall f :: JsonKey(f) in r.WireKeys() <==> !r.IsNull(f)
  {
    JsonKeyInjective();
  }

  /** Omitted constructor parameters are null. */
  lemma NewDefaultsToNull()
    ensures forall f :: New().IsNull(f)
    ensures New().WireKeys() == {}
  {
  }

  /** m.ToBuilder().Build(): the same value. */
  method Rebuild(m: OrderReturn) returns (r: OrderReturn)
    ensures r == m
  {
    var b := m.ToBuilder();
    r := b.Build();
  }

  /** new Builder().Build(): every property null, so nothing is written. */
  method BuildUnset() returns (r: OrderReturn)
    ensures forall f :: r.IsNull(f)
    ensures r.WireKeys() == {}
  {
    var b := new Builder();
    r := b.Build();
  }

  /** The four list setters keep each list as given: same elements, same order, same length. */
  method BuildWithLists(lineItems: seq<Nested.OrderReturnLineItem>,
                        serviceCharges: seq<Nested.OrderReturnServiceCharge>,
                        taxes: seq<Nested.OrderReturnTax>,
                        discounts: seq<Nested.OrderReturnDiscount>)
    returns (r: OrderReturn)
    ensures r.returnLineItems == Some(lineItems)
    ensures r.returnServiceCharges == Some(serviceCharges)
    ensures r.returnTaxes == Some(taxes)
    ensures r.returnDiscounts == Some(discounts)
    ensures r.WireKeys() == {"return_line_items", "return_service_charges", "return_taxes", "return_discounts"}
  {
    var b := new Builder();
    b := b.ReturnLineItems(Some(lineItems));
    b := b.ReturnServiceCharges(Some(serviceCharges));
    b := b.ReturnTaxes(Some(taxes));
    b := b.ReturnDiscounts(Some(discounts));
    r := b.Build();
    WireKeysExact(r);
  }

}
