/** Request parameters for coupons, and the payload built from them. */
module Coupons {
  import opened Wrappers
  import opened Json
  import opened Helpers

  /** How long a coupon applies. */
  datatype CouponDuration = Forever | Once | Repeating

  /** The enum's string value. */
  function DurationValue(d: CouponDuration): (s: string)
    ensures s == "forever" || s == "once" || s == "repeating"
  {
    match d
    case Forever => "forever"
    case Once => "once"
    case Repeating => "repeating"
  }

  /** `CouponDuration(s)`: the member whose value is `s`, if there is one. */
  function ParseDuration(s: string): (r: Option<CouponDuration>)
    ensures r.Some? ==> DurationValue(r.value) == s
  {
    if s == "forever" then Some(Forever)
    else if s == "once" then Some(Once)
    else if s == "repeating" then Some(Repeating)
    else None
  }

  /** Each member's value names it and no other member. */
  lemma {:induction false} DurationRoundTrip(d: CouponDuration)
    ensures ParseDuration(DurationValue(d)) == Some(d)
  {
  }

  datatype CreateCouponParams = CreateCouponParams(
    code: string,
    productId: Option<string>,
    active: Option<bool>,
    amountOff: Option<int>,
    percentOff: Option<int>,
    currency: Option<string>,
    duration: Option<CouponDuration>,
    maxRedemptions: Option<int>)

  /** The only keys a create-coupon payload can have. */
  const CreateKeys: set<string> := {
    "active", "duration", "name", "product", "amount_off", "percent_off", "currency", "max_redemptions"
  }

  /**
    `CreateCouponParams._build_payload`. The duration's value is read without
    a check, so a duration must be given. The code goes under "name", the
    product under "product"; every other field is sent exactly when given.
   */
  function CreatePayload(p: CreateCouponParams): (r: Dict)
    requires p.duration.Some?
    ensures r ==
      BoolField("active", p.active)
      + [Entry("duration", Str(DurationValue(p.duration.value)))]
      + [Entry("name", Str(p.code))]
      + StrField("product", p.productId)
      + IntField("amount_off", p.amountOff)
      + IntField("percent_off", p.percentOff)
      + StrField("currency", p.currency)
      + IntField("max_redemptions", p.maxRedemptions)
    ensures Get(r, "duration") == Some(Str(DurationValue(p.duration.value)))
    ensures forall k :: k in Keys(r) ==> k in CreateKeys
    ensures NullFree(r)
  {
    var raw := [
      Entry("active", BoolOrNull(p.active)),
      Entry("duration", Str(DurationValue(p.duration.value))),
      Entry("name", Str(p.code)),
      Entry("product", StrOrNull(p.productId)),
      Entry("amount_off", IntOrNull(p.amountOff)),
      Entry("percent_off", IntOrNull(p.percentOff)),
      Entry("currency", StrOrNull(p.currency)),
      Entry("max_redemptions", IntOrNull(p.maxRedemptions))
    ];
    assert Clean(raw) ==
      BoolField("active", p.active)
      + [raw[1]] + [raw[2]]
      + StrField("product", p.productId)
      + IntField("amount_off", p.amountOff)
      + IntField("percent_off", p.percentOff)
      + StrField("currency", p.currency)
      + IntField("max_redemptions", p.maxRedemptions)
    by {
      CleanEight(raw[0], raw[1], raw[2], raw[3], raw[4], raw[5], raw[6], raw[7]);
      CleanBoolField("active", p.active);
      CleanSingle(raw[1]);
      CleanSingle(raw[2]);
      CleanStrField("product", p.productId);
      CleanIntField("amount_off", p.amountOff);
      CleanIntField("percent_off", p.percentOff);
      CleanStrField("currency", p.currency);
      CleanIntField("max_redemptions", p.maxRedemptions);
    }
    assert NullFree(Clean(raw)) by { CleanNullFree(raw); }
    assert forall k :: k in Keys(Clean(raw)) ==> k in CreateKeys by { CleanKeysWithin(raw, CreateKeys); }
    var r := Clean(raw);
    var rest := [Entry("name", Str(p.code))]
      + StrField("product", p.productId)
      + IntField("amount_off", p.amountOff)
      + IntField("percent_off", p.percentOff)
      + StrField("currency", p.currency)
      + IntField("max_redemptions", p.maxRedemptions);
    DurationFound(p.active, Str(DurationValue(p.duration.value)), rest);
    r
  }

  /** The duration entry is found behind the optional "active" entry. */
  lemma DurationFound(active: Option<bool>, v: Value, rest: Dict)
    ensures Get(BoolField("active", active) + [Entry("duration", v)] + rest, "duration") == Some(v)
  {
    var d := BoolField("active", active) + [Entry("duration", v)] + rest;
    if active.Some? {
      assert d[0].key == "active" && d[1..] == [Entry("duration", v)] + rest;
    } else {
      assert d[0] == Entry("duration", v);
    }
  }
}
