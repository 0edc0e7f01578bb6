/** Request parameters for licenses, and the payloads built from them. */
module Licenses {
  import opened Wrappers
  import opened Json
  import opened Helpers

  datatype LicenseSubscription = LicenseSubscription(
    cancelAtPeriodEnd: Option<bool>,
    currentPeriodEnd: Option<DateTime>,
    pauseCollection: Option<bool>)

  datatype CreateLicenseParams = CreateLicenseParams(
    productId: string,
    email: string,
    key: Option<string>,
    metadata: Option<Dict>)

  datatype UpdateLicenseParams = UpdateLicenseParams(
    email: Option<string>,
    key: Option<string>,
    unlocked: Option<bool>,
    metadata: Option<Dict>,
    subscription: Option<LicenseSubscription>)

  /**
    `CreateLicenseParams._build_payload`: the product goes under "plan", the
    email under "email", the key and the cleaned metadata only when given.
   */
  function CreatePayload(p: CreateLicenseParams): (r: Dict)
    ensures r ==
      [Entry("plan", Str(p.productId)), Entry("email", Str(p.email))]
      + StrField("key", p.key)
      + (if p.metadata.Some? then [Entry("metadata", Obj(Clean(p.metadata.value)))] else [])
    ensures p.key.None? && p.metadata.None? ==>
      r == [Entry("plan", Str(p.productId)), Entry("email", Str(p.email))]
    ensures NullFree(r)
  {
    var raw := [
      Entry("plan", Str(p.productId)),
      Entry("email", Str(p.email)),
      Entry("key", StrOrNull(p.key)),
      Entry("metadata", DictOrNull(p.metadata))
    ];
    CleanFour(raw[0], raw[1], raw[2], raw[3]);
    CleanSingle(raw[0]); CleanSingle(raw[1]); CleanStrField("key", p.key); CleanSingle(raw[3]);
    CleanNullFree(raw);
    Clean(raw)
  }

  /** The "subscription" object once cleaned: the period end always, the two flags when given. */
  function SubscriptionWire(s: LicenseSubscription): Dict
    requires s.currentPeriodEnd.Some?
  {
    BoolField("cancel_at_period_end", s.cancelAtPeriodEnd)
    + [Entry("current_period_end", Str(s.currentPeriodEnd.value.isoFormat))]
    + BoolField("pause_collection", s.pauseCollection)
  }

  /**
    `UpdateLicenseParams._build_payload`. A subscription must carry its period
    end, which is rendered without a check. The metadata is never sent.
   */
  function UpdatePayload(p: UpdateLicenseParams): (r: Dict)
    requires p.subscription.Some? ==> p.subscription.value.currentPeriodEnd.Some?
    ensures r ==
      StrField("email", p.email)
      + StrField("key", p.key)
      + BoolField("unlocked", p.unlocked)
      + (if p.subscription.Some? then [Entry("subscription", Obj(SubscriptionWire(p.subscription.value)))] else [])
    ensures "metadata" !in Keys(r)
    ensures p.email.None? && p.key.None? && p.unlocked.None? && p.subscription.None? ==> r == []
    ensures NullFree(r)
  {
    var raw := [
      Entry("email", StrOrNull(p.email)),
      Entry("key", StrOrNull(p.key)),
      Entry("unlocked", BoolOrNull(p.unlocked)),
      Entry("subscription",
        if p.subscription.Some? then Obj(SubscriptionRaw(p.subscription.value)) else Null)
    ];
    CleanFour(raw[0], raw[1], raw[2], raw[3]);
    CleanStrField("email", p.email); CleanStrField("key", p.key); CleanBoolField("unlocked", p.unlocked);
    CleanSingle(raw[3]);
    SubscriptionCleans(p.subscription);
    CleanNullFree(raw);
    var r := Clean(raw);
    KeysOfUpdate(r, p);
    r
  }

  /** The "subscription" dict literal, before cleaning. */
  function SubscriptionRaw(s: LicenseSubscription): Dict
    requires s.currentPeriodEnd.Some?
  {
    [
      Entry("cancel_at_period_end", BoolOrNull(s.cancelAtPeriodEnd)),
      Entry("current_period_end", Str(s.currentPeriodEnd.value.isoFormat)),
      Entry("pause_collection", BoolOrNull(s.pauseCollection))
    ]
  }

  lemma SubscriptionCleans(o: Option<LicenseSubscription>)
    requires o.Some? ==> o.value.currentPeriodEnd.Some?
    ensures o.Some? ==> Clean(SubscriptionRaw(o.value)) == SubscriptionWire(o.value)
  {
    if o.Some? {
      var raw := SubscriptionRaw(o.value);
      CleanThree(raw[0], raw[1], raw[2]);
      CleanBoolField("cancel_at_period_end", o.value.cancelAtPeriodEnd);
      CleanSingle(raw[1]);
      CleanBoolField("pause_collection", o.value.pauseCollection);
    }
  }

  lemma KeysOfUpdate(r: Dict, p: UpdateLicenseParams)
    requires p.subscription.Some? ==> p.subscription.value.currentPeriodEnd.Some?
    requires r ==
      StrField("email", p.email)
      + StrField("key", p.key)
      + BoolField("unlocked", p.unlocked)
      + (if p.subscription.Some? then [Entry("subscription", Obj(SubscriptionWire(p.subscription.value)))] else [])
    ensures "metadata" !in Keys(r)
  {
    KeyAbsent(r, "metadata");
  }
}
