/** Request parameters for product links, and the payloads built from them. */
module Links {
  import opened Wrappers
  import opened Json
  import opened Helpers

  datatype CreateLinkParams = CreateLinkParams(
    productId: string,
    password: Option<string>,
    trialPeriodDays: Option<int>,
    groupBuyGuild: Option<string>,
    enableBotProtection: Option<bool>,
    maxUsages: Option<int>,
    startDate: Option<DateTime>,
    initialFeeAmount: Option<Float64>)

  datatype UpdateLinkParams = UpdateLinkParams(
    active: bool,
    remainingStock: Option<int>)

  /** The only keys a create-link payload can have. */
  const CreateKeys: set<string> := {
    "plan", "password", "trial_period_days", "group_buy_guild",
    "enable_bot_protection", "max_usages", "start_date", "initial_fee_amount"
  }

  /**
    `CreateLinkParams._build_payload`. The start date is converted without a
    check, so it must be given; it is sent as whole seconds. Every optional
    field is sent exactly when it is given, `False` and `0` included.
   */
  function CreatePayload(p: CreateLinkParams): (r: Dict)
    requires p.startDate.Some?
    ensures r ==
      [Entry("plan", Str(p.productId))]
      + StrField("password", p.password)
      + IntField("trial_period_days", p.trialPeriodDays)
      + StrField("group_buy_guild", p.groupBuyGuild)
      + BoolField("enable_bot_protection", p.enableBotProtection)
      + IntField("max_usages", p.maxUsages)
      + [Entry("start_date", Int(p.startDate.value.timestamp))]
      + FloatField("initial_fee_amount", p.initialFeeAmount)
    ensures forall k :: k in Keys(r) ==> k in CreateKeys
    ensures NullFree(r)
  {
    var raw := [
      Entry("plan", Str(p.productId)),
      Entry("password", StrOrNull(p.password)),
      Entry("trial_period_days", IntOrNull(p.trialPeriodDays)),
      Entry("group_buy_guild", StrOrNull(p.groupBuyGuild)),
      Entry("enable_bot_protection", BoolOrNull(p.enableBotProtection)),
      Entry("max_usages", IntOrNull(p.maxUsages)),
      Entry("start_date", Int(p.startDate.value.timestamp)),
      Entry("initial_fee_amount", FloatOrNull(p.initialFeeAmount))
    ];
    assert Clean(raw) ==
      [raw[0]]
      + StrField("password", p.password)
      + IntField("trial_period_days", p.trialPeriodDays)
      + StrField("group_buy_guild", p.groupBuyGuild)
      + BoolField("enable_bot_protection", p.enableBotProtection)
      + IntField("max_usages", p.maxUsages)
      + [raw[6]]
      + FloatField("initial_fee_amount", p.initialFeeAmount)
    by {
      CleanEight(raw[0], raw[1], raw[2], raw[3], raw[4], raw[5], raw[6], raw[7]);
      CleanSingle(raw[0]);
      CleanSingle(raw[6]);
      CleanStrField("password", p.password);
      CleanIntField("trial_period_days", p.trialPeriodDays);
      CleanStrField("group_buy_guild", p.groupBuyGuild);
      CleanBoolField("enable_bot_protection", p.enableBotProtection);
      CleanIntField("max_usages", p.maxUsages);
      CleanFloatField("initial_fee_amount", p.initialFeeAmount);
    }
    assert NullFree(Clean(raw)) by { CleanNullFree(raw); }
    assert forall k :: k in Keys(Clean(raw)) ==> k in CreateKeys by { CleanKeysWithin(raw, CreateKeys); }
    Clean(raw)
  }

  /**
    `UpdateLinkParams._build_payload`: "active" is always sent, `False`
    included; "remaining_stock" exactly when it is given, `0` included.
   */
  function UpdatePayload(p: UpdateLinkParams): (r: Dict)
    ensures r == [Entry("active", Bool(p.active))] + IntField("remaining_stock", p.remainingStock)
    ensures NullFree(r)
  {
    var raw := [
      Entry("active", Bool(p.active)),
      Entry("remaining_stock", IntOrNull(p.remainingStock))
    ];
    CleanTwo(raw[0], raw[1]);
    CleanSingle(raw[0]); CleanIntField("remaining_stock", p.remainingStock);
    CleanNullFree(raw);
    Clean(raw)
  }
}
