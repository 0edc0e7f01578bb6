/** Request parameters for raffles, and the payload built from them. */
module Raffles {
  import opened Wrappers
  import opened Json
  import opened Helpers

  /**
    The guild field keeps the record's own misspelling, `grouop_buy_guild`;
    it is sent under the correctly spelled key "group_buy_guild".
   */
  datatype CreateRaffleParams = CreateRaffleParams(
    productId: string,
    spots: int,
    pickWinnersAt: DateTime,
    active: Option<bool>,
    trialPeriodDays: Option<int>,
    initialFeeAmount: Option<int>,
    grouopBuyGuild: Option<string>)

  /** The only keys a create-raffle payload can have. */
  const CreateKeys: set<string> := {
    "active", "trial_period_days", "plan", "spots", "initial_fee_amount",
    "pick_winners_at", "group_buy_guild"
  }

  /**
    `CreateRaffleParams._build_payload`: the product under "plan", the
    spots and the draw date (in ISO form) always; every optional field
    exactly when it is given, `False` and `0` included.
   */
  function CreatePayload(p: CreateRaffleParams): (r: Dict)
    ensures r ==
      BoolField("active", p.active)
      + IntField("trial_period_days", p.trialPeriodDays)
      + [Entry("plan", Str(p.productId))]
      + [Entry("spots", Int(p.spots))]
      + IntField("initial_fee_amount", p.initialFeeAmount)
      + [Entry("pick_winners_at", Str(p.pickWinnersAt.isoFormat))]
      + StrField("group_buy_guild", p.grouopBuyGuild)
    ensures forall k :: k in Keys(r) ==> k in CreateKeys
    ensures NullFree(r)
  {
    var raw := [
      Entry("active", BoolOrNull(p.active)),
      Entry("trial_period_days", IntOrNull(p.trialPeriodDays)),
      Entry("plan", Str(p.productId)),
      Entry("spots", Int(p.spots)),
      Entry("initial_fee_amount", IntOrNull(p.initialFeeAmount)),
      Entry("pick_winners_at", Str(p.pickWinnersAt.isoFormat)),
      Entry("group_buy_guild", StrOrNull(p.grouopBuyGuild))
    ];
    assert Clean(raw) ==
      BoolField("active", p.active)
      + IntField("trial_period_days", p.trialPeriodDays)
      + [raw[2]] + [raw[3]]
      + IntField("initial_fee_amount", p.initialFeeAmount)
      + [raw[5]]
      + StrField("group_buy_guild", p.grouopBuyGuild)
    by {
      CleanSeven(raw[0], raw[1], raw[2], raw[3], raw[4], raw[5], raw[6]);
      CleanBoolField("active", p.active);
      CleanIntField("trial_period_days", p.trialPeriodDays);
      CleanSingle(raw[2]);
      CleanSingle(raw[3]);
      CleanIntField("initial_fee_amount", p.initialFeeAmount);
      CleanSingle(raw[5]);
      CleanStrField("group_buy_guild", p.grouopBuyGuild);
    }
    assert NullFree(Clean(raw)) by { CleanNullFree(raw); }
    assert forall k :: k in Keys(Clean(raw)) ==> k in CreateKeys by { CleanKeysWithin(raw, CreateKeys); }
    Clean(raw)
  }

  /** The required fields always reach the wire, whatever the optional ones are. */
  lemma RequiredFieldsSent(p: CreateRaffleParams)
    ensures Get(CreatePayload(p), "plan") == Some(Str(p.productId))
    ensures Get(CreatePayload(p), "spots") == Some(Int(p.spots))
    ensures Get(CreatePayload(p), "pick_winners_at") == Some(Str(p.pickWinnersAt.isoFormat))
  {
    var r := CreatePayload(p);
    var active := BoolField("active", p.active);
    var trial := IntField("trial_period_days", p.trialPeriodDays);
    var plan := Entry("plan", Str(p.productId));
    var spots := Entry("spots", Int(p.spots));
    var fee := IntField("initial_fee_amount", p.initialFeeAmount);
    var pick := Entry("pick_winners_at", Str(p.pickWinnersAt.isoFormat));
    var guild := StrField("group_buy_guild", p.grouopBuyGuild);
    assert r == (active + trial) + [plan] + ([spots] + fee + [pick] + guild);
    GetAt(active + trial, plan, [spots] + fee + [pick] + guild);
    assert r == (active + trial + [plan]) + [spots] + (fee + [pick] + guild);
    GetAt(active + trial + [plan], spots, fee + [pick] + guild);
    assert r == (active + trial + [plan] + [spots] + fee) + [pick] + guild;
    GetAt(active + trial + [plan] + [spots] + fee, pick, guild);
  }
}
