/** Product enums, nested records and the product payloads built from them. */
module Products {
  import opened Wrappers
  import opened Json
  import opened Helpers

  // ---- Enums ------------------------------------------------------------------------------------

  datatype ProductType = Lifetime | Recurring | Free | Rental

  function ProductTypeValue(t: ProductType): (s: string)
    ensures s == "lifetime" || s == "recurring" || s == "free" || s == "rental"
  {
    match t
    case Lifetime => "lifetime"
    case Recurring => "recurring"
    case Free => "free"
    case Rental => "rental"
  }

  /** `ProductType(s)`: the member whose value is `s`, if there is one. */
  function ParseProductType(s: string): (r: Option<ProductType>)
    ensures r.Some? ==> ProductTypeValue(r.value) == s
  {
    if s == "lifetime" then Some(Lifetime)
    else if s == "recurring" then Some(Recurring)
    else if s == "free" then Some(Free)
    else if s == "rental" then Some(Rental)
    else None
  }

  datatype RecurringInterval = Day | Week | Month | Year

  function IntervalValue(i: RecurringInterval): (s: string)
    ensures s == "day" || s == "week" || s == "month" || s == "year"
  {
    match i
    case Day => "day"
    case Week => "week"
    case Month => "month"
    case Year => "year"
  }

  function ParseInterval(s: string): (r: Option<RecurringInterval>)
    ensures r.Some? ==> IntervalValue(r.value) == s
  {
    if s == "day" then Some(Day)
    else if s == "week" then Some(Week)
    else if s == "month" then Some(Month)
    else if s == "year" then Some(Year)
    else None
  }

  /** `Nothing` is the member whose value is "none". */
  datatype DiscordCancelAction = Kick | RemovePlanRoles | RemoveAllRoles | Nothing

  function DiscordActionValue(a: DiscordCancelAction): (s: string)
    ensures s == "kick" || s == "remove_plan_roles" || s == "remove_all_roles" || s == "none"
  {
    match a
    case Kick => "kick"
    case RemovePlanRoles => "remove_plan_roles"
    case RemoveAllRoles => "remove_all_roles"
    case Nothing => "none"
  }

  function ParseDiscordAction(s: string): (r: Option<DiscordCancelAction>)
    ensures r.Some? ==> DiscordActionValue(r.value) == s
  {
    if s == "kick" then Some(Kick)
    else if s == "remove_plan_roles" then Some(RemovePlanRoles)
    else if s == "remove_all_roles" then Some(RemoveAllRoles)
    else if s == "none" then Some(Nothing)
    else None
  }

  datatype TelegramCancelAction = TelegramKick | TelegramNothing

  function TelegramActionValue(a: TelegramCancelAction): (s: string)
    ensures s == "kick" || s == "none"
  {
    match a
    case TelegramKick => "kick"
    case TelegramNothing => "none"
  }

  function ParseTelegramAction(s: string): (r: Option<TelegramCancelAction>)
    ensures r.Some? ==> TelegramActionValue(r.value) == s
  {
    if s == "kick" then Some(TelegramKick)
    else if s == "none" then Some(TelegramNothing)
    else None
  }

  /** Every enum value names its member and no other: parsing inverts the value. */
  lemma EnumRoundTrips(t: ProductType, i: RecurringInterval, d: DiscordCancelAction, g: TelegramCancelAction)
    ensures ParseProductType(ProductTypeValue(t)) == Some(t)
    ensures ParseInterval(IntervalValue(i)) == Some(i)
    ensures ParseDiscordAction(DiscordActionValue(d)) == Some(d)
    ensures ParseTelegramAction(TelegramActionValue(g)) == Some(g)
  {
  }

  // ---- json.dumps of an enum --------------------------------------------------------------------

  /**
    `json.dumps` of a string-valued enum member: the value inside literal
    double quotes. Escaping is not modelled; `PlainValues` shows that no
    enum value has a character that would need it.
   */
  function Dumps(s: string): (w: string)
    ensures |w| == |s| + 2 && w[0] == '"' && w[|w| - 1] == '"'
    ensures w[1..|w| - 1] == s
  {
    "\"" + s + "\""
  }

  /**
    The characters `json.dumps` leaves as they are inside a string: printable
    ASCII other than the quote and the backslash (by default it escapes
    control characters, DEL and everything beyond ASCII).
   */
  predicate Plain(s: string) {
    forall i :: 0 <= i < |s| ==> ' ' <= s[i] <= '~' && s[i] != '"' && s[i] != '\\'
  }

  /** No enum value holds a character `json.dumps` would escape. */
  lemma PlainValues(t: ProductType, i: RecurringInterval, d: DiscordCancelAction, g: TelegramCancelAction)
    ensures Plain(ProductTypeValue(t)) && Plain(IntervalValue(i))
    ensures Plain(DiscordActionValue(d)) && Plain(TelegramActionValue(g))
  {
    PlainType(t);
    PlainInterval(i);
    PlainDiscordAction(d);
    PlainTelegramAction(g);
  }

  lemma PlainType(t: ProductType)
    ensures Plain(ProductTypeValue(t))
  {
  }

  lemma PlainInterval(i: RecurringInterval)
    ensures Plain(IntervalValue(i))
  {
  }

  lemma PlainDiscordAction(d: DiscordCancelAction)
    ensures Plain(DiscordActionValue(d))
  {
  }

  lemma PlainTelegramAction(g: TelegramCancelAction)
    ensures Plain(TelegramActionValue(g))
  {
  }

  /** The enum value back from its quoted form (`json.loads` of a plain string). */
  function Loads(w: string): (r: Option<string>)
    ensures r.Some? ==> Dumps(r.value) == w
  {
    if |w| >= 2 && w[0] == '"' && w[|w| - 1] == '"' then
      assert w == "\"" + w[1..|w| - 1] + "\"";
      Some(w[1..|w| - 1])
    else None
  }

  lemma DumpsRoundTrip(s: string)
    ensures Loads(Dumps(s)) == Some(s)
  {
  }

  /**
    What reaches the wire for a product type is never the bare enum value,
    so a server reading the field as an enum string sees none of its four
    members.
   */
  lemma DumpedTypeIsNoMember(t: ProductType)
    ensures ParseProductType(Dumps(ProductTypeValue(t))).None?
  {
    var w := Dumps(ProductTypeValue(t));
    assert w[0] == '"';
  }

  // ---- Records ----------------------------------------------------------------------------------

  datatype ProductLink = ProductLink(title: string, href: string)
  datatype ProductRecurring = ProductRecurring(interval: RecurringInterval, intervalCount: int)
  datatype ProductTransfers = ProductTransfers(enabled: bool, cooldownDays: int)
  datatype IntegrationDiscord = IntegrationDiscord(guild: string, roles: seq<string>, cancelAction: DiscordCancelAction)
  datatype IntegrationTelegram = IntegrationTelegram(chat: string, cancelAction: TelegramCancelAction)
  datatype ProductIntegrations = ProductIntegrations(discord: Option<IntegrationDiscord>, telegram: Option<IntegrationTelegram>)

  datatype CreateProductParams = CreateProductParams(
    name: string,
    productType: ProductType,
    amount: Float64,
    currency: string,
    image: Option<string>,
    description: Option<string>,
    rentalPeriodDays: Option<int>,
    links: Option<seq<ProductLink>>,
    recurring: Option<ProductRecurring>,
    transfers: Option<ProductTransfers>,
    integrations: Option<ProductIntegrations>)

  datatype UpdateProductParams = UpdateProductParams(
    productId: string,
    image: Option<string>,
    description: Option<string>,
    rentalPeriodDays: Option<int>,
    links: Option<seq<ProductLink>>,
    transfers: Option<ProductTransfers>,
    integrations: Option<ProductIntegrations>)

  // ---- Nested values as built, before cleaning --------------------------------------------------

  /** `{"title": l.title, "href": l.href}`. */
  function LinkObject(l: ProductLink): Value {
    Obj([Entry("title", Str(l.title)), Entry("href", Str(l.href))])
  }

  /** The list comprehension over the links, one object per link in the same order. */
  function LinkObjects(ls: seq<ProductLink>): (r: seq<Value>)
    ensures |r| == |ls|
    ensures forall i :: 0 <= i < |ls| ==> r[i] == LinkObject(ls[i])
  {
    if ls == [] then [] else [LinkObject(ls[0])] + LinkObjects(ls[1..])
  }

  /** `[...] if self.links else None`: an empty list counts as no list. */
  function LinksRaw(o: Option<seq<ProductLink>>): Value {
    if o.Some? && o.value != [] then Arr(LinkObjects(o.value)) else Null
  }

  function RecurringRaw(o: Option<ProductRecurring>): Value {
    if o.Some? then
      Obj([Entry("interval", Str(Dumps(IntervalValue(o.value.interval)))),
           Entry("interval_count", Int(o.value.intervalCount))])
    else Null
  }

  function TransfersRaw(o: Option<ProductTransfers>): Value {
    if o.Some? then
      Obj([Entry("enabled", Bool(o.value.enabled)), Entry("cooldown_days", Int(o.value.cooldownDays))])
    else Null
  }

  function DiscordObject(d: IntegrationDiscord): Dict {
    [Entry("roles", Arr(RoleValues(d.roles))),
     Entry("cancel_action", Str(Dumps(DiscordActionValue(d.cancelAction)))),
     Entry("guild", Str(d.guild))]
  }

  function RoleValues(roles: seq<string>): (r: seq<Value>)
    ensures |r| == |roles|
    ensures forall i :: 0 <= i < |roles| ==> r[i] == Str(roles[i])
  {
    if roles == [] then [] else [Str(roles[0])] + RoleValues(roles[1..])
  }

  /** The telegram object: with the chat when creating, without it when updating. */
  function TelegramObject(t: IntegrationTelegram, withChat: bool): Dict {
    [Entry("cancel_action", Str(Dumps(TelegramActionValue(t.cancelAction))))]
      + (if withChat then [Entry("chat", Str(t.chat))] else [])
  }

  function IntegrationsRaw(o: Option<ProductIntegrations>, withChat: bool): Value {
    if o.Some? then
      Obj([Entry("discord", if o.value.discord.Some? then Obj(DiscordObject(o.value.discord.value)) else Null),
           Entry("telegram",
             if o.value.telegram.Some? then Obj(TelegramObject(o.value.telegram.value, withChat)) else Null)])
    else Null
  }

  // ---- What reaches the wire --------------------------------------------------------------------

  /** The "links" entry, present exactly when a non-empty list is given. */
  function LinksField(o: Option<seq<ProductLink>>): Dict {
    if o.Some? && o.value != [] then [Entry("links", Arr(LinkObjects(o.value)))] else []
  }

  function RecurringField(o: Option<ProductRecurring>): Dict {
    if o.Some? then [Entry("recurring", RecurringRaw(o))] else []
  }

  function TransfersField(o: Option<ProductTransfers>): Dict {
    if o.Some? then [Entry("transfers", TransfersRaw(o))] else []
  }

  /** The integrations object keeps only the platforms given; with neither it is `{}`. */
  function IntegrationsField(o: Option<ProductIntegrations>, withChat: bool): Dict {
    if o.Some? then
      [Entry("integrations", Obj(
        (if o.value.discord.Some? then [Entry("discord", Obj(DiscordObject(o.value.discord.value)))] else [])
        + (if o.value.telegram.Some? then
             [Entry("telegram", Obj(TelegramObject(o.value.telegram.value, withChat)))]
           else [])))]
    else []
  }

  // ---- Cleaning the nested values ---------------------------------------------------------------

  lemma CleanLinks(o: Option<seq<ProductLink>>)
    ensures Clean([Entry("links", LinksRaw(o))]) == LinksField(o)
  {
    CleanSingle(Entry("links", LinksRaw(o)));
  }

  lemma CleanRecurring(o: Option<ProductRecurring>)
    ensures Clean([Entry("recurring", RecurringRaw(o))]) == RecurringField(o)
  {
    CleanSingle(Entry("recurring", RecurringRaw(o)));
    if o.Some? {
      CleanFixesNullFree(RecurringRaw(o).entries);
    }
  }

  lemma CleanTransfers(o: Option<ProductTransfers>)
    ensures Clean([Entry("transfers", TransfersRaw(o))]) == TransfersField(o)
  {
    CleanSingle(Entry("transfers", TransfersRaw(o)));
    if o.Some? {
      CleanFixesNullFree(TransfersRaw(o).entries);
    }
  }

  lemma CleanIntegrations(o: Option<ProductIntegrations>, withChat: bool)
    ensures Clean([Entry("integrations", IntegrationsRaw(o, withChat))]) == IntegrationsField(o, withChat)
  {
    CleanSingle(Entry("integrations", IntegrationsRaw(o, withChat)));
    if o.Some? {
      var es := IntegrationsRaw(o, withChat).entries;
      CleanTwo(es[0], es[1]);
      CleanDiscord(o.value.discord);
      CleanTelegram(o.value.telegram, withChat);
    }
  }

  /** The discord entry survives cleaning exactly when a discord integration is given. */
  lemma CleanDiscord(o: Option<IntegrationDiscord>)
    ensures Clean([Entry("discord", if o.Some? then Obj(DiscordObject(o.value)) else Null)])
      == if o.Some? then [Entry("discord", Obj(DiscordObject(o.value)))] else []
  {
    CleanSingle(Entry("discord", if o.Some? then Obj(DiscordObject(o.value)) else Null));
    if o.Some? {
      CleanFixesNullFree(DiscordObject(o.value));
    }
  }

  /** The telegram entry survives cleaning exactly when a telegram integration is given. */
  lemma CleanTelegram(o: Option<IntegrationTelegram>, withChat: bool)
    ensures Clean([Entry("telegram", if o.Some? then Obj(TelegramObject(o.value, withChat)) else Null)])
      == if o.Some? then [Entry("telegram", Obj(TelegramObject(o.value, withChat)))] else []
  {
    CleanSingle(Entry("telegram", if o.Some? then Obj(TelegramObject(o.value, withChat)) else Null));
    if o.Some? {
      CleanFixesNullFree(TelegramObject(o.value, withChat));
    }
  }

  // ---- Payloads ---------------------------------------------------------------------------------

  /**
    The create payload as it reaches the wire: the nested objects first,
    each only when given (links only when non-empty), then the name, the
    quoted type, the amount and the currency always, then the optional
    plain fields.
   */
  function CreateWire(p: CreateProductParams): Dict {
    LinksField(p.links)
    + RecurringField(p.recurring)
    + TransfersField(p.transfers)
    + IntegrationsField(p.integrations, true)
    + [Entry("name", Str(p.name))]
    + [Entry("type", Str(Dumps(ProductTypeValue(p.productType))))]
    + [Entry("amount", Float(p.amount))]
    + [Entry("currency", Str(p.currency))]
    + StrField("image", p.image)
    + StrField("description", p.description)
    + IntField("rental_period_days", p.rentalPeriodDays)
  }

  /**
    The update payload as it reaches the wire: the product id under "name",
    then each optional field when given; the telegram object without its chat.
   */
  function UpdateWire(p: UpdateProductParams): Dict {
    [Entry("name", Str(p.productId))]
    + StrField("image", p.image)
    + StrField("description", p.description)
    + IntField("rental_period_days", p.rentalPeriodDays)
    + LinksField(p.links)
    + TransfersField(p.transfers)
    + IntegrationsField(p.integrations, false)
  }

  /** The only keys a create-product payload can have. */
  const CreateKeys: set<string> := {
    "links", "recurring", "transfers", "integrations", "name", "type", "amount", "currency",
    "image", "description", "rental_period_days"
  }

  /** The only keys an update-product payload can have. */
  const UpdateKeys: set<string> := {
    "name", "image", "description", "rental_period_days", "links", "transfers", "integrations"
  }

  /** `CreateProductParams._build_payload`: the cleaned dict is exactly `CreateWire`. */
  function CreatePayload(p: CreateProductParams): (r: Dict)
    ensures r == CreateWire(p)
    ensures forall k :: k in Keys(r) ==> k in CreateKeys
    ensures NullFree(r)
  {
    var raw := [
      Entry("links", LinksRaw(p.links)),
      Entry("recurring", RecurringRaw(p.recurring)),
      Entry("transfers", TransfersRaw(p.transfers)),
      Entry("integrations", IntegrationsRaw(p.integrations, true)),
      Entry("name", Str(p.name)),
      Entry("type", Str(Dumps(ProductTypeValue(p.productType)))),
      Entry("amount", Float(p.amount)),
      Entry("currency", Str(p.currency)),
      Entry("image", StrOrNull(p.image)),
      Entry("description", StrOrNull(p.description)),
      Entry("rental_period_days", IntOrNull(p.rentalPeriodDays))
    ];
    assert Clean(raw) ==
      LinksField(p.links)
      + RecurringField(p.recurring)
      + TransfersField(p.transfers)
      + IntegrationsField(p.integrations, true)
      + [Entry("name", Str(p.name))]
      + [Entry("type", Str(Dumps(ProductTypeValue(p.productType))))]
      + [Entry("amount", Float(p.amount))]
      + [Entry("currency", Str(p.currency))]
      + StrField("image", p.image)
      + StrField("description", p.description)
      + IntField("rental_period_days", p.rentalPeriodDays)
    by {
      CleanEleven(raw[0], raw[1], raw[2], raw[3], raw[4], raw[5], raw[6], raw[7], raw[8], raw[9], raw[10]);
      CleanLinks(p.links);
      CleanRecurring(p.recurring);
      CleanTransfers(p.transfers);
      CleanIntegrations(p.integrations, true);
      CleanSingle(raw[4]);
      CleanSingle(raw[5]);
      CleanSingle(raw[6]);
      CleanSingle(raw[7]);
      CleanStrField("image", p.image);
      CleanStrField("description", p.description);
      CleanIntField("rental_period_days", p.rentalPeriodDays);
    }
    assert NullFree(Clean(raw)) by { CleanNullFree(raw); }
    assert forall k :: k in Keys(Clean(raw)) ==> k in CreateKeys by { CleanKeysWithin(raw, CreateKeys); }
    Clean(raw)
  }

  /** `UpdateProductParams._build_payload`: the cleaned dict is exactly `UpdateWire`. */
  function UpdatePayload(p: UpdateProductParams): (r: Dict)
    ensures r == UpdateWire(p)
    ensures forall k :: k in Keys(r) ==> k in UpdateKeys
    ensures NullFree(r)
  {
    var raw := [
      Entry("name", Str(p.productId)),
      Entry("image", StrOrNull(p.image)),
      Entry("description", StrOrNull(p.description)),
      Entry("rental_period_days", IntOrNull(p.rentalPeriodDays)),
      Entry("links", LinksRaw(p.links)),
      Entry("transfers", TransfersRaw(p.transfers)),
      Entry("integrations", IntegrationsRaw(p.integrations, false))
    ];
    assert Clean(raw) ==
      [Entry("name", Str(p.productId))]
      + StrField("image", p.image)
      + StrField("description", p.description)
      + IntField("rental_period_days", p.rentalPeriodDays)
      + LinksField(p.links)
      + TransfersField(p.transfers)
      + IntegrationsField(p.integrations, false)
    by {
      CleanSeven(raw[0], raw[1], raw[2], raw[3], raw[4], raw[5], raw[6]);
      CleanSingle(raw[0]);
      CleanStrField("image", p.image);
      CleanStrField("description", p.description);
      CleanIntField("rental_period_days", p.rentalPeriodDays);
      CleanLinks(p.links);
      CleanTransfers(p.transfers);
      CleanIntegrations(p.integrations, false);
    }
    assert NullFree(Clean(raw)) by { CleanNullFree(raw); }
    assert forall k :: k in Keys(Clean(raw)) ==> k in UpdateKeys by { CleanKeysWithin(raw, UpdateKeys); }
    Clean(raw)
  }

  /** The fields fixed at creation are never part of an update. */
  lemma UpdateOmitsFixedFields(p: UpdateProductParams)
    ensures "type" !in Keys(UpdateWire(p)) && "amount" !in Keys(UpdateWire(p))
    ensures "currency" !in Keys(UpdateWire(p)) && "recurring" !in Keys(UpdateWire(p))
  {
    var r := UpdateWire(p);
    assert r == UpdatePayload(p);
    assert forall k :: k in Keys(r) ==> k in UpdateKeys;
  }

  /** Integrations given with neither platform still reach the wire, as `{}`. */
  lemma EmptyIntegrationsSent(p: CreateProductParams)
    requires p.integrations == Some(ProductIntegrations(None, None))
    ensures Get(CreateWire(p), "integrations") == Some(Obj([]))
  {
    var front := LinksField(p.links) + RecurringField(p.recurring) + TransfersField(p.transfers);
    var e := Entry("integrations", Obj([]));
    var none: Dict := [];
    assert IntegrationsField(p.integrations, true) == [Entry("integrations", Obj(none + none))];
    assert none + none == none;
    KeyOmittedRight(LinksField(p.links), RecurringField(p.recurring), "integrations");
    KeyOmittedRight(LinksField(p.links) + RecurringField(p.recurring), TransfersField(p.transfers), "integrations");
    var acc := front + [e];
    GetAfter(front, [e], "integrations");
    KeysConcat(front, [e]);
    GetBefore(acc, [Entry("name", Str(p.name))], "integrations");
    KeysConcat(acc, [Entry("name", Str(p.name))]);
    acc := acc + [Entry("name", Str(p.name))];
    GetBefore(acc, [Entry("type", Str(Dumps(ProductTypeValue(p.productType))))], "integrations");
    KeysConcat(acc, [Entry("type", Str(Dumps(ProductTypeValue(p.productType))))]);
    acc := acc + [Entry("type", Str(Dumps(ProductTypeValue(p.productType))))];
    GetBefore(acc, [Entry("amount", Float(p.amount))], "integrations");
    KeysConcat(acc, [Entry("amount", Float(p.amount))]);
    acc := acc + [Entry("amount", Float(p.amount))];
    GetBefore(acc, [Entry("currency", Str(p.currency))], "integrations");
    KeysConcat(acc, [Entry("currency", Str(p.currency))]);
    acc := acc + [Entry("currency", Str(p.currency))];
    GetBefore(acc, StrField("image", p.image), "integrations");
    KeysConcat(acc, StrField("image", p.image));
    acc := acc + StrField("image", p.image);
    GetBefore(acc, StrField("description", p.description), "integrations");
    KeysConcat(acc, StrField("description", p.description));
    acc := acc + StrField("description", p.description);
    GetBefore(acc, IntField("rental_period_days", p.rentalPeriodDays), "integrations");
    KeysConcat(acc, IntField("rental_period_days", p.rentalPeriodDays));
    acc := acc + IntField("rental_period_days", p.rentalPeriodDays);
    assert acc == CreateWire(p);
  }

  /** "links" is sent exactly when a non-empty list is given, as one object per link in order. */
  lemma LinksSentIffNonEmpty(p: CreateProductParams)
    ensures "links" in Keys(CreateWire(p)) <==> p.links.Some? && p.links.value != []
    ensures p.links.Some? && p.links.value != [] ==>
      CreateWire(p)[0] == Entry("links", Arr(LinkObjects(p.links.value)))
  {
    var acc := LinksField(p.links);
    KeyOmittedRight(acc, RecurringField(p.recurring), "links");
    acc := acc + RecurringField(p.recurring);
    KeyOmittedRight(acc, TransfersField(p.transfers), "links");
    acc := acc + TransfersField(p.transfers);
    KeyOmittedRight(acc, IntegrationsField(p.integrations, true), "links");
    acc := acc + IntegrationsField(p.integrations, true);
    KeyOmittedRight(acc, [Entry("name", Str(p.name))], "links");
    acc := acc + [Entry("name", Str(p.name))];
    KeyOmittedRight(acc, [Entry("type", Str(Dumps(ProductTypeValue(p.productType))))], "links");
    acc := acc + [Entry("type", Str(Dumps(ProductTypeValue(p.productType))))];
    KeyOmittedRight(acc, [Entry("amount", Float(p.amount))], "links");
    acc := acc + [Entry("amount", Float(p.amount))];
    KeyOmittedRight(acc, [Entry("currency", Str(p.currency))], "links");
    acc := acc + [Entry("currency", Str(p.currency))];
    KeyOmittedRight(acc, StrField("image", p.image), "links");
    acc := acc + StrField("image", p.image);
    KeyOmittedRight(acc, StrField("description", p.description), "links");
    acc := acc + StrField("description", p.description);
    KeyOmittedRight(acc, IntField("rental_period_days", p.rentalPeriodDays), "links");
    acc := acc + IntField("rental_period_days", p.rentalPeriodDays);
    assert acc == CreateWire(p);
  }
}
