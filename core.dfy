/**
  The request layer every client call goes through: the base URL, the
  headers fixed at construction, the response check, and the verb, path and
  result kind of each request helper.
 */
module Core {
  import opened Wrappers
  import opened Json

  // ---- URL and paths ----------------------------------------------------------------------------

  const BaseUrl: string := "https://api.hyper.co/v6"

  /** `Core._base_url + path`. */
  function Url(path: string): (u: string)
    ensures |u| == |BaseUrl| + |path|
    ensures u[..|BaseUrl|] == BaseUrl && u[|BaseUrl|..] == path
  {
    BaseUrl + path
  }

  /** The path of a URL under the base URL, if it is one. */
  function PathOf(url: string): (r: Option<string>)
    ensures r.Some? ==> Url(r.value) == url
  {
    if |url| >= |BaseUrl| && url[..|BaseUrl|] == BaseUrl then
      assert url == url[..|BaseUrl|] + url[|BaseUrl|..];
      Some(url[|BaseUrl|..])
    else None
  }

  lemma UrlRoundTrip(path: string)
    ensures PathOf(Url(path)) == Some(path)
  {
  }

  /** A path with its segments joined by "/". */
  function Join(parts: seq<string>): string
    requires parts != []
  {
    if |parts| == 1 then parts[0] else parts[0] + "/" + Join(parts[1..])
  }

  /** The segments between the slashes of `s`; there is one more segment than there are slashes. */
  function Split(s: string): (parts: seq<string>)
    ensures parts != []
  {
    if s == [] then [""]
    else if s[0] == '/' then [""] + Split(s[1..])
    else
      var rest := Split(s[1..]);
      [[s[0]] + rest[0]] + rest[1..]
  }

  predicate NoSlash(s: string) {
    forall i :: 0 <= i < |s| ==> s[i] != '/'
  }

  /** A slash-free prefix is glued onto the first segment. */
  lemma {:induction false} SplitPrefix(a: string, t: string)
    requires NoSlash(a)
    ensures Split(a + t) == [a + Split(t)[0]] + Split(t)[1..]
  {
    if a == [] {
      var st := Split(t);
      assert a + t == t;
      assert a + st[0] == st[0];
      assert st == [st[0]] + st[1..];
    } else {
      assert (a + t)[0] == a[0];
      assert (a + t)[1..] == a[1..] + t;
      assert NoSlash(a[1..]) by {
        assert forall i :: 0 <= i < |a[1..]| ==> a[1..][i] == a[i + 1];
      }
      SplitPrefix(a[1..], t);
      assert [a[0]] + (a[1..] + Split(t)[0]) == a + Split(t)[0];
    }
  }

  /** Splitting undoes joining, as long as no segment holds a slash. */
  lemma {:induction false} SplitJoin(parts: seq<string>)
    requires parts != []
    requires forall i :: 0 <= i < |parts| ==> NoSlash(parts[i])
    ensures Split(Join(parts)) == parts
  {
    if |parts| == 1 {
      SplitPrefix(parts[0], "");
      assert parts[0] + "" == parts[0];
      assert parts[0] + Split("")[0] == parts[0];
    } else {
      var rest := Join(parts[1..]);
      SplitJoin(parts[1..]);
      assert parts[0] + "/" + rest == parts[0] + ("/" + rest);
      SplitPrefix(parts[0], "/" + rest);
      assert ("/" + rest)[0] == '/' && ("/" + rest)[1..] == rest;
      assert Split("/" + rest) == [""] + parts[1..];
      assert parts[0] + "" == parts[0];
    }
  }

  // ---- Headers ----------------------------------------------------------------------------------

  /** The headers sent with every request: the bearer token and JSON in both directions. */
  function HeadersFor(apiKey: string): (h: Dict)
    ensures Keys(h) == ["Authorization", "accept", "content-type"]
    ensures UniqueKeys(h)
  {
    var json := [Entry("content-type", Str("application/json"))];
    var h := [Entry("Authorization", Str("Bearer " + apiKey)), Entry("accept", Str("application/json"))] + json;
    assert h[1..] == [h[1]] + json && h[1..][1..] == json && json[1..] == [];
    assert Keys(json) == ["content-type"];
    assert Keys(h[1..]) == ["accept"] + Keys(json);
    assert UniqueKeys(json) && UniqueKeys(h[1..]);
    h
  }

  /** The API key carried by an "Authorization" header of the bearer form. */
  function BearerKey(h: Dict): (r: Option<string>)
  {
    var auth := Get(h, "Authorization");
    if auth.Some? && auth.value.Str? && |auth.value.s| >= 7 && auth.value.s[..7] == "Bearer " then
      Some(auth.value.s[7..])
    else None
  }

  /** The key handed to the constructor is the one every request authenticates with. */
  lemma BearerRoundTrip(apiKey: string)
    ensures BearerKey(HeadersFor(apiKey)) == Some(apiKey)
    ensures Get(HeadersFor(apiKey), "accept") == Some(Str("application/json"))
    ensures Get(HeadersFor(apiKey), "content-type") == Some(Str("application/json"))
  {
    var h := HeadersFor(apiKey);
    assert h[1..] == [Entry("accept", Str("application/json")), Entry("content-type", Str("application/json"))];
    assert h[1..][1..] == [Entry("content-type", Str("application/json"))];
    assert Get(h[1..][1..], "content-type") == Some(Str("application/json"));
    assert Get(h[1..], "content-type") == Get(h[1..][1..], "content-type");
  }

  /** The fields `__init__` sets once: the API key and the headers built from it. */
  class Core {
    var bearer: string
    var headers: Dict

    constructor(apiKey: string)
      ensures bearer == apiKey
      ensures headers == HeadersFor(apiKey)
    {
      bearer := apiKey;
      headers := HeadersFor(apiKey);
    }

    /**
      `_call`: the request handed to the transport goes to the base URL
      followed by the path, with this client's headers; the transport's
      response (a parameter here) is returned when the check lets it pass.
     */
    method Call(req: Request, res: Response) returns (out: HttpRequest, r: Result<Response, ApiError>)
      ensures out.url == Url(req.path) && out.headers == headers
      ensures out.verbName == VerbName(req.verb) && out.params == req.query && out.json == req.body
      ensures r.Ok? <==> res.status == 200 || res.status == 202
      ensures r.Ok? ==> r.value == res
      ensures r.Err? ==> Some(r.error) == ValidateResponse(res)
    {
      out := HttpRequest(VerbName(req.verb), Url(req.path), headers, req.query, req.body);
      var check := ValidateResponse(res);
      if check.Some? {
        r := Err(check.value);
      } else {
        r := Ok(res);
      }
    }
  }

  // ---- Responses --------------------------------------------------------------------------------

  /** A response from the transport: its status and its body, as JSON. */
  datatype Response = Response(status: int, body: Value)

  /**
    What `_validate_response` raises: a `HyperAPIException` with a message,
    or the lookup error Python raises when a failing body has no
    `error.message`.
   */
  datatype ApiError = HyperApiException(message: Value) | MalformedErrorBody

  /** `body["error"]["message"]`, when both lookups succeed. */
  function ErrorMessage(body: Value): (r: Option<Value>)
    ensures r.Some? ==> body.Obj? && Get(body.entries, "error").Some? && Get(body.entries, "error").value.Obj?
  {
    if body.Obj? then
      var err := Get(body.entries, "error");
      if err.Some? && err.value.Obj? then Get(err.value.entries, "message") else None
    else None
  }

  /** `_validate_response`: `None` when the response passes, else what is raised. */
  function ValidateResponse(res: Response): (r: Option<ApiError>)
    ensures r.None? <==> res.status == 200 || res.status == 202
    ensures res.status == 404 ==> r == Some(HyperApiException(Str("Not found")))
    ensures res.status != 404 && r.Some? ==>
      (r.value.HyperApiException? <==> ErrorMessage(res.body).Some?)
    ensures r.Some? && r.value.HyperApiException? && res.status != 404 ==>
      Some(r.value.message) == ErrorMessage(res.body)
  {
    if res.status == 404 then Some(HyperApiException(Str("Not found")))
    else if res.status != 200 && res.status != 202 then
      var m := ErrorMessage(res.body);
      if m.Some? then Some(HyperApiException(m.value)) else Some(MalformedErrorBody)
    else None
  }

  /** A 404 is reported the same way whatever its body says. */
  lemma NotFoundIgnoresBody(b1: Value, b2: Value)
    ensures ValidateResponse(Response(404, b1)) == ValidateResponse(Response(404, b2))
  {
  }

  /** Any other failing status surfaces the server's own message. */
  lemma ServerMessageSurfaced(status: int, message: Value, other: Dict)
    requires status != 404 && status != 200 && status != 202
    ensures ValidateResponse(Response(status, Obj([Entry("error", Obj([Entry("message", message)] + other))])))
      == Some(HyperApiException(message))
  {
    var inner := [Entry("message", message)] + other;
    assert inner[0].key == "message";
  }

  // ---- Requests ---------------------------------------------------------------------------------

  datatype Verb = HttpGet | HttpPost | HttpPatch | HttpDelete

  /** The method name passed to the transport. */
  function VerbName(v: Verb): (s: string)
    ensures s == "get" || s == "post" || s == "patch" || s == "delete"
  {
    match v
    case HttpGet => "get"
    case HttpPost => "post"
    case HttpPatch => "patch"
    case HttpDelete => "delete"
  }

  /** Whether the helper hands back `.json()` or `.text`. */
  datatype ResultKind = JsonBody | TextBody

  /** What a request helper decides: verb, path, query parameters, JSON body and result kind. */
  datatype Request = Request(verb: Verb, path: string, query: Option<Dict>, body: Option<Dict>, kind: ResultKind)

  /** `requests.request(method=…, url=…, headers=…, params=…, json=…)`. */
  datatype HttpRequest = HttpRequest(verbName: string, url: string, headers: Dict, params: Option<Dict>, json: Option<Dict>)

  /** One constructor per `_…_request` helper, with that helper's arguments. */
  datatype Operation =
    | CreateLicense(payload: Dict)
    | RetrieveLicense(licenseKey: string)
    | UpdateLicense(licenseKey: string, payload: Dict)
    | UpdateLicenseMetadata(licenseKey: string, metadata: Dict)
    | DeleteLicense(licenseKey: string)
    | ListLicenses(params: Dict)
    | CreateProduct(payload: Dict)
    | RetrieveProduct(productId: string)
    | UpdateProduct(productId: string, payload: Dict)
    | ListProducts
    | CreateLink(payload: Dict)
    | RetrieveLink(link: string)
    | UpdateLink(link: string, payload: Dict)
    | ListLinks
    | CreateRaffle(payload: Dict)
    | RetrieveRaffle(raffleId: string)
    | ListRaffles(params: Dict)
    | RetrieveWaitlistEntry(entryId: string)
    | ListWaitlistEntries
    | RetrievePayment(paymentId: string)
    | RefundPayment(payment: string)
    | ListPayments
    | CreateCoupon(payload: Dict)
    | RetrieveCoupon(couponId: string)
    | ListCoupons(params: Dict)

  predicate IsCreate(op: Operation) {
    op.CreateLicense? || op.CreateProduct? || op.CreateLink? || op.CreateRaffle? || op.CreateCoupon?
  }

  predicate IsRetrieve(op: Operation) {
    op.RetrieveLicense? || op.RetrieveProduct? || op.RetrieveLink? || op.RetrieveRaffle?
    || op.RetrieveWaitlistEntry? || op.RetrievePayment? || op.RetrieveCoupon?
  }

  predicate IsList(op: Operation) {
    op.ListLicenses? || op.ListProducts? || op.ListLinks? || op.ListRaffles?
    || op.ListWaitlistEntries? || op.ListPayments? || op.ListCoupons?
  }

  predicate IsUpdate(op: Operation) {
    op.UpdateLicense? || op.UpdateLicenseMetadata? || op.UpdateProduct? || op.UpdateLink?
  }

  /** The identifier spliced into the path, for the helpers that take one. */
  function PathId(op: Operation): Option<string> {
    match op
    case RetrieveLicense(k) => Some(k)
    case UpdateLicense(k, _) => Some(k)
    case UpdateLicenseMetadata(k, _) => Some(k)
    case DeleteLicense(k) => Some(k)
    case RetrieveProduct(id) => Some(id)
    case UpdateProduct(id, _) => Some(id)
    case RetrieveLink(l) => Some(l)
    case UpdateLink(l, _) => Some(l)
    case RetrieveRaffle(id) => Some(id)
    case RetrieveWaitlistEntry(id) => Some(id)
    case RetrievePayment(id) => Some(id)
    case RefundPayment(id) => Some(id)
    case RetrieveCoupon(id) => Some(id)
    case _ => None
  }

  /** The path, as the segments the helper joins with "/". */
  function PathParts(op: Operation): (parts: seq<string>)
    ensures |parts| >= 2 && parts[0] == ""
  {
    match op
    case CreateLicense(_) => ["", "licenses"]
    case RetrieveLicense(k) => ["", "licenses", k]
    case UpdateLicense(k, _) => ["", "licenses", k]
    case UpdateLicenseMetadata(k, _) => ["", "licenses", k, "metadata"]
    case DeleteLicense(k) => ["", "licenses", k]
    case ListLicenses(_) => ["", "licenses"]
    case CreateProduct(_) => ["", "products"]
    case RetrieveProduct(id) => ["", "products", id]
    case UpdateProduct(id, _) => ["", "products", id]
    case ListProducts => ["", "products"]
    case CreateLink(_) => ["", "links"]
    case RetrieveLink(l) => ["", "links", l]
    case UpdateLink(l, _) => ["", "links", l]
    case ListLinks => ["", "links"]
    case CreateRaffle(_) => ["", "raffles"]
    case RetrieveRaffle(id) => ["", "raffles", id]
    case ListRaffles(_) => ["", "raffles"]
    case RetrieveWaitlistEntry(id) => ["", "waitlist", "entries", id]
    case ListWaitlistEntries => ["", "waitlist", "entries"]
    case RetrievePayment(id) => ["", "payments", id]
    case RefundPayment(id) => ["", "payments", id, "refund"]
    case ListPayments => ["", "payments"]
    case CreateCoupon(_) => ["", "coupons"]
    case RetrieveCoupon(id) => ["", "coupons", id]
    case ListCoupons(_) => ["", "coupons"]
  }

  /** The path each helper builds, by concatenation. */
  function PathFor(op: Operation): string {
    match op
    case CreateLicense(_) => "/licenses"
    case RetrieveLicense(k) => "/licenses/" + k
    case UpdateLicense(k, _) => "/licenses/" + k
    case UpdateLicenseMetadata(k, _) => "/licenses/" + k + "/metadata"
    case DeleteLicense(k) => "/licenses/" + k
    case ListLicenses(_) => "/licenses"
    case CreateProduct(_) => "/products"
    case RetrieveProduct(id) => "/products/" + id
    case UpdateProduct(id, _) => "/products/" + id
    case ListProducts => "/products"
    case CreateLink(_) => "/links"
    case RetrieveLink(l) => "/links/" + l
    case UpdateLink(l, _) => "/links/" + l
    case ListLinks => "/links"
    case CreateRaffle(_) => "/raffles"
    case RetrieveRaffle(id) => "/raffles/" + id
    case ListRaffles(_) => "/raffles"
    case RetrieveWaitlistEntry(id) => "/waitlist/entries/" + id
    case ListWaitlistEntries => "/waitlist/entries"
    case RetrievePayment(id) => "/payments/" + id
    case RefundPayment(id) => "/payments/" + id + "/refund"
    case ListPayments => "/payments"
    case CreateCoupon(_) => "/coupons"
    case RetrieveCoupon(id) => "/coupons/" + id
    case ListCoupons(_) => "/coupons"
  }

  lemma JoinTwo(a: string, b: string)
    ensures Join([a, b]) == a + "/" + b
  {
    assert [a, b][1..] == [b];
  }

  lemma JoinThree(a: string, b: string, c: string)
    ensures Join([a, b, c]) == a + "/" + b + "/" + c
  {
    assert [a, b, c][1..] == [b, c];
    JoinTwo(b, c);
  }

  lemma JoinFour(a: string, b: string, c: string, d: string)
    ensures Join([a, b, c, d]) == a + "/" + b + "/" + c + "/" + d
  {
    assert [a, b, c, d][1..] == [b, c, d];
    JoinThree(b, c, d);
  }

  /** `path` is the path of collection `name`. */
  lemma CollectionPath(path: string, name: string)
    requires path == "/" + name
    ensures path == Join(["", name])
  {
    JoinTwo("", name);
  }

  /** `prefix + k` is the path of item `k` of collection `name`. */
  lemma ItemPath(prefix: string, name: string, k: string)
    requires prefix == "/" + name + "/"
    ensures prefix + k == Join(["", name, k])
  {
    JoinThree("", name, k);
  }

  /** `prefix + k + suffix` is the path of sub-resource `sub` of item `k`. */
  lemma SubItemPath(prefix: string, name: string, k: string, suffix: string, sub: string)
    requires prefix == "/" + name + "/" && suffix == "/" + sub
    ensures prefix + k + suffix == Join(["", name, k, sub])
  {
    JoinFour("", name, k, sub);
  }

  /** `prefix + k` is the path of item `k` of collection `sub` nested under `name`. */
  lemma NestedItemPath(prefix: string, name: string, sub: string, k: string)
    requires prefix == "/" + name + "/" + sub + "/"
    ensures prefix + k == Join(["", name, sub, k])
  {
    JoinFour("", name, sub, k);
  }

  /** The literal prefixes the helpers concatenate, against their segments. */
  lemma PathLiterals()
    ensures "/licenses" == "/" + "licenses" && "/licenses/" == "/" + "licenses" + "/"
    ensures "/metadata" == "/" + "metadata"
    ensures "/products" == "/" + "products" && "/products/" == "/" + "products" + "/"
    ensures "/links" == "/" + "links" && "/links/" == "/" + "links" + "/"
    ensures "/raffles" == "/" + "raffles" && "/raffles/" == "/" + "raffles" + "/"
    ensures "/waitlist/" == "/" + "waitlist" + "/" && "/waitlist/" + "entries" == "/waitlist/entries"
    ensures "/waitlist/entries/" == "/" + "waitlist" + "/" + "entries" + "/"
    ensures "/payments" == "/" + "payments" && "/payments/" == "/" + "payments" + "/"
    ensures "/refund" == "/" + "refund"
    ensures "/coupons" == "/" + "coupons" && "/coupons/" == "/" + "coupons" + "/"
  {
  }

  /** Every path is its segments joined by "/", the first segment empty. */
  lemma PathJoinsParts(op: Operation)
    ensures PathFor(op) == Join(PathParts(op))
  {
    if op.CreateLicense? || op.RetrieveLicense? || op.UpdateLicense? || op.UpdateLicenseMetadata? || op.DeleteLicense? || op.ListLicenses? {
      LicensesPathsJoin(op);
    } else if op.CreateProduct? || op.RetrieveProduct? || op.UpdateProduct? || op.ListProducts? {
      ProductsPathsJoin(op);
    } else if op.CreateLink? || op.RetrieveLink? || op.UpdateLink? || op.ListLinks? {
      LinksPathsJoin(op);
    } else if op.CreateRaffle? || op.RetrieveRaffle? || op.ListRaffles? {
      RafflesPathsJoin(op);
    } else if op.RetrieveWaitlistEntry? || op.ListWaitlistEntries? {
      WaitlistPathsJoin(op);
    } else if op.RetrievePayment? || op.RefundPayment? || op.ListPayments? {
      PaymentsPathsJoin(op);
    } else {
      CouponsPathsJoin(op);
    }
  }

  lemma LicensesPathsJoin(op: Operation)
    requires op.CreateLicense? || op.RetrieveLicense? || op.UpdateLicense? || op.UpdateLicenseMetadata? || op.DeleteLicense? || op.ListLicenses?
    ensures PathFor(op) == Join(PathParts(op))
  {
    PathLiterals();
    match op
    case CreateLicense(_) => CollectionPath("/licenses", "licenses");
    case RetrieveLicense(k) => ItemPath("/licenses/", "licenses", k);
    case UpdateLicense(k, _) => ItemPath("/licenses/", "licenses", k);
    case UpdateLicenseMetadata(k, _) => SubItemPath("/licenses/", "licenses", k, "/metadata", "metadata");
    case DeleteLicense(k) => ItemPath("/licenses/", "licenses", k);
    case ListLicenses(_) => CollectionPath("/licenses", "licenses");
  }

  lemma ProductsPathsJoin(op: Operation)
    requires op.CreateProduct? || op.RetrieveProduct? || op.UpdateProduct? || op.ListProducts?
    ensures PathFor(op) == Join(PathParts(op))
  {
    PathLiterals();
    match op
    case CreateProduct(_) => CollectionPath("/products", "products");
    case RetrieveProduct(k) => ItemPath("/products/", "products", k);
    case UpdateProduct(k, _) => ItemPath("/products/", "products", k);
    case ListProducts => CollectionPath("/products", "products");
  }

  lemma LinksPathsJoin(op: Operation)
    requires op.CreateLink? || op.RetrieveLink? || op.UpdateLink? || op.ListLinks?
    ensures PathFor(op) == Join(PathParts(op))
  {
    PathLiterals();
    match op
    case CreateLink(_) => CollectionPath("/links", "links");
    case RetrieveLink(k) => ItemPath("/links/", "links", k);
    case UpdateLink(k, _) => ItemPath("/links/", "links", k);
    case ListLinks => CollectionPath("/links", "links");
  }

  lemma RafflesPathsJoin(op: Operation)
    requires op.CreateRaffle? || op.RetrieveRaffle? || op.ListRaffles?
    ensures PathFor(op) == Join(PathParts(op))
  {
    PathLiterals();
    match op
    case CreateRaffle(_) => CollectionPath("/raffles", "raffles");
    case RetrieveRaffle(k) => ItemPath("/raffles/", "raffles", k);
    case ListRaffles(_) => CollectionPath("/raffles", "raffles");
  }

  /** The waitlist's entries sit one level further down. */
  lemma WaitlistPathsJoin(op: Operation)
    requires op.RetrieveWaitlistEntry? || op.ListWaitlistEntries?
    ensures PathFor(op) == Join(PathParts(op))
  {
    PathLiterals();
    match op
    case RetrieveWaitlistEntry(k) =>
      NestedItemPath("/waitlist/entries/", "waitlist", "entries", k);
    case ListWaitlistEntries =>
      ItemPath("/waitlist/", "waitlist", "entries");
  }


  lemma PaymentsPathsJoin(op: Operation)
    requires op.RetrievePayment? || op.RefundPayment? || op.ListPayments?
    ensures PathFor(op) == Join(PathParts(op))
  {
    PathLiterals();
    match op
    case RetrievePayment(k) => ItemPath("/payments/", "payments", k);
    case RefundPayment(k) => SubItemPath("/payments/", "payments", k, "/refund", "refund");
    case ListPayments => CollectionPath("/payments", "payments");
  }

  lemma CouponsPathsJoin(op: Operation)
    requires op.CreateCoupon? || op.RetrieveCoupon? || op.ListCoupons?
    ensures PathFor(op) == Join(PathParts(op))
  {
    PathLiterals();
    match op
    case CreateCoupon(_) => CollectionPath("/coupons", "coupons");
    case RetrieveCoupon(k) => ItemPath("/coupons/", "coupons", k);
    case ListCoupons(_) => CollectionPath("/coupons", "coupons");
  }

  /** Creates and the refund post, retrieves and lists get, updates patch, the license delete deletes. */
  function VerbFor(op: Operation): (v: Verb)
    ensures v == HttpPost <==> IsCreate(op) || op.RefundPayment?
    ensures v == HttpGet <==> IsRetrieve(op) || IsList(op)
    ensures v == HttpPatch <==> IsUpdate(op)
    ensures v == HttpDelete <==> op.DeleteLicense?
  {
    if IsCreate(op) || op.RefundPayment? then HttpPost
    else if IsUpdate(op) then HttpPatch
    else if op.DeleteLicense? then HttpDelete
    else HttpGet
  }

  /** Only the license delete and the refund hand back `.text`. */
  function KindFor(op: Operation): (k: ResultKind)
    ensures k == TextBody <==> op.DeleteLicense? || op.RefundPayment?
  {
    match op
    case DeleteLicense(_) => TextBody
    case RefundPayment(_) => TextBody
    case _ => JsonBody
  }

  /** The JSON body: the payload of a create or an update, the metadata of a metadata update. */
  function BodyFor(op: Operation): (b: Option<Dict>)
    ensures b.Some? <==> IsCreate(op) || IsUpdate(op)
  {
    match op
    case CreateLicense(p) => Some(p)
    case UpdateLicense(_, p) => Some(p)
    case UpdateLicenseMetadata(_, m) => Some(m)
    case CreateProduct(p) => Some(p)
    case UpdateProduct(_, p) => Some(p)
    case CreateLink(p) => Some(p)
    case UpdateLink(_, p) => Some(p)
    case CreateRaffle(p) => Some(p)
    case CreateCoupon(p) => Some(p)
    case _ => None
  }

  /** Query parameters go only with the three parameterised lists. */
  function QueryFor(op: Operation): (q: Option<Dict>)
    ensures q.Some? <==> op.ListLicenses? || op.ListRaffles? || op.ListCoupons?
  {
    match op
    case ListLicenses(q) => Some(q)
    case ListRaffles(q) => Some(q)
    case ListCoupons(q) => Some(q)
    case _ => None
  }

  /** The request each `_…_request` helper issues. */
  function RequestFor(op: Operation): Request {
    Request(VerbFor(op), PathFor(op), QueryFor(op), BodyFor(op), KindFor(op))
  }

  /** The collections the API serves, by the first segment of their paths. */
  datatype Resource = Licenses | Products | Links | Raffles | Waitlist | Payments | Coupons

  function ResourceName(r: Resource): string {
    match r
    case Licenses => "licenses"
    case Products => "products"
    case Links => "links"
    case Raffles => "raffles"
    case Waitlist => "waitlist"
    case Payments => "payments"
    case Coupons => "coupons"
  }

  function ResourceOf(name: string): (r: Option<Resource>)
    ensures r.Some? ==> ResourceName(r.value) == name
  {
    if name == "licenses" then Some(Licenses)
    else if name == "products" then Some(Products)
    else if name == "links" then Some(Links)
    else if name == "raffles" then Some(Raffles)
    else if name == "waitlist" then Some(Waitlist)
    else if name == "payments" then Some(Payments)
    else if name == "coupons" then Some(Coupons)
    else None
  }

  lemma ResourceRoundTrip(r: Resource)
    ensures ResourceOf(ResourceName(r)) == Some(r)
  {
  }

  /** The operation a request stands for, read back from its verb, path segments, query and body. */
  function Decode(r: Request): Option<Operation> {
    DecodeSegments(r, Split(r.path))
  }

  /** The decoding of a request whose path has the segments `s`. */
  function DecodeSegments(r: Request, s: seq<string>): Option<Operation> {
    if |s| < 2 || s[0] != "" then None
    else
      match ResourceOf(s[1])
      case None => None
      case Some(res) =>
        if |s| == 2 then DecodeCollection(r, res)
        else if res == Waitlist then
          if r.verb != HttpGet || r.query.Some? || r.body.Some? || r.kind != JsonBody || s[2] != "entries" then None
          else if |s| == 3 then Some(ListWaitlistEntries)
          else if |s| == 4 then Some(RetrieveWaitlistEntry(s[3]))
          else None
        else if |s| == 3 then DecodeItem(r, res, s[2])
        else if |s| == 4 && res == Licenses && s[3] == "metadata" then
          if r.verb == HttpPatch && r.query.None? && r.body.Some? && r.kind == JsonBody then
            Some(UpdateLicenseMetadata(s[2], r.body.value))
          else None
        else if |s| == 4 && res == Payments && s[3] == "refund" then
          if r.verb == HttpPost && r.query.None? && r.body.None? && r.kind == TextBody then
            Some(RefundPayment(s[2]))
          else None
        else None
  }

  function DecodeCollection(r: Request, res: Resource): Option<Operation> {
    if r.verb == HttpPost && r.query.None? && r.body.Some? && r.kind == JsonBody then
      var p := r.body.value;
      match res
      case Licenses => Some(CreateLicense(p))
      case Products => Some(CreateProduct(p))
      case Links => Some(CreateLink(p))
      case Raffles => Some(CreateRaffle(p))
      case Coupons => Some(CreateCoupon(p))
      case _ => None
    else if r.verb == HttpGet && r.query.Some? && r.body.None? && r.kind == JsonBody then
      var q := r.query.value;
      match res
      case Licenses => Some(ListLicenses(q))
      case Raffles => Some(ListRaffles(q))
      case Coupons => Some(ListCoupons(q))
      case _ => None
    else if r.verb == HttpGet && r.query.None? && r.body.None? && r.kind == JsonBody then
      match res
      case Products => Some(ListProducts)
      case Links => Some(ListLinks)
      case Payments => Some(ListPayments)
      case _ => None
    else None
  }

  function DecodeItem(r: Request, res: Resource, id: string): Option<Operation> {
    if r.verb == HttpGet && r.query.None? && r.body.None? && r.kind == JsonBody then
      match res
      case Licenses => Some(RetrieveLicense(id))
      case Products => Some(RetrieveProduct(id))
      case Links => Some(RetrieveLink(id))
      case Raffles => Some(RetrieveRaffle(id))
      case Payments => Some(RetrievePayment(id))
      case Coupons => Some(RetrieveCoupon(id))
      case Waitlist => None
    else if r.verb == HttpPatch && r.query.None? && r.body.Some? && r.kind == JsonBody then
      var p := r.body.value;
      match res
      case Licenses => Some(UpdateLicense(id, p))
      case Products => Some(UpdateProduct(id, p))
      case Links => Some(UpdateLink(id, p))
      case _ => None
    else if r.verb == HttpDelete && r.query.None? && r.body.None? && r.kind == TextBody then
      if res == Licenses then Some(DeleteLicense(id)) else None
    else None
  }

  /**
    As long as the identifier spliced into the path has no slash, the
    request determines the helper and its arguments: no two helpers, and no
    two identifiers, share a request.
   */
  lemma RequestDetermined(op: Operation)
    requires PathId(op).Some? ==> NoSlash(PathId(op).value)
    ensures Decode(RequestFor(op)) == Some(op)
  {
    PathSegments(op);
    assert Decode(RequestFor(op)) == DecodeSegments(RequestFor(op), PathParts(op));
    if op.CreateLicense? || op.RetrieveLicense? || op.UpdateLicense? || op.UpdateLicenseMetadata? || op.DeleteLicense? || op.ListLicenses? {
      LicensesDecoded(op);
    } else if op.CreateProduct? || op.RetrieveProduct? || op.UpdateProduct? || op.ListProducts? {
      ProductsDecoded(op);
    } else if op.CreateLink? || op.RetrieveLink? || op.UpdateLink? || op.ListLinks? {
      LinksDecoded(op);
    } else if op.CreateRaffle? || op.RetrieveRaffle? || op.ListRaffles? {
      RafflesDecoded(op);
    } else if op.RetrieveWaitlistEntry? || op.ListWaitlistEntries? {
      WaitlistDecoded(op);
    } else if op.RetrievePayment? || op.RefundPayment? || op.ListPayments? {
      PaymentsDecoded(op);
    } else {
      CouponsDecoded(op);
    }
  }

  /** Splitting a helper's path gives back its segments, when the identifier has no slash. */
  lemma PathSegments(op: Operation)
    requires PathId(op).Some? ==> NoSlash(PathId(op).value)
    ensures Split(PathFor(op)) == PathParts(op)
  {
    var parts := PathParts(op);
    assert forall i :: 0 <= i < |parts| ==> NoSlash(parts[i]);
    SplitJoin(parts);
    PathJoinsParts(op);
  }

  lemma LicensesDecoded(op: Operation)
    requires op.CreateLicense? || op.RetrieveLicense? || op.UpdateLicense? || op.UpdateLicenseMetadata? || op.DeleteLicense? || op.ListLicenses?
    ensures DecodeSegments(RequestFor(op), PathParts(op)) == Some(op)
  {
    ResourceRoundTrip(Licenses);
  }

  lemma ProductsDecoded(op: Operation)
    requires op.CreateProduct? || op.RetrieveProduct? || op.UpdateProduct? || op.ListProducts?
    ensures DecodeSegments(RequestFor(op), PathParts(op)) == Some(op)
  {
    ResourceRoundTrip(Products);
  }

  lemma LinksDecoded(op: Operation)
    requires op.CreateLink? || op.RetrieveLink? || op.UpdateLink? || op.ListLinks?
    ensures DecodeSegments(RequestFor(op), PathParts(op)) == Some(op)
  {
    ResourceRoundTrip(Links);
  }

  lemma RafflesDecoded(op: Operation)
    requires op.CreateRaffle? || op.RetrieveRaffle? || op.ListRaffles?
    ensures DecodeSegments(RequestFor(op), PathParts(op)) == Some(op)
  {
    ResourceRoundTrip(Raffles);
  }

  lemma WaitlistDecoded(op: Operation)
    requires op.RetrieveWaitlistEntry? || op.ListWaitlistEntries?
    ensures DecodeSegments(RequestFor(op), PathParts(op)) == Some(op)
  {
    ResourceRoundTrip(Waitlist);
  }

  lemma PaymentsDecoded(op: Operation)
    requires op.RetrievePayment? || op.RefundPayment? || op.ListPayments?
    ensures DecodeSegments(RequestFor(op), PathParts(op)) == Some(op)
  {
    ResourceRoundTrip(Payments);
  }

  lemma CouponsDecoded(op: Operation)
    requires op.CreateCoupon? || op.RetrieveCoupon? || op.ListCoupons?
    ensures DecodeSegments(RequestFor(op), PathParts(op)) == Some(op)
  {
    ResourceRoundTrip(Coupons);
  }

  /**
    Without that condition routing is ambiguous: a license key ending in
    "/metadata" sends a full license update to the metadata endpoint of
    another key.
   */
  lemma PathCollision(k: string, payload: Dict)
    ensures RequestFor(UpdateLicense(k + "/metadata", payload)) == RequestFor(UpdateLicenseMetadata(k, payload))
  {
    assert "/licenses/" + (k + "/metadata") == "/licenses/" + k + "/metadata";
  }
}
