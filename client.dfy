/**
  The public client: the query dicts of the list calls, the facade calls that
  forward a builder's payload to their request helper, the hardware id, and
  `authorize` against a license store.
 */
module Client {
  import opened Wrappers
  import opened Json
  import Core
  import Licenses
  import Links
  import Coupons
  import Raffles
  import Products

  // ---- Hardware id ------------------------------------------------------------------------------

  /** A lowercase hexadecimal digit, as `'%x'` writes them. */
  predicate IsHexDigit(c: char) {
    '0' <= c <= '9' || 'a' <= c <= 'f'
  }

  predicate AllHex(s: string) {
    forall i :: 0 <= i < |s| ==> IsHexDigit(s[i])
  }

  function HexDigit(d: nat): (c: char)
    requires d < 16
    ensures IsHexDigit(c)
    ensures DigitValue(c) == d
  {
    if d < 10 then ('0' as int + d) as char else ('a' as int + d - 10) as char
  }

  function DigitValue(c: char): (d: nat)
    requires IsHexDigit(c)
    ensures d < 16
  {
    if c <= '9' then c as int - '0' as int else c as int - 'a' as int + 10
  }

  /** `'%x' % n`: the hexadecimal digits of `n`, most significant first, without leading zeros. */
  function Hex(n: nat): (s: string)
    ensures |s| >= 1 && AllHex(s)
    ensures n >= 16 ==> s[0] != '0'
    decreases n
  {
    if n < 16 then [HexDigit(n)] else Hex(n / 16) + [HexDigit(n % 16)]
  }

  /** The number a string of hexadecimal digits denotes. */
  function HexValue(s: string): nat
    requires AllHex(s)
  {
    if s == [] then 0 else HexValue(s[..|s| - 1]) * 16 + DigitValue(s[|s| - 1])
  }

  function Pow16(k: nat): (p: nat)
    ensures p >= 1
  {
    if k == 0 then 1 else 16 * Pow16(k - 1)
  }

  /** `uuid.getnode()` gives a 48-bit number. */
  const NodeBound: nat := 0x1_0000_0000_0000

  /** Reading the digits back gives the number. */
  lemma {:induction false} HexRoundTrip(n: nat)
    ensures HexValue(Hex(n)) == n
    decreases n
  {
    var s := Hex(n);
    if n >= 16 {
      HexRoundTrip(n / 16);
      assert s[..|s| - 1] == Hex(n / 16);
    }
  }

  /** A number below 16^k has at most k digits. */
  lemma {:induction false} HexLength(n: nat, k: nat)
    requires 1 <= k && n < Pow16(k)
    ensures |Hex(n)| <= k
    decreases n
  {
    if n >= 16 {
      assert n / 16 < Pow16(k - 1);
      HexLength(n / 16, k - 1);
    }
  }

  function Zeros(k: nat): (s: string)
    ensures |s| == k && AllHex(s)
    ensures forall i :: 0 <= i < k ==> s[i] == '0'
  {
    if k == 0 then [] else Zeros(k - 1) + ['0']
  }

  /** The `012` of `'%012x'`: zeros in front up to twelve characters, never a cut. */
  function ZeroPad(s: string, width: nat): (r: string)
    ensures |s| >= width ==> r == s
    ensures |s| < width ==> r == Zeros(width - |s|) + s
  {
    if |s| >= width then s else Zeros(width - |s|) + s
  }

  /** Leading zeros do not change the value. */
  lemma {:induction false} LeadingZeros(k: nat, s: string)
    requires AllHex(s)
    ensures AllHex(Zeros(k) + s)
    ensures HexValue(Zeros(k) + s) == HexValue(s)
    decreases |s|
  {
    var z := Zeros(k);
    var t := z + s;
    assert forall i :: 0 <= i < |t| ==> t[i] == (if i < k then z[i] else s[i - k]);
    if s == [] {
      assert t == z;
      ZerosValue(k);
    } else {
      assert t[..|t| - 1] == z + s[..|s| - 1];
      assert AllHex(s[..|s| - 1]) by {
        assert forall i :: 0 <= i < |s| - 1 ==> s[..|s| - 1][i] == s[i];
      }
      LeadingZeros(k, s[..|s| - 1]);
      assert t[|t| - 1] == s[|s| - 1];
    }
  }

  lemma {:induction false} ZerosValue(k: nat)
    ensures HexValue(Zeros(k)) == 0
  {
    if k > 0 {
      assert Zeros(k)[..k - 1] == Zeros(k - 1);
      ZerosValue(k - 1);
    }
  }

  /** `re.findall('..', s)`: the consecutive two-character chunks, a trailing odd character dropped. */
  function Pairs(s: string): (r: seq<string>)
    ensures |r| == |s| / 2
    ensures forall i :: 0 <= i < |r| ==> |r[i]| == 2
    decreases |s|
  {
    if |s| < 2 then [] else [s[..2]] + Pairs(s[2..])
  }

  /** `':'.join(parts)`. */
  function JoinColons(parts: seq<string>): string {
    if parts == [] then ""
    else if |parts| == 1 then parts[0]
    else parts[0] + ":" + JoinColons(parts[1..])
  }

  /** `':'.join(re.findall('..', '%012x' % node))`. */
  function HardwareId(node: nat): string {
    JoinColons(Pairs(ZeroPad(Hex(node), 12)))
  }

  /**
    Joining the pairs of an even-length string puts a colon at every third
    position and the string's own characters, in order, everywhere else.
   */
  lemma {:induction false} PairsJoined(p: string)
    requires |p| >= 2 && |p| % 2 == 0
    ensures |JoinColons(Pairs(p))| == 3 * (|p| / 2) - 1
    ensures forall i :: 0 <= i < |JoinColons(Pairs(p))| ==>
      JoinColons(Pairs(p))[i] == (if i % 3 == 2 then ':' else p[2 * (i / 3) + i % 3])
    decreases |p|
  {
    var j := JoinColons(Pairs(p));
    if |p| == 2 {
      assert Pairs(p) == [p[..2]];
      assert j == p[..2];
    } else {
      var rest := p[2..];
      PairsJoined(rest);
      var jr := JoinColons(Pairs(rest));
      assert Pairs(p) == [p[..2]] + Pairs(rest);
      assert Pairs(p)[1..] == Pairs(rest);
      assert j == p[..2] + ":" + jr;
      forall i | 0 <= i < |j|
        ensures j[i] == (if i % 3 == 2 then ':' else p[2 * (i / 3) + i % 3])
      {
        if i >= 3 {
          assert j[i] == jr[i - 3];
          assert (i - 3) % 3 == i % 3 && (i - 3) / 3 == i / 3 - 1;
          if i % 3 != 2 {
            assert jr[i - 3] == rest[2 * ((i - 3) / 3) + (i - 3) % 3];
          }
        }
      }
    }
  }

  /** Every third character dropped: the digits back from a formatted id. */
  function Unpair(id: string): string
    decreases |id|
  {
    if |id| <= 2 then id else id[..2] + Unpair(id[3..])
  }

  lemma {:induction false} UnpairJoined(p: string)
    requires |p| >= 2 && |p| % 2 == 0
    ensures Unpair(JoinColons(Pairs(p))) == p
    decreases |p|
  {
    if |p| == 2 {
      assert Pairs(p) == [p[..2]];
      assert p[..2] == p;
    } else {
      var rest := p[2..];
      UnpairJoined(rest);
      var jr := JoinColons(Pairs(rest));
      assert Pairs(p)[1..] == Pairs(rest);
      var j := p[..2] + ":" + jr;
      assert JoinColons(Pairs(p)) == j;
      PairsJoined(rest);
      assert j[..2] == p[..2] && j[3..] == jr;
      assert p == p[..2] + rest;
    }
  }

  /** The twelve digits the node is padded to, for a 48-bit node. */
  lemma PaddedDigits(node: nat)
    requires node < NodeBound
    ensures |ZeroPad(Hex(node), 12)| == 12
    ensures AllHex(ZeroPad(Hex(node), 12))
    ensures HexValue(ZeroPad(Hex(node), 12)) == node
  {
    assert Pow16(12) == NodeBound;
    HexLength(node, 12);
    HexRoundTrip(node);
    LeadingZeros(12 - |Hex(node)|, Hex(node));
  }

  /**
    For a 48-bit node the id is six colon-separated pairs of lowercase hex
    digits, seventeen characters in all.
   */
  lemma HardwareIdShape(node: nat)
    requires node < NodeBound
    ensures |HardwareId(node)| == 17
    ensures forall i :: 0 <= i < 17 ==>
      (i % 3 == 2 ==> HardwareId(node)[i] == ':') && (i % 3 != 2 ==> IsHexDigit(HardwareId(node)[i]))
  {
    var p := ZeroPad(Hex(node), 12);
    PaddedDigits(node);
    PairsJoined(p);
    forall i | 0 <= i < 17 && i % 3 != 2
      ensures IsHexDigit(HardwareId(node)[i])
    {
      assert 2 * (i / 3) + i % 3 < 12;
    }
  }

  /** The node a well-formed id stands for. */
  function ParseHardwareId(id: string): (r: Option<nat>)
    ensures r.Some? ==> r.value < Pow16(|Unpair(id)|)
  {
    var digits := Unpair(id);
    if AllHex(digits) then
      ValueBound(digits);
      Some(HexValue(digits))
    else None
  }

  lemma {:induction false} ValueBound(s: string)
    requires AllHex(s)
    ensures HexValue(s) < Pow16(|s|)
    decreases |s|
  {
    if s != [] {
      var init := s[..|s| - 1];
      assert AllHex(init) by {
        assert forall i :: 0 <= i < |init| ==> init[i] == s[i];
      }
      ValueBound(init);
    }
  }

  /** The id names its node: reading it back gives the node, for every 48-bit node. */
  lemma HardwareIdRoundTrip(node: nat)
    requires node < NodeBound
    ensures ParseHardwareId(HardwareId(node)) == Some(node)
  {
    var p := ZeroPad(Hex(node), 12);
    PaddedDigits(node);
    UnpairJoined(p);
  }

  /** Two machines with different 48-bit nodes never share an id. */
  lemma HardwareIdInjective(a: nat, b: nat)
    requires a < NodeBound && b < NodeBound
    ensures HardwareId(a) == HardwareId(b) <==> a == b
  {
    HardwareIdRoundTrip(a);
    HardwareIdRoundTrip(b);
  }

  /** A trailing odd character is dropped by the chunking. */
  lemma {:induction false} PairsDropOdd(s: string, c: char)
    requires |s| % 2 == 0
    ensures Pairs(s + [c]) == Pairs(s)
    decreases |s|
  {
    if |s| >= 2 {
      assert (s + [c])[..2] == s[..2];
      assert (s + [c])[2..] == s[2..] + [c];
      PairsDropOdd(s[2..], c);
    } else {
      assert |s + [c]| == 1;
    }
  }

  /**
    Why the 48-bit bound matters: a node with thirteen digits loses its last
    one, so it shares its id with the node sixteen times smaller.
   */
  lemma WideNodesCollide(node: nat)
    requires Pow16(12) <= node < Pow16(13)
    ensures HardwareId(node) == HardwareId(node / 16)
  {
    assert Pow16(12) == NodeBound;
    HexLength(node / 16, 12);
    assert |Hex(node / 16)| >= 12 by {
      ValueBound(Hex(node / 16));
      HexRoundTrip(node / 16);
      if |Hex(node / 16)| < 12 {
        PowMonotone(|Hex(node / 16)|, 11);
      }
    }
    assert Hex(node) == Hex(node / 16) + [HexDigit(node % 16)];
    PairsDropOdd(Hex(node / 16), HexDigit(node % 16));
  }

  lemma {:induction false} PowMonotone(a: nat, b: nat)
    requires a <= b
    ensures Pow16(a) <= Pow16(b)
    decreases b - a
  {
    if a < b {
      PowMonotone(a, b - 1);
    }
  }

  // ---- List queries -----------------------------------------------------------------------------

  const DefaultPage: int := 1
  const DefaultLimit: int := 20

  /** `list_licenses`: the page and the page size, in that order. */
  function LicensesQuery(page: int, limit: int): (q: Dict)
    ensures Keys(q) == ["page", "limit"]
    ensures Get(q, "page") == Some(Int(page)) && Get(q, "limit") == Some(Int(limit))
  {
    [Entry("page", Int(page)), Entry("limit", Int(limit))]
  }

  /** The `active` flag of `list_raffles` and `list_coupons`, sent as a string. */
  function ActiveFlag(active: bool): (s: string)
    ensures s == "true" || s == "false"
  {
    if active then "true" else "false"
  }

  /** How the server reads the flag back. */
  function ParseActive(s: string): (r: Option<bool>)
    ensures r.Some? ==> ActiveFlag(r.value) == s
  {
    if s == "true" then Some(true) else if s == "false" then Some(false) else None
  }

  /** The two settings are told apart: the flag carries the boolean. */
  lemma {:induction false} ActiveRoundTrip(active: bool)
    ensures ParseActive(ActiveFlag(active)) == Some(active)
  {
    if !active {
      assert "false" != "true" by { assert "false"[0] != "true"[0]; }
    }
  }

  function ActiveQuery(active: bool): (q: Dict)
    ensures Keys(q) == ["active"]
    ensures Get(q, "active") == Some(Str(ActiveFlag(active)))
  {
    [Entry("active", Str(ActiveFlag(active)))]
  }

  // ---- Facade calls -----------------------------------------------------------------------------

  /** One constructor per public client method, with that method's arguments. */
  datatype Call =
    | CreateLicenseCall(createLicense: Licenses.CreateLicenseParams)
    | RetrieveLicenseCall(licenseKey: string)
    | UpdateLicenseCall(licenseKey: string, updateLicense: Licenses.UpdateLicenseParams)
    | UpdateLicenseMetadataCall(licenseKey: string, metadata: Dict)
    | DeleteLicenseCall(licenseKey: string)
    | ListLicensesCall(page: int, limit: int)
    | CreateProductCall(createProduct: Products.CreateProductParams)
    | RetreiveProductCall(productId: string)
    | UpdateProductCall(productId: string, updateProduct: Products.UpdateProductParams)
    | ListProductsCall
    | CreateLinkCall(createLink: Links.CreateLinkParams)
    | RetrieveLinkCall(link: string)
    | UpdateLinkCall(link: string, updateLink: Links.UpdateLinkParams)
    | ListLinksCall
    | CreateRaffleCall(createRaffle: Raffles.CreateRaffleParams)
    | RetrieveRaffleCall(raffleId: string)
    | ListRafflesCall(raffleActive: bool)
    | RetrieveWaitlistEntryCall(entryId: string)
    | ListWaitlistEntriesCall
    | RetrievePaymentCall(paymentId: string)
    | RefundPaymentCall(payment: string)
    | ListPaymentsCall
    | CreateCouponCall(createCoupon: Coupons.CreateCouponParams)
    | RetrieveCouponCall(couponId: string)
    | ListCouponsCall(couponActive: bool)

  /** `create_license`, `retrieve_license`, `update_license`, `update_license_metadata`, `delete_license`, `list_licenses`. */
  predicate LicenseCall(c: Call) {
    c.CreateLicenseCall? || c.RetrieveLicenseCall? || c.UpdateLicenseCall? || c.UpdateLicenseMetadataCall?
    || c.DeleteLicenseCall? || c.ListLicensesCall?
  }

  /**
    The license helpers the license methods call: the builder's payload and
    the caller's metadata go out unchanged as the body, the page and limit as
    the query.
   */
  function LicensesFacade(c: Call): (op: Core.Operation)
    requires LicenseCall(c)
    requires c.UpdateLicenseCall? && c.updateLicense.subscription.Some? ==>
      c.updateLicense.subscription.value.currentPeriodEnd.Some?
    ensures c.CreateLicenseCall? ==> Core.BodyFor(op) == Some(Licenses.CreatePayload(c.createLicense))
    ensures c.UpdateLicenseCall? ==> Core.BodyFor(op) == Some(Licenses.UpdatePayload(c.updateLicense))
    ensures c.UpdateLicenseMetadataCall? ==> Core.BodyFor(op) == Some(c.metadata)
    ensures c.ListLicensesCall? ==> Core.QueryFor(op) == Some(LicensesQuery(c.page, c.limit))
    ensures !c.ListLicensesCall? ==> Core.QueryFor(op).None?
    ensures Core.PathId(op).Some? <==> !(c.CreateLicenseCall? || c.ListLicensesCall?)
    ensures Core.PathId(op).Some? ==> Core.PathId(op).value == c.licenseKey
    ensures c.CreateLicenseCall? ==> Core.RequestFor(op) == Core.Request(Core.HttpPost, "/licenses", None, Some(Licenses.CreatePayload(c.createLicense)), Core.JsonBody)
    ensures c.RetrieveLicenseCall? ==> Core.RequestFor(op) == Core.Request(Core.HttpGet, "/licenses/" + c.licenseKey, None, None, Core.JsonBody)
    ensures c.UpdateLicenseCall? ==>
      Core.RequestFor(op) == Core.Request(Core.HttpPatch, "/licenses/" + c.licenseKey, None, Some(Licenses.UpdatePayload(c.updateLicense)), Core.JsonBody)
    ensures c.UpdateLicenseMetadataCall? ==>
      Core.RequestFor(op) == Core.Request(Core.HttpPatch, "/licenses/" + c.licenseKey + "/metadata", None, Some(c.metadata), Core.JsonBody)
    ensures c.DeleteLicenseCall? ==> Core.RequestFor(op) == Core.Request(Core.HttpDelete, "/licenses/" + c.licenseKey, None, None, Core.TextBody)
    ensures c.ListLicensesCall? ==>
      Core.RequestFor(op) == Core.Request(Core.HttpGet, "/licenses", Some(LicensesQuery(c.page, c.limit)), None, Core.JsonBody)
  {
    match c
    case CreateLicenseCall(p) => Core.CreateLicense(Licenses.CreatePayload(p))
    case RetrieveLicenseCall(k) => Core.RetrieveLicense(k)
    case UpdateLicenseCall(k, p) => Core.UpdateLicense(k, Licenses.UpdatePayload(p))
    case UpdateLicenseMetadataCall(k, m) => Core.UpdateLicenseMetadata(k, m)
    case DeleteLicenseCall(k) => Core.DeleteLicense(k)
    case ListLicensesCall(page, limit) => Core.ListLicenses(LicensesQuery(page, limit))
  }

  predicate ProductCall(c: Call) {
    c.CreateProductCall? || c.RetreiveProductCall? || c.UpdateProductCall? || c.ListProductsCall?
  }

  /** The product helpers: the builders' payloads go out unchanged as the body. */
  function ProductsFacade(c: Call): (op: Core.Operation)
    requires ProductCall(c)
    ensures c.CreateProductCall? ==> Core.BodyFor(op) == Some(Products.CreatePayload(c.createProduct))
    ensures c.UpdateProductCall? ==> Core.BodyFor(op) == Some(Products.UpdatePayload(c.updateProduct))
    ensures Core.QueryFor(op).None?
    ensures Core.PathId(op).Some? <==> c.RetreiveProductCall? || c.UpdateProductCall?
    ensures Core.PathId(op).Some? ==> Core.PathId(op).value == c.productId
  {
    match c
    case CreateProductCall(p) => Core.CreateProduct(Products.CreatePayload(p))
    case RetreiveProductCall(id) => Core.RetrieveProduct(id)
    case UpdateProductCall(id, p) => Core.UpdateProduct(id, Products.UpdatePayload(p))
    case ListProductsCall => Core.ListProducts
  }

  /** Each product method calls its own helper: the verb, the path, the body and the result kind. */
  lemma ProductsRouted(c: Call)
    requires ProductCall(c)
    ensures c.CreateProductCall? ==>
      Core.RequestFor(ProductsFacade(c)) == Core.Request(Core.HttpPost, "/products", None, Some(Products.CreatePayload(c.createProduct)), Core.JsonBody)
    ensures c.RetreiveProductCall? ==> Core.RequestFor(ProductsFacade(c)) == Core.Request(Core.HttpGet, "/products/" + c.productId, None, None, Core.JsonBody)
    ensures c.UpdateProductCall? ==>
      Core.RequestFor(ProductsFacade(c)) == Core.Request(Core.HttpPatch, "/products/" + c.productId, None, Some(Products.UpdatePayload(c.updateProduct)), Core.JsonBody)
    ensures c.ListProductsCall? ==> Core.RequestFor(ProductsFacade(c)) == Core.Request(Core.HttpGet, "/products", None, None, Core.JsonBody)
  {
  }

  predicate LinkCall(c: Call) {
    c.CreateLinkCall? || c.RetrieveLinkCall? || c.UpdateLinkCall? || c.ListLinksCall?
  }

  /** The link helpers: the builders' payloads go out unchanged as the body. */
  function LinksFacade(c: Call): (op: Core.Operation)
    requires LinkCall(c)
    requires c.CreateLinkCall? ==> c.createLink.startDate.Some?
    ensures c.CreateLinkCall? ==> Core.BodyFor(op) == Some(Links.CreatePayload(c.createLink))
    ensures c.UpdateLinkCall? ==> Core.BodyFor(op) == Some(Links.UpdatePayload(c.updateLink))
    ensures Core.QueryFor(op).None?
    ensures Core.PathId(op).Some? <==> c.RetrieveLinkCall? || c.UpdateLinkCall?
    ensures Core.PathId(op).Some? ==> Core.PathId(op).value == c.link
    ensures c.CreateLinkCall? ==> Core.RequestFor(op) == Core.Request(Core.HttpPost, "/links", None, Some(Links.CreatePayload(c.createLink)), Core.JsonBody)
    ensures c.RetrieveLinkCall? ==> Core.RequestFor(op) == Core.Request(Core.HttpGet, "/links/" + c.link, None, None, Core.JsonBody)
    ensures c.UpdateLinkCall? ==>
      Core.RequestFor(op) == Core.Request(Core.HttpPatch, "/links/" + c.link, None, Some(Links.UpdatePayload(c.updateLink)), Core.JsonBody)
    ensures c.ListLinksCall? ==> Core.RequestFor(op) == Core.Request(Core.HttpGet, "/links", None, None, Core.JsonBody)
  {
    match c
    case CreateLinkCall(p) => Core.CreateLink(Links.CreatePayload(p))
    case RetrieveLinkCall(l) => Core.RetrieveLink(l)
    case UpdateLinkCall(l, p) => Core.UpdateLink(l, Links.UpdatePayload(p))
    case ListLinksCall => Core.ListLinks
  }

  predicate RaffleCall(c: Call) {
    c.CreateRaffleCall? || c.RetrieveRaffleCall? || c.ListRafflesCall?
  }

  /** The raffle helpers: the payload as the body, the active flag as the query. */
  function RafflesFacade(c: Call): (op: Core.Operation)
    requires RaffleCall(c)
    ensures c.CreateRaffleCall? ==> Core.BodyFor(op) == Some(Raffles.CreatePayload(c.createRaffle))
    ensures c.ListRafflesCall? <==> Core.QueryFor(op).Some?
    ensures c.ListRafflesCall? ==> Core.QueryFor(op) == Some(ActiveQuery(c.raffleActive))
    ensures c.RetrieveRaffleCall? ==> Core.PathId(op) == Some(c.raffleId)
    ensures c.CreateRaffleCall? ==>
      Core.RequestFor(op) == Core.Request(Core.HttpPost, "/raffles", None, Some(Raffles.CreatePayload(c.createRaffle)), Core.JsonBody)
    ensures c.RetrieveRaffleCall? ==> Core.RequestFor(op) == Core.Request(Core.HttpGet, "/raffles/" + c.raffleId, None, None, Core.JsonBody)
    ensures c.ListRafflesCall? ==> Core.RequestFor(op) == Core.Request(Core.HttpGet, "/raffles", Some(ActiveQuery(c.raffleActive)), None, Core.JsonBody)
  {
    match c
    case CreateRaffleCall(p) => Core.CreateRaffle(Raffles.CreatePayload(p))
    case RetrieveRaffleCall(id) => Core.RetrieveRaffle(id)
    case ListRafflesCall(a) => Core.ListRaffles(ActiveQuery(a))
  }

  predicate CouponCall(c: Call) {
    c.CreateCouponCall? || c.RetrieveCouponCall? || c.ListCouponsCall?
  }

  /** The coupon helpers: the payload as the body, the active flag as the query. */
  function CouponsFacade(c: Call): (op: Core.Operation)
    requires CouponCall(c)
    requires c.CreateCouponCall? ==> c.createCoupon.duration.Some?
    ensures c.CreateCouponCall? ==> Core.BodyFor(op) == Some(Coupons.CreatePayload(c.createCoupon))
    ensures c.ListCouponsCall? <==> Core.QueryFor(op).Some?
    ensures c.ListCouponsCall? ==> Core.QueryFor(op) == Some(ActiveQuery(c.couponActive))
    ensures c.RetrieveCouponCall? ==> Core.PathId(op) == Some(c.couponId)
    ensures c.CreateCouponCall? ==>
      Core.RequestFor(op) == Core.Request(Core.HttpPost, "/coupons", None, Some(Coupons.CreatePayload(c.createCoupon)), Core.JsonBody)
    ensures c.RetrieveCouponCall? ==> Core.RequestFor(op) == Core.Request(Core.HttpGet, "/coupons/" + c.couponId, None, None, Core.JsonBody)
    ensures c.ListCouponsCall? ==> Core.RequestFor(op) == Core.Request(Core.HttpGet, "/coupons", Some(ActiveQuery(c.couponActive)), None, Core.JsonBody)
  {
    match c
    case CreateCouponCall(p) => Core.CreateCoupon(Coupons.CreatePayload(p))
    case RetrieveCouponCall(id) => Core.RetrieveCoupon(id)
    case ListCouponsCall(a) => Core.ListCoupons(ActiveQuery(a))
  }

  predicate WaitlistOrPaymentCall(c: Call) {
    c.RetrieveWaitlistEntryCall? || c.ListWaitlistEntriesCall?
    || c.RetrievePaymentCall? || c.RefundPaymentCall? || c.ListPaymentsCall?
  }

  /** The waitlist and payment helpers: nothing but the identifier is passed on. */
  function WaitlistPaymentsFacade(c: Call): (op: Core.Operation)
    requires WaitlistOrPaymentCall(c)
    ensures Core.BodyFor(op).None? && Core.QueryFor(op).None?
    ensures c.RetrieveWaitlistEntryCall? ==> Core.PathId(op) == Some(c.entryId)
    ensures c.RetrievePaymentCall? ==> Core.PathId(op) == Some(c.paymentId)
    ensures c.RefundPaymentCall? ==> Core.PathId(op) == Some(c.payment)
    ensures c.RetrieveWaitlistEntryCall? ==>
      Core.RequestFor(op) == Core.Request(Core.HttpGet, "/waitlist/entries/" + c.entryId, None, None, Core.JsonBody)
    ensures c.ListWaitlistEntriesCall? ==> Core.RequestFor(op) == Core.Request(Core.HttpGet, "/waitlist/entries", None, None, Core.JsonBody)
    ensures c.RetrievePaymentCall? ==> Core.RequestFor(op) == Core.Request(Core.HttpGet, "/payments/" + c.paymentId, None, None, Core.JsonBody)
    ensures c.RefundPaymentCall? ==>
      Core.RequestFor(op) == Core.Request(Core.HttpPost, "/payments/" + c.payment + "/refund", None, None, Core.TextBody)
    ensures c.ListPaymentsCall? ==> Core.RequestFor(op) == Core.Request(Core.HttpGet, "/payments", None, None, Core.JsonBody)
  {
    match c
    case RetrieveWaitlistEntryCall(id) => Core.RetrieveWaitlistEntry(id)
    case ListWaitlistEntriesCall => Core.ListWaitlistEntries
    case RetrievePaymentCall(id) => Core.RetrievePayment(id)
    case RefundPaymentCall(id) => Core.RefundPayment(id)
    case ListPaymentsCall => Core.ListPayments
  }

  /** `list_licenses()` with its defaults asks for the first page of twenty. */
  lemma DefaultLicensesPage()
    ensures Core.QueryFor(LicensesFacade(ListLicensesCall(DefaultPage, DefaultLimit))) ==
      Some([Entry("page", Int(1)), Entry("limit", Int(20))])
  {
  }

  // ---- Authorize ----------------------------------------------------------------------------------

  /** Python's `not v`: `None`, `False`, zero, and the empty string, list and dict. */
  predicate Falsy(v: Value) {
    match v
    case Null => true
    case Bool(b) => !b
    case Int(i) => i == 0
    case Float(f) => f.repr == "0.0" || f.repr == "-0.0"
    case Str(s) => s == ""
    case Arr(items) => items == []
    case Obj(es) => es == []
  }

  /** What `authorize` can raise besides an API error. */
  datatype AuthError =
    | ApiFailure(error: Core.ApiError)  // from `retrieve_license` or `update_license`
    | NoMetadataKey                     // `license["metadata"]` on a license without one
    | MetadataNotDict                   // `.get('hwid')` on truthy metadata that is not a dict

  /** The three outcomes of the check on a retrieved license. */
  datatype Decision = Bind | Match | Reject

  /**
    The decision `authorize` takes on the retrieved license: bind when the
    metadata is falsy, accept when its "hwid" is this machine's id, refuse
    otherwise.
   */
  function Decide(license: Dict, hardwareId: string): (r: Result<Decision, AuthError>)
    ensures r == Err(NoMetadataKey) <==> "metadata" !in Keys(license)
    ensures r == Ok(Bind) <==> Get(license, "metadata").Some? && Falsy(Get(license, "metadata").value)
    ensures r == Err(MetadataNotDict) <==>
      Get(license, "metadata").Some? && !Falsy(Get(license, "metadata").value) && !Get(license, "metadata").value.Obj?
    ensures r == Ok(Match) <==>
      Get(license, "metadata").Some? && !Falsy(Get(license, "metadata").value) && Get(license, "metadata").value.Obj?
      && Get(Get(license, "metadata").value.entries, "hwid") == Some(Str(hardwareId))
    ensures r == Ok(Reject) <==>
      Get(license, "metadata").Some? && !Falsy(Get(license, "metadata").value) && Get(license, "metadata").value.Obj?
      && Get(Get(license, "metadata").value.entries, "hwid") != Some(Str(hardwareId))
  {
    match Get(license, "metadata")
    case None => Err(NoMetadataKey)
    case Some(m) =>
      if Falsy(m) then Ok(Bind)
      else if !m.Obj? then Err(MetadataNotDict)
      else if Get(m.entries, "hwid") == Some(Str(hardwareId)) then Ok(Match)
      else Ok(Reject)
  }

  /** A license bound to one machine accepts that machine and refuses every other. */
  lemma BoundLicense(license: Dict, bound: string, other: string)
    requires Get(license, "metadata").Some? && Get(license, "metadata").value.Obj?
    requires Get(Get(license, "metadata").value.entries, "hwid") == Some(Str(bound))
    ensures Decide(license, other) == if other == bound then Ok(Match) else Ok(Reject)
  {
    var es := Get(license, "metadata").value.entries;
    assert "hwid" in Keys(es);
    assert es != [];
  }

  /**
    The update `authorize` sends on first use: `UpdateLicenseParams` with the
    id nested under the metadata argument and every other field `None`.
   */
  function FirstBindPayload(hardwareId: string): Dict {
    Licenses.UpdatePayload(Licenses.UpdateLicenseParams(
      None, None, None, Some([Entry("metadata", Obj([Entry("hwid", Str(hardwareId))]))]), None))
  }

  /** The update request as written carries an empty body: the id never leaves the machine. */
  lemma FirstBindSendsNothing(hardwareId: string)
    ensures FirstBindPayload(hardwareId) == []
  {
  }

  /**
    How the server applies an update: each top-level key of the payload
    replaces the license's value under that key, and the rest is kept.
   */
  function ApplyUpdate(license: Dict, payload: Dict): (r: Dict)
    ensures forall k :: k !in Keys(payload) ==> Get(r, k) == Get(license, k)
    ensures UniqueKeys(payload) ==> forall k :: k in Keys(payload) ==> Get(r, k) == Get(payload, k)
    ensures payload == [] ==> r == license
    decreases |payload|
  {
    if payload == [] then license
    else
      var next := Put(license, payload[0].key, payload[0].value);
      var r := ApplyUpdate(next, payload[1..]);
      forall k | k !in Keys(payload) ensures Get(r, k) == Get(license, k) {
        PutOther(license, payload[0].key, payload[0].value, k);
      }
      assert UniqueKeys(payload) ==> forall k :: k in Keys(payload) ==> Get(r, k) == Get(payload, k) by {
        if UniqueKeys(payload) {
          forall k | k in Keys(payload) ensures Get(r, k) == Get(payload, k) {
            assert Keys(payload) == [payload[0].key] + Keys(payload[1..]);
            if k == payload[0].key {
              assert k !in Keys(payload[1..]);
              assert Get(next, k) == Some(payload[0].value);
            }
          }
        }
      }
      r
  }

  /** Assigning one key leaves the lookup of every other key alone. */
  lemma {:induction false} PutOther(d: Dict, k: string, v: Value, other: string)
    requires other != k
    ensures Get(Put(d, k, v), other) == Get(d, other)
  {
    if d != [] && d[0].key != k {
      PutOther(d[1..], k, v, other);
    }
  }

  /**
    The payload first use evidently means to send: the license's metadata
    becomes a dict holding this machine's id.
   */
  function IntendedBindPayload(hardwareId: string): (p: Dict)
    ensures Get(p, "metadata") == Some(Obj([Entry("hwid", Str(hardwareId))]))
  {
    [Entry("metadata", Obj([Entry("hwid", Str(hardwareId))]))]
  }

  /**
    As written, binding changes nothing on the server: after the first
    machine's bind the license still asks to be bound, so every other machine
    is let in too.
   */
  lemma FirstBindNeverBinds(license: Dict, first: string, other: string)
    requires Decide(license, first) == Ok(Bind)
    ensures Decide(ApplyUpdate(license, FirstBindPayload(first)), other) == Ok(Bind)
  {
    FirstBindSendsNothing(first);
  }

  /** With the intended payload the first machine owns the license: only it is let in afterwards. */
  lemma IntendedBindLocks(license: Dict, first: string, other: string)
    requires Decide(license, first) == Ok(Bind)
    ensures Decide(ApplyUpdate(license, IntendedBindPayload(first)), other) ==
      if other == first then Ok(Match) else Ok(Reject)
  {
    var p := IntendedBindPayload(first);
    var after := ApplyUpdate(license, p);
    assert Get(after, "metadata") == Some(Obj([Entry("hwid", Str(first))])) by {
      assert p[1..] == [];
      assert Get(Put(license, "metadata", p[0].value), "metadata") == Some(p[0].value);
    }
    BoundLicense(after, first, other);
  }

  /** The error `retrieve_license` and `update_license` raise for an unknown key. */
  const NotFound: Core.ApiError := Core.HyperApiException(Str("Not found"))

  /**
    The licenses the API holds, by key, and the requests it has been sent.
    An unknown key is answered with a 404.
   */
  class LicenseStore {
    var licenses: map<string, Dict>
    var received: seq<Core.Request>

    constructor(initial: map<string, Dict>)
      ensures licenses == initial && received == []
    {
      licenses := initial;
      received := [];
    }

    /** `retrieve_license`: the license under `key`, or the 404 error. */
    method Retrieve(key: string) returns (r: Result<Dict, Core.ApiError>)
      modifies this
      ensures licenses == old(licenses)
      ensures received == old(received) + [Core.RequestFor(Core.RetrieveLicense(key))]
      ensures key in licenses ==> r == Ok(licenses[key])
      ensures key !in licenses ==> r == Err(NotFound)
    {
      received := received + [Core.RequestFor(Core.RetrieveLicense(key))];
      if key in licenses {
        r := Ok(licenses[key]);
      } else {
        r := Err(NotFound);
      }
    }

    /** `update_license` with an already built payload: the license after the update, or the 404 error. */
    method Update(key: string, payload: Dict) returns (r: Result<Dict, Core.ApiError>)
      modifies this
      ensures received == old(received) + [Core.RequestFor(Core.UpdateLicense(key, payload))]
      ensures key in old(licenses) ==>
        licenses == old(licenses)[key := ApplyUpdate(old(licenses)[key], payload)] && r == Ok(licenses[key])
      ensures key !in old(licenses) ==> licenses == old(licenses) && r == Err(NotFound)
    {
      received := received + [Core.RequestFor(Core.UpdateLicense(key, payload))];
      if key in licenses {
        var updated := ApplyUpdate(licenses[key], payload);
        licenses := licenses[key := updated];
        r := Ok(updated);
      } else {
        r := Err(NotFound);
      }
    }
  }

  /** The client: the request layer built from the API key, and `authorize` on top of it. */
  class Client {
    const core: Core.Core

    constructor(apiKey: string)
      ensures core.bearer == apiKey && core.headers == Core.HeadersFor(apiKey)
    {
      core := new Core.Core(apiKey);
    }

    /**
      `authorize` on the machine whose node number is `node`: the license is
      retrieved; falsy metadata is bound with one update and accepted; other
      metadata is accepted exactly when its "hwid" is this machine's id, and
      nothing is updated.
     */
    method Authorize(store: LicenseStore, licenseKey: string, node: nat) returns (r: Result<bool, AuthError>)
      modifies store
      ensures licenseKey !in old(store.licenses) ==>
        r == Err(ApiFailure(NotFound)) && store.licenses == old(store.licenses)
        && store.received == old(store.received) + [Core.RequestFor(Core.RetrieveLicense(licenseKey))]
      ensures licenseKey in old(store.licenses) ==>
        var d := Decide(old(store.licenses)[licenseKey], HardwareId(node));
        var payload := FirstBindPayload(HardwareId(node));
        (d == Ok(Bind) ==>
          r == Ok(true)
          && store.licenses == old(store.licenses)[licenseKey := ApplyUpdate(old(store.licenses)[licenseKey], payload)]
          && store.received == old(store.received)
            + [Core.RequestFor(Core.RetrieveLicense(licenseKey)), Core.RequestFor(Core.UpdateLicense(licenseKey, payload))])
        && (d != Ok(Bind) ==>
          store.licenses == old(store.licenses)
          && store.received == old(store.received) + [Core.RequestFor(Core.RetrieveLicense(licenseKey))]
          && (d == Ok(Match) ==> r == Ok(true))
          && (d == Ok(Reject) ==> r == Ok(false))
          && (d.Err? ==> r == Err(d.error)))
    {
      var license := store.Retrieve(licenseKey);
      if license.Err? {
        return Err(ApiFailure(license.error));
      }
      var hardwareId := HardwareId(node);
      var metadata := Get(license.value, "metadata");
      if metadata.None? {
        return Err(NoMetadataKey);
      }
      if Falsy(metadata.value) {
        var params := Licenses.UpdateLicenseParams(
          None, None, None, Some([Entry("metadata", Obj([Entry("hwid", Str(hardwareId))]))]), None);
        // The key was just found, so this store cannot answer the update with an error.
        var _ := store.Update(licenseKey, Licenses.UpdatePayload(params));
        return Ok(true);
      }
      if !metadata.value.Obj? {
        return Err(MetadataNotDict);
      }
      var currentHwid := Get(metadata.value.entries, "hwid");
      if currentHwid == Some(Str(hardwareId)) {
        return Ok(true);
      }
      return Ok(false);
    }
  }
}
