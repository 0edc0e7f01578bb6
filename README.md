# Hyper SDK client core, modelled in Dafny

This project models the request-building and checking logic of the Python Hyper SDK. The SDK is a client for the Hyper licensing and e-commerce HTTP API. The model covers:

- the payload cleaner `_clear_payload`, which strips `None` values recursively;
- the `_build_payload` parameter builders for licenses, links, coupons, raffles and products;
- the request layer `Core`:
  - the bearer headers;
  - the URL join;
  - the response check;
  - the verb, path and result kind of every `_…_request` helper;
- the public `Client`:
  - the query dicts of the list methods;
  - the facades that pass each builder's payload to its helper;
  - `authorize`, which binds a license to a hardware id on first use.

## Structure

Each module follows one source file.

| Module | Source file | What it holds |
|---|---|---|
| `Wrappers` | — | `Option` and `Result` |
| `Json` | — | The value model, see below |
| `Helpers` | `hyper/utils/helpers.py` | The cleaner |
| `Licenses` | `hyper/licenses.py` | Builders |
| `Links` | `hyper/links.py` | Builders |
| `Coupons` | `hyper/coupons.py` | Builders |
| `Raffles` | `hyper/raffles.py` | Builders |
| `Products` | `hyper/products.py` | Builders |
| `Core` | `hyper/client/core.py` | The request layer |
| `Client` | `hyper/client/client.py` | The public client |

The `Json` value model:

- A JSON-like `Value` stands for both Python `dict` and `list`.
- A dict is an ordered sequence of entries, since Python dicts keep insertion order.
- Python `None` is the `Null` value.
- Floats and dates are opaque: a float is kept as its printed form, and a date as its ISO string and its epoch seconds.

How each operation is modelled:

- **The cleaner** is a `function` `Clean`, which is its specification. It is also a `method` `ClearPayload`, which copies the dict and then deletes or replaces keys in the copy in a loop, as the source does.
- **The builders** are functions. Each one builds the dict literal, including its `None`s, and cleans it. Its contract states the payload that reaches the wire, written without `Clean`.
- **The remote license store** is a class holding a map from license key to license dict. It also records the requests sent to it.
- **`authorize`** is a method on `Client` that works on that store.

## Model

| member | source | states |
|---|---|---|
| Helpers.ClearPayload | hyper/utils/helpers.py:2-16 | The loop over the copy (delete each `None` key, replace each dict value by its cleaned version) yields exactly `Clean(payload)` |
| Helpers.CleanNullFree | hyper/utils/helpers.py:8-14 | No `None` value survives cleaning, at any depth reached through nested dicts |
| Helpers.CleanGet | hyper/utils/helpers.py:8-14 | For `Clean`, the specification of the cleaner: a missing or `None` key is absent after cleaning; a dict value is replaced by its cleaned version; every other value, `False`, `0`, `""` and lists included, is kept as it is under the same key |
| Helpers.CleanKeys | hyper/utils/helpers.py:4-10 | The keys after cleaning are exactly the keys whose value is not `None`, in their original order |
| Helpers.CleanIdempotent | hyper/utils/helpers.py:2-16 | Cleaning twice is cleaning once |
| Helpers.CleanFixesExactlyNullFree | hyper/utils/helpers.py:2-16 | Cleaning leaves a dict unchanged exactly when it holds no `None` at any dict depth |
| Helpers.EmptiedDictSurvives | hyper/utils/helpers.py:12-14 | A nested dict whose values are all `None` is still sent, as `{}` |
| Helpers.AllNullCleansToEmpty | hyper/utils/helpers.py:6-10 | A dict of `None` values cleans to `{}` |
| Helpers.CleanConcat | hyper/utils/helpers.py:6-14 | Each entry is cleaned on its own: cleaning distributes over concatenation |
| Licenses.CreatePayload | hyper/licenses.py:20-29 | The product goes under "plan" and the email under "email"; the key and the metadata are sent only when given, and the metadata is itself cleaned; with neither, the payload is exactly plan and email |
| Licenses.UpdatePayload | hyper/licenses.py:40-53 | The payload never has "metadata"; a subscription is sent with its ISO period end and each flag only when given; all defaults give `{}`; a subscription must carry its period end |
| Links.CreatePayload | hyper/links.py:16-29 | "plan" and the integer "start_date" are always sent, the start date being required; every optional field is sent exactly when given (`False` and `0` included); the keys lie within the eight listed |
| Links.UpdatePayload | hyper/links.py:37-43 | "active" is always sent, `False` included; "remaining_stock" exactly when given, `0` included |
| Coupons.CreatePayload | hyper/coupons.py:24-37 | The code goes under "name" and the product under "product"; a duration is required and is found under "duration" as its enum value; the other fields are sent exactly when given; the keys lie within the eight listed |
| Coupons.DurationRoundTrip | hyper/coupons.py:6-11 | Each duration's value names that member and no other |
| Raffles.CreatePayload | hyper/raffles.py:15-27 | The payload in source key order, with `grouop_buy_guild` sent as "group_buy_guild"; the optional fields are sent exactly when given; the keys lie within the seven listed |
| Raffles.RequiredFieldsSent | hyper/raffles.py:20-23 | "plan", "spots" and the ISO "pick_winners_at" are always found, whatever the optional fields are |
| Products.EnumRoundTrips | hyper/products.py:7-34 | Every value of the four enums names its member and no other |
| Products.DumpsRoundTrip | hyper/products.py:93 | The quoted form of an enum value gives the value back |
| Products.DumpedTypeIsNoMember | hyper/products.py:112 | The quoted "type" sent on the wire is not the value of any product type |
| Products.PlainValues | hyper/products.py:7-34 | Every enum value is printable ASCII without `"` or `\`, the only characters `json.dumps` leaves unescaped, so quoting is all it does to them |
| Products.CreatePayload | hyper/products.py:88-120 | The cleaned create dict is exactly the wire form: links only when non-empty, recurring, transfers and integrations only when given, each platform only when given, enum values quoted; the keys lie within the eleven listed |
| Products.UpdatePayload | hyper/products.py:133-157 | The cleaned update dict is exactly the wire form: the id under "name"; the telegram object carries only "cancel_action"; the keys lie within the seven listed |
| Products.LinksSentIffNonEmpty | hyper/products.py:91 | "links" is sent exactly when a non-empty list is given, and then comes first with one `{title, href}` object per link in order |
| Products.EmptyIntegrationsSent | hyper/products.py:100-110 | Integrations given with neither platform are still sent, as `{}` |
| Products.UpdateOmitsFixedFields | hyper/products.py:135-155 | An update never has "type", "amount", "currency" or "recurring" |
| Products.CleanIntegrations | hyper/products.py:100-110 | The integrations object keeps only the platforms given |
| Core.HeadersFor | hyper/client/core.py:14-18 | The headers are exactly "Authorization", "accept" and "content-type", in that order and each once |
| Core.BearerRoundTrip | hyper/client/core.py:14-18 | The headers carry `"Bearer " + api_key` (the key can be read back) and JSON accept and content-type |
| Core.Core.constructor | hyper/client/core.py:10-18 | The client keeps the key and exactly those headers |
| Core.UrlRoundTrip | hyper/client/core.py:33-35 | The URL is the base URL followed by the path, and the path can be read back |
| Core.Core.Call | hyper/client/core.py:33-41 | The request carries the URL, the headers, the verb, the query and the body; the response is returned exactly when the status is 200 or 202, and otherwise the validation error is |
| Core.ValidateResponse | hyper/client/core.py:20-31 | No error exactly for 200 and 202; 404 gives "Not found"; any other status gives the body's `error.message`, or a malformed-body error when there is none |
| Core.NotFoundIgnoresBody | hyper/client/core.py:23-25 | A 404 gives the same error whatever the body |
| Core.ServerMessageSurfaced | hyper/client/core.py:27-31 | Any other failing status surfaces the server's message unchanged |
| Core.VerbFor | hyper/client/core.py:46-206 | Create and refund are `post`, retrieve and list are `get`, update is `patch`, delete is `delete`, each in both directions |
| Core.KindFor | hyper/client/core.py:46-206 | Only delete-license and refund read the text of the response; every other helper reads JSON |
| Core.BodyFor | hyper/client/core.py:46-206 | A JSON body goes out exactly with creates and updates |
| Core.QueryFor | hyper/client/core.py:46-206 | Query parameters go out exactly with the licenses, raffles and coupons lists |
| Core.PathJoinsParts | hyper/client/core.py:46-206 | `PathFor`: each helper's concatenated path is the slash-join of its segments (collection name, identifier, `metadata`, `refund`, `waitlist/entries`) |
| Core.PathSegments | hyper/client/core.py:46-206 | When the identifier has no slash, splitting the path `PathFor` builds gives back exactly its segments |
| Core.RequestDetermined | hyper/client/core.py:46-206 | When identifiers hold no slash, the request `RequestFor` issues (verb, path, query, body, result kind) determines which helper was called and with which arguments |
| Core.PathCollision | hyper/client/core.py:58-68 | An identifier holding a slash makes a license update and a metadata update send the same request |
| Client.HardwareIdShape | hyper/client/client.py:415 | For a node below 2^48 the id `HardwareId` builds is 17 characters: six pairs of lowercase hex digits joined by ':' |
| Client.HardwareIdRoundTrip | hyper/client/client.py:415 | The id gives the node back, for every 48-bit node |
| Client.HardwareIdInjective | hyper/client/client.py:415 | Two 48-bit nodes share an id exactly when they are equal |
| Client.WideNodesCollide | hyper/client/client.py:415 | A node of 13 hex digits loses its last digit to the pair split, and shares its id with the node a sixteenth its size |
| Client.HexRoundTrip | hyper/client/client.py:415 | The `%x` digits give the number back |
| Client.LicensesQuery | hyper/client/client.py:114 | The licenses list sends exactly page then limit |
| Client.DefaultLicensesPage | hyper/client/client.py:101-116 | With the defaults it asks for page 1 of 20 |
| Client.ActiveQuery | hyper/client/client.py:270-281 | The raffles and coupons lists send "active" as the string "true" or "false" |
| Client.ActiveRoundTrip | hyper/client/client.py:383-397 | The string flag carries the boolean |
| Client.LicensesFacade | hyper/client/client.py:26-116 | Each license method sends its own helper's request: verb, path (`/licenses`, `/licenses/<key>`, `/licenses/<key>/metadata`), query (page then limit, for the list only), body (the builder's payload or the metadata, unchanged) and result kind (text for delete) |
| Client.ProductsFacade | hyper/client/client.py:120-176 | The product methods forward the builders' payloads unchanged, send no query, and put the product id in the path of retrieve and update |
| Client.ProductsRouted | hyper/client/client.py:120-176 | Each product method sends its own helper's request: verb, path (`/products` or `/products/<id>`), body (the builder's payload) and JSON result |
| Client.LinksFacade | hyper/client/client.py:180-236 | Each link method sends its own helper's request: verb, path (`/links` or `/links/<link>`), no query, body (the builder's payload, unchanged) and JSON result |
| Client.RafflesFacade | hyper/client/client.py:240-281 | Each raffle method sends its own helper's request: verb, path (`/raffles` or `/raffles/<id>`), the active flag as the query of the list only, body (the create payload) and JSON result |
| Client.WaitlistPaymentsFacade | hyper/client/client.py:285-349 | Each waitlist and payment method sends its own helper's request: verb, path (`/waitlist/entries[/<id>]`, `/payments[/<id>]`, `/payments/<id>/refund`), no query, no body, and text for the refund only |
| Client.CouponsFacade | hyper/client/client.py:353-397 | Each coupon method sends its own helper's request: verb, path (`/coupons` or `/coupons/<id>`), the active flag as the query of the list only, body (the create payload) and JSON result |
| Client.Decide | hyper/client/client.py:417-439 | Each outcome in both directions: missing metadata raises; falsy metadata (`Falsy`, Python's `not`) binds; truthy metadata that is not a dict raises; otherwise accept exactly when "hwid" equals this machine's id, and refuse otherwise, a missing "hwid" included |
| Client.BoundLicense | hyper/client/client.py:433-439 | A license bound to one id accepts that id and refuses every other |
| Client.ApplyUpdate | hyper/client/client.py:427 | The server's update keeps every key the payload does not name, gives every key it names the payload's value (keys being unique, as in a dict), and with an empty payload changes nothing |
| Client.FirstBindSendsNothing | hyper/client/client.py:419-427 | The first-bind update as written (`FirstBindPayload`) has an empty body |
| Client.FirstBindNeverBinds | hyper/client/client.py:417-429 | After the first-bind update as written, the license still asks to be bound, so any other machine is let in |
| Client.IntendedBindLocks | hyper/client/client.py:417-439 | With the intended payload, only the first machine is accepted afterwards |
| Client.LicenseStore.Retrieve | hyper/client/client.py:413 | Records the retrieve request; returns the license, or "Not found" for an unknown key; changes no license |
| Client.LicenseStore.Update | hyper/client/client.py:427 | Records the update request; applies the payload to the license, or answers "Not found" and changes nothing |
| Client.Client.Authorize | hyper/client/client.py:401-439 | An unknown key fails after one retrieve and changes nothing. A bind sends exactly one update (the payload as written) and returns true. Otherwise nothing is updated: a match gives true, a mismatch false, and the metadata errors surface |

## Left out

- HTTP transport (`requests.request`) and the parsing of `.json()` and `.text` are I/O. A response is a status and a body `Value`.
- `Core.Call` takes the server's response as a parameter and returns the request it would send.
- `uuid.getnode()` is machine-specific, so the node number is a parameter of `Authorize`.
- `datetime.isoformat()` and `int(datetime.timestamp())` are library formatting. A date is carried as the two results, with no relation between them.
- Float amounts are carried as their printed form. No arithmetic is done on them. Falsiness treats "0.0" and "-0.0" as zero.
- `json.dumps` is modelled only for plain enum strings, where it adds double quotes. `Products.PlainValues` shows that no enum value needs escaping.
- `None` inside lists (link objects, roles) is not representable. Roles, titles and hrefs are typed as strings, so the fact that lists pass through the cleaner untouched is stated by `Helpers.CleanGet` on general values instead.
- Non-mutation of the input is inherent: `ClearPayload` works on a sequence value. The copy's aliasing of nested dicts is not modelled.
- `HyperAPIException` is the error value `Core.HyperApiException(message)`. The `KeyError` or `TypeError` that a failing body without `error.message` would raise is `Core.MalformedErrorBody`.
- In `authorize`, the `KeyError` for a license without "metadata" is `Client.NoMetadataKey`. The `AttributeError` of `.get` on truthy metadata that is not a dict is `Client.MetadataNotDict`.
- The remote API's behaviour is an assumption of the model, not taken from the source:
  - an update overwrites each payload key;
  - an unknown key is answered with a 404;
  - an update right after a successful retrieve of the same key succeeds, so `Authorize` does not model an error there.
- ProductsFacade: its contract states the payloads, the missing query and the path identifier; the verb, path and result kind of each product method are stated by the lemma `Client.ProductsRouted` beside it, which keeps each proof small.
- Core.RequestDetermined: holds only for identifiers without '/'. `Core.PathCollision` shows that the restriction is needed.
- Concurrency: the code has none.

On metadata that has other keys but no "hwid", `authorize` returns `False` and updates nothing. It does not overwrite the metadata (`Client.Decide`).

## Findings

| source | as written | input that shows it | evidently intended | confidence | as-written member | corrected member |
|---|---|---|---|---|---|---|
| hyper/client/client.py:419-427 | The first bind builds `UpdateLicenseParams(metadata={"metadata": {"hwid": id}})`, whose payload drops `metadata` (hyper/licenses.py:40-53), so the update body is `{}`. The hwid never reaches the server, the license stays unbound, and every later machine is bound and let in as well. The id is also nested one level too deep. | A license with metadata `{}`: `authorize` from machine A, then from machine B; both return true | Send `{"metadata": {"hwid": id}}`, so that afterwards only the first machine is accepted | not executed | Client.FirstBindNeverBinds | Client.IntendedBindLocks |
