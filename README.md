# Homebridge client: a verified model of its decision logic

The `wand_reader` package talks to a Homebridge bridge over its REST API. The client
logs in with two credentials taken from the environment, caches the accessory list,
lists the power outlets in that list, and toggles an outlet. This project models the
logic in `wand_reader/homebridge.py` that sits between the HTTP calls:

- how an accessory record becomes a `HomebridgeAccessory`: the defaults, the `is_on`
  flag derived through Python truthiness, and the toggle payload;
- which cached records `get_outlets` keeps, and in what order;
- which credentials `__authenticate` reports as missing, and when it fails;
- the normalised base URL;
- the `available` flag, which is set only once a login succeeds;
- the body `request` adds to POST, PUT and PATCH calls;
- the boolean `toggle_outlet` makes of a status code.

The model has four modules:

- `Py` (`py.dfy`) holds the Python built-ins the client relies on. These are its
  exception kinds, ASCII `lower`/`upper`, `rstrip` and `join`.
- `Json` (`json.dfy`) holds the decoded JSON values, with `Null` for Python's
  `None`. It also holds `bool(v)` and `dict.get` with a default.
- `Accessory` (`accessory.dfy`) models `HomebridgeAccessory`. The source object is
  built once and never changed, so it is a datatype here.
- `Api` (`api.dfy`) models `HomebridgeAPI`. It is a class whose fields are the base
  URL, the `available` flag, the session headers, the cached accessory body and the
  log `sent` of calls made on the session.

Nothing reaches the network. Instead:

- every reply (the login reply, the accessory listing, a toggle reply) is a
  parameter of the method that receives it;
- every call the session would send is appended to `sent`;
- the two environment variables are parameters (`Option<string>`, where `None` means
  the variable is unset).

Python's exceptions become the `Err`/`Fail` cases of `Result` and `Outcome`, and
`Connect` stands for the whole constructor `HomebridgeAPI(base_url)`.

`is_on` is fixed when the accessory is built, so every `get_toggle_payload` call on
one accessory returns the same payload (`TogglePayload` is a function of that value).
The requested value alternates only across a refresh (`RefreshAfterToggle`).

## Model

| member | source | states |
|---|---|---|
| `Accessory.FromRecord` | wand_reader/homebridge.py:37-55 | Building an accessory fails, with an AttributeError, exactly when the record is not a dict, or when its `accessoryInformation` or `values` is present but not a dict. Otherwise each present field is copied unchanged. Each absent one gets its default: `Unknown Device`, `{}`, `Unknown`, or None for `uniqueId`/`aid`/`iid`/`Model`. `is_on` is true exactly when `values` has an `On` that is truthy, so it is false when `On` is absent or None. |
| `Accessory.ToRecord` | wand_reader/homebridge.py:44-52 | Every consistent accessory comes from some record: a record with just the six keys the constructor reads yields that accessory again (round trip). |
| `Accessory.FromRecordIgnoresOtherKeys` | wand_reader/homebridge.py:42-52 | Adding or changing a key other than the six the constructor reads leaves the resulting view (or the error) unchanged. |
| `Accessory.TogglePayload` | wand_reader/homebridge.py:57-60 | The payload has exactly the keys `characteristicType` and `value`: `characteristicType` is `"On"` and `value` is the negation of `is_on`. It is a function of the accessory, so it changes nothing and is the same on every call. |
| `Accessory.RefreshAfterToggle` | wand_reader/homebridge.py:54-60 | Suppose the bridge stores the requested value and the record is built again. The new view has `is_on` flipped and is otherwise unchanged. Its payload asks for the original state. |
| `Py.RStrip` | wand_reader/homebridge.py:65 | `rstrip("/")` returns a prefix of its input that does not end in `/`. Everything it removed was `/`. |
| `Api.NormalizeBaseUrl` | wand_reader/homebridge.py:65 | The stored base URL ends in `/` with no `/` right before it. It is the input with its whole run of trailing slashes (possibly none) replaced by one `/`. |
| `Api.NormalizeBaseUrlIdempotent` | wand_reader/homebridge.py:65 | Normalising an already normalised base URL gives the same string. |
| `Api.MissingNames` | wand_reader/homebridge.py:84-89 | The missing list contains `HOMEBRIDGE_USERNAME` exactly when the user name is unset or empty. It contains `HOMEBRIDGE_PASSWORD` exactly when the password is. Nothing else appears, no name appears twice, and the user name comes first. |
| `Api.MissingMessageText` | wand_reader/homebridge.py:91-93 | The error text is `Missing environment variables: ` followed by the missing names, joined by `, `, in that order. |
| `Api.AuthDecision` | wand_reader/homebridge.py:84-102 | Authentication succeeds exactly when both credentials are present, the login status is not 4xx/5xx, and the reply body is a dict. The client's own error is raised exactly when a credential is missing, and its message lists the missing names. With both credentials present, a 4xx/5xx login raises an HTTP error carrying that status, and any other status with a body that is not a dict raises an AttributeError. The token is the body's `access_token`, or None if it has none. |
| `Api.LoginRequest` | wand_reader/homebridge.py:96-100 | The login is a POST to `api/auth/login` with exactly two keyword arguments. `json` holds exactly `username`, `password` and `otp` = `"string"`. `headers` holds `accept: */*` and `Content-Type: application/json`. |
| `Api.AuthorizedHeaders` | wand_reader/homebridge.py:105-111 | The header update adds or overwrites exactly `Authorization` (the bearer token), `Content-Type` (`application/json`) and `accept` (`*/*`), and leaves every other session header as it was. |
| `Api.DefaultBody` | wand_reader/homebridge.py:118-120 | After defaulting, every POST/PUT/PATCH (in any letter case) carries `json` or `data`. Missing both, it gets `json={}`. No supplied argument is changed or dropped, and no key other than `json` is added. Other methods, and calls that already have a body, pass through unchanged. |
| `Api.DefaultBodyIdempotent` | wand_reader/homebridge.py:118-120 | Defaulting a body twice is the same as defaulting it once. |
| `Api.Classify` | wand_reader/homebridge.py:150-154 | A record is skipped exactly when it is a dict whose string `humanType`, lowercased, is not `outlet`. It is kept exactly when that lowercased `humanType` is `outlet` and the accessory can be built, and it is kept as that accessory. Every other record raises: a non-dict with TypeError, a dict without `humanType` with KeyError, a non-string `humanType` with AttributeError, and an outlet record the constructor rejects with that constructor's AttributeError. |
| `Api.OutletsOf` | wand_reader/homebridge.py:149-155 | A successful listing has no more accessories than there are records, and every listed accessory is a consistent view (its manufacturer, model and `is_on` agree with its info and values). |
| `Api.Outlets` | wand_reader/homebridge.py:150-151 | For a cached body that is not a list, the listing is empty exactly when it is an empty dict or an empty string. Otherwise it raises a TypeError: iterating a non-empty dict or string yields strings, which cannot be subscripted by `"humanType"`, and other scalars cannot be iterated. Every listed accessory is consistent. |
| `Api.OutletsOfAppend` | wand_reader/homebridge.py:145-155 | Listing outlets distributes over concatenation of the cached records, so source order is preserved and the first failing record decides the error. |
| `Api.OutletsOfOk` | wand_reader/homebridge.py:145-155 | Listing outlets succeeds exactly when no cached record raises. |
| `Api.OutletsOfMembers` | wand_reader/homebridge.py:145-155 | An accessory is in the result exactly when some cached record is an outlet that yields it. |
| `Api.OutletsExample` | wand_reader/homebridge.py:150-155 | Of records typed `Outlet`, `outlet` and `Lightbulb`, the first two are listed, in that order, with their defaults and `is_on` values. |
| `Api.HomebridgeApi.constructor` | wand_reader/homebridge.py:64-67 | A new client holds the normalised base URL, is not available, has no token and has sent nothing. |
| `Api.HomebridgeApi.Authenticate` | wand_reader/homebridge.py:75-112 | If a credential is missing, it fails before sending anything. Otherwise it sends exactly the login POST. On any failure `available` and the headers are unchanged. On success it installs `Bearer <token>` with the JSON headers and sets `available`. `available` stays true exactly when a token is installed. |
| `Api.HomebridgeApi.Request` | wand_reader/homebridge.py:114-130 | It sends one call with the defaulted body and returns the reply unchanged whatever its status. It changes nothing else: there is no retry, no re-authentication, and no change to `available`. |
| `Api.HomebridgeApi.GetOutlets` | wand_reader/homebridge.py:145-155 | The result is the outlets of the cached body. It performs no request and changes no field. |
| `Api.HomebridgeApi.ToggleOutlet` | wand_reader/homebridge.py:157-167 | It sends exactly one PUT of the payload to `/api/accessories/<id>`. It returns true exactly when the status is 200, and false for every other status without failing. |
| `Api.HomebridgeApi.IsAvailable` | wand_reader/homebridge.py:169-173 | It returns the flag without side effects. The flag is true exactly when a bearer token is installed. |
| `Api.Connect` | wand_reader/homebridge.py:64-73 | Construction fails exactly when authentication does, and with the same error. A constructed client is available, holds the token headers and the listing's body as its cache, and has sent exactly the login and the accessory GET. The listing's status is not checked. |
| `Api.ConnectDefault` | wand_reader/homebridge.py:64 | Construction without a base URL uses `http://raspberrypi1.local:8581`, stored as that address plus one `/`. It fails exactly when authentication does, with the same error. A constructed client holds the token headers and the listing's body, and has sent exactly the login and the accessory GET. |

## Left out

- The `requests` transport and JSON decoding are external. Every call receives a reply, given as a parameter with its status and decoded body, so `Request`, `ToggleOutlet` and `Connect` never fail in the transport: connection errors, timeouts and bodies that are not valid JSON are not modelled. The 400-599 rule of `raise_for_status` is modelled by `RaisesForStatus`.
- `urljoin` is library behaviour. Calls record the endpoint before joining, so the effect of the leading `/` in `toggle_outlet`'s path is not modelled.
- The environment reads are replaced by the two parameters of `Authenticate` and `Connect`.
- All logging is left out, because it only reports diagnostics.
- `refresh_accessories` and `get_plugin_List` are not modelled as methods. Each is a single call to `request`, whose behaviour is modelled. The fetch that construction performs is inside `Connect`.
- The re-authentication retry mentioned in the comment inside `request` is not implemented by the source, and the model does not add it.
- `Py.Lower` and `Py.Upper` map ASCII letters only. Python's full Unicode case mapping is not modelled. One consequence: a method name spelled with a ligature such as U+FB06 (which Python upper-cases to `ST`) is not treated as POST.
- JSON floating-point numbers are not modelled. `Json.Value` has integers only, so `bool(0.0)` has no counterpart.
- The `Authorization` header keeps the token as a value (`HeaderValue.Bearer`). The text `Bearer {token}` is not built, because the model does not render Python's `str()` of a non-string token.
- Session headers that `requests` adds by default are not part of `headers`, which holds only the ones the client sets. `requests` also compares header names case-insensitively (setting `accept` replaces a stored `Accept`). The model's `headers` map is case-sensitive, which makes no difference here because it only ever holds the client's three names.
- `wand_reader/test_homebridge.py` runs against a live bridge and has no logic of its own.
