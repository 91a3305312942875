/** `HomebridgeAPI`: the client's session state and the decisions it takes around each
    request. The transport is not modelled: every request the session sends is
    appended to `sent`, and every reply it receives is supplied by the caller. */
module Api {
  import opened Py
  import opened Json
  import opened Accessory

  const EnvUserName := "HOMEBRIDGE_USERNAME"
  const EnvPassword := "HOMEBRIDGE_PASSWORD"
  const RaspberryPiUrl := "http://raspberrypi1.local:8581"
  const AuthEndpoint := "api/auth/login"
  const AccessoriesEndpoint := "api/accessories"
  const OutletType := "outlet"
  const MissingPrefix := "Missing environment variables: "

  /** One call made on the session: its method, its endpoint (before joining with the
      base URL) and its keyword arguments. */
  datatype Call = Call(verb: string, endpoint: string, kwargs: map<string, Value>)

  /** What the transport hands back: a status code and the decoded body. */
  datatype Reply = Reply(status: int, body: Value)

  /** A session header: literal text, or `Bearer {token}` for the login's token. */
  datatype HeaderValue = Text(text: string) | Bearer(token: Value)

  // ---------------------------------------------------------------- base URL

  /** A base URL the client can hold: it ends in exactly one `/`. */
  predicate NormalBase(url: string) {
    |url| >= 1 && url[|url| - 1] == '/' && (|url| == 1 || url[|url| - 2] != '/')
  }

  /** `base_url.rstrip("/") + "/"`: the given URL with its run of trailing slashes,
      however long, replaced by exactly one. */
  function NormalizeBaseUrl(url: string): (r: string)
    ensures NormalBase(r)
    ensures r[..|r| - 1] <= url
    ensures forall i :: |r| - 1 <= i < |url| ==> url[i] == '/'
  {
    RStrip(url, '/') + "/"
  }

  lemma NormalizeBaseUrlIdempotent(url: string)
    ensures NormalizeBaseUrl(NormalizeBaseUrl(url)) == NormalizeBaseUrl(url)
  {
    var once := NormalizeBaseUrl(url);
    var stem := RStrip(url, '/');
    assert once[..|once| - 1] == stem;
    assert RStrip(stem, '/') == stem;
  }

  // ------------------------------------------------------------- credentials

  /** `not value` is false: the variable is set and not empty. */
  predicate Present(v: Option<string>) {
    v.Some? && v.value != ""
  }

  /** The `missing` list of `__authenticate`: the names of the unset or empty
      variables, the user name before the password, each at most once. */
  function MissingNames(user: Option<string>, password: Option<string>): (missing: seq<string>)
    ensures EnvUserName in missing <==> !Present(user)
    ensures EnvPassword in missing <==> !Present(password)
    ensures forall k :: 0 <= k < |missing| ==> missing[k] == EnvUserName || missing[k] == EnvPassword
    ensures |missing| <= 2
    ensures |missing| == 2 ==> missing[0] == EnvUserName && missing[1] == EnvPassword
  {
    (if !Present(user) then [EnvUserName] else []) + (if !Present(password) then [EnvPassword] else [])
  }

  /** The text of the error raised for missing credentials. */
  function MissingMessage(missing: seq<string>): string {
    MissingPrefix + Join(", ", missing)
  }

  /** The message names the missing variables, comma-separated, in that order. */
  lemma MissingMessageText(user: Option<string>, password: Option<string>)
    requires !Present(user) || !Present(password)
    ensures MissingMessage(MissingNames(user, password)) ==
      MissingPrefix +
      if !Present(user) && !Present(password) then EnvUserName + ", " + EnvPassword
      else if !Present(user) then EnvUserName
      else EnvPassword
  {
    var missing := MissingNames(user, password);
    if !Present(user) && !Present(password) {
      assert missing == [EnvUserName, EnvPassword];
      assert missing[1..] == [EnvPassword];
      assert Join(", ", missing) == EnvUserName + ", " + Join(", ", [EnvPassword]);
    } else if !Present(user) {
      assert missing == [EnvUserName];
    } else {
      assert missing == [EnvPassword];
    }
  }

  /** `response.raise_for_status()` raises for client and server errors. */
  predicate RaisesForStatus(status: int) {
    400 <= status < 600
  }

  /** The login call `__authenticate` makes once both credentials are present. */
  function LoginRequest(user: string, password: string): (c: Call)
    ensures c.verb == "POST" && c.endpoint == AuthEndpoint && c.kwargs.Keys == {"json", "headers"}
    ensures c.kwargs["json"].Object? && c.kwargs["json"].fields.Keys == {"username", "password", "otp"}
    ensures c.kwargs["json"].fields["username"] == Str(user) && c.kwargs["json"].fields["password"] == Str(password)
    ensures c.kwargs["json"].fields["otp"] == Str("string")
    ensures c.kwargs["headers"] == Object(map["accept" := Str("*/*"), "Content-Type" := Str("application/json")])
  {
    Call("POST", AuthEndpoint, map[
      "json" := Object(map["username" := Str(user), "password" := Str(password), "otp" := Str("string")]),
      "headers" := Object(map["accept" := Str("*/*"), "Content-Type" := Str("application/json")])])
  }

  /** What `__authenticate` decides, given the two environment values and the login
      reply: the token to install, or the exception it raises. */
  function AuthDecision(user: Option<string>, password: Option<string>, login: Reply): (r: Result<Value>)
    ensures r.Ok? <==> Present(user) && Present(password) && !RaisesForStatus(login.status) && login.body.Object?
    ensures (r.Err? && r.fault.HomebridgeApiError?) <==> !Present(user) || !Present(password)
    ensures r.Err? && r.fault.HomebridgeApiError? ==> r.fault.message == MissingMessage(MissingNames(user, password))
    ensures (r.Err? && r.fault.HttpError?) ==> r.fault.status == login.status
    ensures Present(user) && Present(password) && RaisesForStatus(login.status) ==> r == Err(HttpError(login.status))
    ensures Present(user) && Present(password) && !RaisesForStatus(login.status) && !login.body.Object? ==> r == Err(AttributeError)
    ensures r.Ok? ==> Defaulted(login.body.fields, "access_token", Null, r.value)
  {
    if !Present(user) || !Present(password) then
      Err(HomebridgeApiError(MissingMessage(MissingNames(user, password))))
    else if RaisesForStatus(login.status) then
      Err(HttpError(login.status))
    else
      match login.body
      case Object(m) => Ok(Get(m, "access_token", Null))
      case _ => Err(AttributeError)
  }

  /** The session headers after `session.headers.update(...)` with the token. */
  function AuthorizedHeaders(headers: map<string, HeaderValue>, token: Value): (h: map<string, HeaderValue>)
    ensures h.Keys == headers.Keys + {"Authorization", "Content-Type", "accept"}
    ensures h["Authorization"] == Bearer(token)
    ensures h["Content-Type"] == Text("application/json") && h["accept"] == Text("*/*")
    ensures forall k :: k in headers && k !in {"Authorization", "Content-Type", "accept"} ==> h[k] == headers[k]
  {
    headers["Authorization" := Bearer(token)]["Content-Type" := Text("application/json")]["accept" := Text("*/*")]
  }

  // ------------------------------------------------------------ request body

  /** The methods for which `request` supplies a missing body. */
  predicate IsMutating(verb: string) {
    Upper(verb) in ["POST", "PUT", "PATCH"]
  }

  /** The keyword arguments `request` passes on. A POST, PUT or PATCH in any case
      without `json` and without `data` gets `json={}`; nothing supplied is dropped or
      replaced, no other key is added, and any other call is passed on as it is. */
  function DefaultBody(verb: string, kwargs: map<string, Value>): (r: map<string, Value>)
    ensures IsMutating(verb) ==> "json" in r || "data" in r
    ensures !IsMutating(verb) || "json" in kwargs || "data" in kwargs ==> r == kwargs
    ensures forall k :: k in kwargs ==> k in r && r[k] == kwargs[k]
    ensures r.Keys <= kwargs.Keys + {"json"}
    ensures "json" in r && "json" !in kwargs ==> r["json"] == Object(map[])
  {
    if IsMutating(verb) && "json" !in kwargs && "data" !in kwargs then kwargs["json" := Object(map[])]
    else kwargs
  }

  lemma DefaultBodyIdempotent(verb: string, kwargs: map<string, Value>)
    ensures DefaultBody(verb, DefaultBody(verb, kwargs)) == DefaultBody(verb, kwargs)
  {
  }

  // ----------------------------------------------------------------- outlets

  /** One pass of the loop in `get_outlets`: `item["humanType"].lower() == "outlet"`
      and, when it holds, `HomebridgeAccessory(item)`. `None` means the item is skipped. */
  function Classify(item: Value): (r: Result<Option<Accessory>>)
    ensures r == Ok(None) <==>
      item.Object? && "humanType" in item.fields && item.fields["humanType"].Str?
      && Lower(item.fields["humanType"].s) != OutletType
    ensures r.Ok? && r.value.Some? <==>
      item.Object? && "humanType" in item.fields && item.fields["humanType"].Str?
      && Lower(item.fields["humanType"].s) == OutletType && FromRecord(item).Ok?
    ensures r.Ok? && r.value.Some? ==> FromRecord(item) == Ok(r.value.value)
    ensures !item.Object? ==> r == Err(TypeError)
    ensures item.Object? && "humanType" !in item.fields ==> r == Err(KeyError("humanType"))
    ensures item.Object? && "humanType" in item.fields && !item.fields["humanType"].Str? ==> r == Err(AttributeError)
    ensures r.Err? && (r.fault.TypeError? || r.fault.KeyError?) ==> !item.Object? || "humanType" !in item.fields
  {
    match item
    case Object(m) =>
      if "humanType" !in m then Err(KeyError("humanType"))
      else (match m["humanType"]
        case Str(t) =>
          if Lower(t) != OutletType then Ok(None)
          else (match FromRecord(item)
            case Ok(a) => Ok(Some(a))
            case Err(e) => Err(e))
        case _ => Err(AttributeError))
    case _ => Err(TypeError)
  }

  /** The outlets of a list of records, in order; the first record that raises
      decides the exception. */
  function OutletsOf(records: seq<Value>): (r: Result<seq<Accessory>>)
    ensures r.Ok? ==> |r.value| <= |records|
    ensures r.Ok? ==> forall k :: 0 <= k < |r.value| ==> Consistent(r.value[k])
    decreases |records|
  {
    if records == [] then Ok([])
    else
      match OutletsOf(records[..|records| - 1])
      case Err(e) => Err(e)
      case Ok(xs) =>
        match Classify(records[|records| - 1])
        case Err(e) => Err(e)
        case Ok(None) => Ok(xs)
        case Ok(Some(a)) => Ok(xs + [a])
  }

  /** `get_outlets` on the cached body. Iterating a dict or a string yields strings,
      which cannot be subscripted by `"humanType"`; other scalars cannot be iterated. */
  function Outlets(cache: Value): (r: Result<seq<Accessory>>)
    ensures !cache.Array? ==> (r == Ok([]) <==> cache == Object(map[]) || cache == Str(""))
    ensures !cache.Array? && r.Err? ==> r.fault == TypeError
    ensures !cache.Array? ==> r == Ok([]) || r.Err?
    ensures r.Ok? ==> forall k :: 0 <= k < |r.value| ==> Consistent(r.value[k])
  {
    match cache
    case Array(records) => OutletsOf(records)
    case Object(m) => if m == map[] then Ok([]) else Err(TypeError)
    case Str(s) => if s == "" then Ok([]) else Err(TypeError)
    case _ => Err(TypeError)
  }

  /** The outlets of two lists run one after the other. */
  function Then(first: Result<seq<Accessory>>, second: Result<seq<Accessory>>): Result<seq<Accessory>> {
    match first
    case Err(e) => Err(e)
    case Ok(xs) =>
      match second
      case Err(e) => Err(e)
      case Ok(ys) => Ok(xs + ys)
  }

  /** Filtering distributes over concatenation: source order is kept, and an error in
      the first part wins over one in the second. */
  lemma {:induction false} OutletsOfAppend(a: seq<Value>, b: seq<Value>)
    ensures OutletsOf(a + b) == Then(OutletsOf(a), OutletsOf(b))
    decreases |b|
  {
    if b == [] {
      assert a + b == a;
      match OutletsOf(a) {
        case Err(e) =>
        case Ok(xs) => assert xs + [] == xs;
      }
    } else {
      var init := b[..|b| - 1];
      assert (a + b)[..|a + b| - 1] == a + init;
      assert (a + b)[|a + b| - 1] == b[|b| - 1];
      OutletsOfAppend(a, init);
      match OutletsOf(a) {
        case Err(e) =>
        case Ok(xs) =>
          match OutletsOf(init) {
            case Err(e) =>
            case Ok(ys) =>
              match Classify(b[|b| - 1]) {
                case Err(e) =>
                case Ok(None) =>
                case Ok(Some(x)) => assert xs + (ys + [x]) == (xs + ys) + [x];
              }
          }
      }
    }
  }

  /** Filtering succeeds exactly when no record raises. */
  lemma {:induction false} OutletsOfOk(records: seq<Value>)
    ensures OutletsOf(records).Ok? <==> forall i :: 0 <= i < |records| ==> Classify(records[i]).Ok?
    decreases |records|
  {
    if records != [] {
      var init := records[..|records| - 1];
      OutletsOfOk(init);
      assert forall i :: 0 <= i < |init| ==> init[i] == records[i];
    }
  }

  /** An accessory is listed exactly when some record is an outlet that yields it. */
  lemma {:induction false} OutletsOfMembers(records: seq<Value>, a: Accessory)
    requires OutletsOf(records).Ok?
    ensures a in OutletsOf(records).value <==>
      exists i :: 0 <= i < |records| && Classify(records[i]) == Ok(Some(a))
    decreases |records|
  {
    if records != [] {
      var init := records[..|records| - 1];
      OutletsOfMembers(init, a);
      assert forall i :: 0 <= i < |init| ==> init[i] == records[i];
      if exists i :: 0 <= i < |records| && Classify(records[i]) == Ok(Some(a)) {
        var i :| 0 <= i < |records| && Classify(records[i]) == Ok(Some(a));
        if i < |init| {
          assert Classify(init[i]) == Ok(Some(a));
        }
      }
    }
  }

  /** Case-insensitive matching in order: of an "Outlet", an "outlet" and a
      "Lightbulb" record, the first two are listed, the first before the second. */
  lemma OutletsExample()
    ensures var records := [
        Object(map["humanType" := Str("Outlet"), "serviceName" := Str("Desk")]),
        Object(map["humanType" := Str("outlet"), "values" := Object(map["On" := Bool(true)])]),
        Object(map["humanType" := Str("Lightbulb")])];
      var r := OutletsOf(records);
      && r.Ok? && |r.value| == 2
      && r.value[0].name == Str("Desk") && !r.value[0].isOn
      && r.value[1].name == Str(UnknownDevice) && r.value[1].isOn
  {
    var desk := Object(map["humanType" := Str("Outlet"), "serviceName" := Str("Desk")]);
    var plug := Object(map["humanType" := Str("outlet"), "values" := Object(map["On" := Bool(true)])]);
    var bulb := Object(map["humanType" := Str("Lightbulb")]);
    assert Lower("Outlet") == OutletType;
    assert Lower("outlet") == OutletType;
    assert Lower("Lightbulb") != OutletType by {
      assert Lower("Lightbulb")[0] == 'l';
    }
    var records := [desk, plug, bulb];
    assert records[..2][..1] == [desk];
    assert records[..2] == [desk, plug];
    assert records[..1] == [desk];
    assert [desk][..0] == [];
    assert FromRecord(desk).Ok? && FromRecord(plug).Ok?;
    var a0, a1 := FromRecord(desk).value, FromRecord(plug).value;
    assert Classify(desk) == Ok(Some(a0));
    assert Classify(plug) == Ok(Some(a1));
    assert Classify(bulb) == Ok(None);
    assert OutletsOf([]) == Ok([]);
    assert [] + [a0] == [a0];
    assert [a0] + [a1] == [a0, a1];
    assert OutletsOf([desk]) == Ok([a0]);
    assert OutletsOf([desk, plug]) == Ok([a0, a1]);
  }

  // ------------------------------------------------------------------ client

  class HomebridgeApi {
    var baseUrl: string
    var available: bool
    var headers: map<string, HeaderValue>
    /** The parsed body of the `GET api/accessories` made at construction. */
    var accessories: Value
    /** The calls made on the session so far, oldest first. */
    var sent: seq<Call>

    /** The base URL is normalised, and the client is available exactly when a bearer
        token has been installed. */
    ghost predicate Valid()
      reads this
    {
      NormalBase(baseUrl) && (available <==> "Authorization" in headers)
    }

    /** The first part of `__init__`: the base URL, a fresh session, not available. */
    constructor (baseUrl: string)
      ensures Valid()
      ensures this.baseUrl == NormalizeBaseUrl(baseUrl)
      ensures !available && headers == map[] && sent == [] && accessories == Null
    {
      this.baseUrl := NormalizeBaseUrl(baseUrl);
      available := false;
      headers := map[];
      accessories := Null;
      sent := [];
    }

    /** `__authenticate`. With a credential missing it raises before any request and
        changes nothing. Otherwise it posts the login; on a rejected or unusable reply
        it raises with the headers and the flag unchanged, and on success it installs
        the token and marks the client available. */
    method Authenticate(user: Option<string>, password: Option<string>, login: Reply) returns (outcome: Outcome)
      requires Valid()
      modifies this`available, this`headers, this`sent
      ensures Valid()
      ensures outcome.Pass? <==> AuthDecision(user, password, login).Ok?
      ensures outcome.Fail? ==> outcome.fault == AuthDecision(user, password, login).fault
      ensures outcome.Fail? ==> available == old(available) && headers == old(headers)
      ensures outcome.Pass? ==> available && headers == AuthorizedHeaders(old(headers), AuthDecision(user, password, login).value)
      ensures sent == if Present(user) && Present(password) then old(sent) + [LoginRequest(user.value, password.value)] else old(sent)
    {
      if !Present(user) || !Present(password) {
        var missing := MissingNames(user, password);
        return Fail(HomebridgeApiError(MissingMessage(missing)));
      }
      sent := sent + [LoginRequest(user.value, password.value)];
      if RaisesForStatus(login.status) {
        return Fail(HttpError(login.status));
      }
      match login.body {
        case Object(m) =>
          var token := Get(m, "access_token", Null);
          headers := AuthorizedHeaders(headers, token);
          available := true;
          outcome := Pass;
        case _ =>
          outcome := Fail(AttributeError);
      }
    }

    /** `request`: sends the call with its body defaulted and returns the reply as it
        came, whatever its status; it neither retries nor re-authenticates. */
    method Request(verb: string, endpoint: string, kwargs: map<string, Value>, reply: Reply) returns (response: Reply)
      modifies this`sent
      ensures sent == old(sent) + [Call(verb, endpoint, DefaultBody(verb, kwargs))]
      ensures response == reply
    {
      var args := kwargs;
      if IsMutating(verb) {
        if "json" !in args && "data" !in args {
          args := args["json" := Object(map[])];
        }
      }
      sent := sent + [Call(verb, endpoint, args)];
      response := reply;
    }

    /** `get_outlets`: the outlets of the cached body, in order, without any request. */
    method GetOutlets() returns (r: Result<seq<Accessory>>)
      ensures r == Outlets(accessories)
    {
      match accessories {
        case Array(records) =>
          var items: seq<Accessory> := [];
          var i := 0;
          while i < |records|
            invariant 0 <= i <= |records|
            invariant OutletsOf(records[..i]) == Ok(items)
          {
            assert records[..i + 1][..i] == records[..i];
            var step := Classify(records[i]);
            match step {
              case Err(e) =>
                assert OutletsOf(records[..i + 1]) == Err(e);
                OutletsOfAppend(records[..i + 1], records[i + 1..]);
                assert records[..i + 1] + records[i + 1..] == records;
                return Err(e);
              case Ok(None) =>
              case Ok(Some(a)) =>
                items := items + [a];
            }
            i := i + 1;
          }
          assert records[..i] == records;
          r := Ok(items);
        case Object(m) =>
          r := if m == map[] then Ok([]) else Err(TypeError);
        case Str(s) =>
          r := if s == "" then Ok([]) else Err(TypeError);
        case _ =>
          r := Err(TypeError);
      }
    }

    /** `toggle_outlet`: a PUT of the payload to the accessory; true exactly on a 200. */
    method ToggleOutlet(uniqueId: string, payload: Value, reply: Reply) returns (ok: bool)
      modifies this`sent
      ensures ok <==> reply.status == 200
      ensures sent == old(sent) + [Call("PUT", "/api/accessories/" + uniqueId, map["json" := payload])]
    {
      var response := Request("PUT", "/api/accessories/" + uniqueId, map["json" := payload], reply);
      ok := response.status == 200;
    }

    /** `is_available`: the flag, which mirrors whether a token is installed. */
    method IsAvailable() returns (r: bool)
      requires Valid()
      ensures r == available
      ensures r <==> "Authorization" in headers
    {
      r := available;
    }
  }

  /** `HomebridgeAPI(base_url)`: normalise the URL, authenticate, then cache the body
      of `GET api/accessories`. The construction raises exactly when authentication
      does; the listing's status is not looked at. */
  method Connect(baseUrl: string, user: Option<string>, password: Option<string>, login: Reply, listing: Reply)
    returns (r: Result<HomebridgeApi>)
    ensures r.Err? <==> AuthDecision(user, password, login).Err?
    ensures r.Err? ==> r.fault == AuthDecision(user, password, login).fault
    ensures r.Ok? ==>
      && fresh(r.value)
      && r.value.Valid()
      && r.value.available
      && r.value.baseUrl == NormalizeBaseUrl(baseUrl)
      && r.value.headers == AuthorizedHeaders(map[], AuthDecision(user, password, login).value)
      && r.value.accessories == listing.body
      && r.value.sent == [LoginRequest(user.value, password.value), Call("GET", AccessoriesEndpoint, map[])]
  {
    var client := new HomebridgeApi(baseUrl);
    var outcome := client.Authenticate(user, password, login);
    if outcome.Fail? {
      return Err(outcome.fault);
    }
    assert Upper("GET") == "GET";
    var response := client.Request("GET", AccessoriesEndpoint, map[], listing);
    client.accessories := response.body;
    r := Ok(client);
  }

  /** `HomebridgeAPI()`: construction with the default bridge address. */
  method ConnectDefault(user: Option<string>, password: Option<string>, login: Reply, listing: Reply)
    returns (r: Result<HomebridgeApi>)
    ensures r.Err? <==> AuthDecision(user, password, login).Err?
    ensures r.Err? ==> r.fault == AuthDecision(user, password, login).fault
    ensures r.Ok? ==> fresh(r.value) && r.value.Valid() && r.value.available
    ensures r.Ok? ==> r.value.baseUrl == RaspberryPiUrl + "/" && r.value.accessories == listing.body
    ensures r.Ok? ==> r.value.headers == AuthorizedHeaders(map[], AuthDecision(user, password, login).value)
    ensures r.Ok? ==> r.value.sent == [LoginRequest(user.value, password.value), Call("GET", AccessoriesEndpoint, map[])]
  {
    assert RaspberryPiUrl[|RaspberryPiUrl| - 1] == '1';
    assert RStrip(RaspberryPiUrl, '/') == RaspberryPiUrl;
    r := Connect(RaspberryPiUrl, user, password, login, listing);
  }
}
