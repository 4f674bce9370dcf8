// The frontend's HTTP helper (Frontend/src/services/api.js): an `ApiService`
// object holding a base URL and an optional bearer token, a `request` method
// that builds the URL, the header map and the error text around one fetch,
// the five verb helpers, and the endpoint path builders.

module ApiClient {
  import opened Common

  datatype HttpMethod = GET | POST | PUT | DELETE | PATCH

  /** A JavaScript value handed to post/put/patch as `data`. `Obj(json)` is an
      object or array together with the text `JSON.stringify` writes for it. */
  datatype JsValue = Undefined | Null | Bool(b: bool) | Num(n: int) | Str(s: string) | Obj(json: string)

  predicate JsTruthy(v: JsValue) {
    match v
    case Undefined => false
    case Null => false
    case Bool(b) => b
    case Num(n) => n != 0
    case Str(s) => s != ""
    case Obj(_) => true
  }

  /** A lower-case hexadecimal digit, as `\u` escapes are written. */
  function HexDigit(n: nat): (c: char)
    requires n < 16
    ensures IsHex(c) && HexValue(c) == n
  {
    if n < 10 then ('0' as int + n) as char else ('a' as int + n - 10) as char
  }

  predicate IsHex(c: char) {
    '0' <= c <= '9' || 'a' <= c <= 'f' || 'A' <= c <= 'F'
  }

  function HexValue(c: char): (n: nat)
    requires IsHex(c)
    ensures n < 16
  {
    if '0' <= c <= '9' then c as int - '0' as int
    else if 'a' <= c <= 'f' then c as int - 'a' as int + 10
    else c as int - 'A' as int + 10
  }

  /** How `JSON.stringify` writes one character inside a string literal:
      the quote, the backslash and the control characters are escaped, the
      five common controls by letter and the others as `\u00xx`. */
  function EscapeChar(c: char): (e: string)
    ensures e == [c] <==> c != '"' && c != '\\' && c as int >= 0x20
    ensures e != [c] ==> |e| >= 2 && e[0] == '\\'
  {
    if c == '"' then ['\\', '"']
    else if c == '\\' then ['\\', '\\']
    else if c as int == 8 then ['\\', 'b']
    else if c == '\t' then ['\\', 't']
    else if c == '\n' then ['\\', 'n']
    else if c as int == 12 then ['\\', 'f']
    else if c == '\r' then ['\\', 'r']
    else if c as int < 0x20 then ['\\', 'u', '0', '0', HexDigit(c as int / 16), HexDigit(c as int % 16)]
    else [c]
  }

  /** The characters between the quotes of the literal `JSON.stringify` writes for `s`. */
  function Escaped(s: string): string
    decreases |s|
  {
    if s == [] then [] else EscapeChar(s[0]) + Escaped(s[1..])
  }

  /** The character a one-letter escape stands for in JSON. */
  function ShortEscape(c: char): Option<char> {
    if c == '"' then Some('"')
    else if c == '\\' then Some('\\')
    else if c == '/' then Some('/')
    else if c == 'b' then Some(8 as char)
    else if c == 'f' then Some(12 as char)
    else if c == 'n' then Some('\n')
    else if c == 'r' then Some('\r')
    else if c == 't' then Some('\t')
    else None
  }

  function Cons(c: char, r: Option<string>): Option<string> {
    if r.Some? then Some([c] + r.value) else None
  }

  /** How a JSON reader decodes the text between the quotes of a string
      literal; `None` when the text is not a valid literal body. */
  function Unescaped(t: string): Option<string>
    decreases |t|
  {
    if t == [] then Some([])
    else if t[0] == '"' || t[0] as int < 0x20 then None
    else if t[0] != '\\' then Cons(t[0], Unescaped(t[1..]))
    else if |t| < 2 then None
    else if t[1] == 'u' then
      if |t| >= 6 && IsHex(t[2]) && IsHex(t[3]) && IsHex(t[4]) && IsHex(t[5]) then
        var v := HexValue(t[2]) * 4096 + HexValue(t[3]) * 256 + HexValue(t[4]) * 16 + HexValue(t[5]);
        if 0xD800 <= v < 0xE000 then None else Cons(v as char, Unescaped(t[6..]))
      else None
    else if ShortEscape(t[1]).Some? then Cons(ShortEscape(t[1]).value, Unescaped(t[2..]))
    else None
  }

  /** Decoding one escaped character gives the character back. */
  lemma EscapeCharRoundTrip(c: char, rest: string)
    ensures Unescaped(EscapeChar(c) + rest) == Cons(c, Unescaped(rest))
  {
    var t := EscapeChar(c) + rest;
    if |EscapeChar(c)| == 1 {
      assert t[1..] == rest;
    } else if |EscapeChar(c)| == 2 {
      assert t[2..] == rest;
    } else {
      assert t[6..] == rest;
      assert t[2] == '0' && t[3] == '0' && t[4] == HexDigit(c as int / 16) && t[5] == HexDigit(c as int % 16);
    }
  }

  /** A JSON reader recovers every string from the text `JSON.stringify` writes. */
  lemma {:induction false} EscapedRoundTrip(s: string)
    ensures Unescaped(Escaped(s)) == Some(s)
    decreases |s|
  {
    if s != [] {
      EscapeCharRoundTrip(s[0], Escaped(s[1..]));
      EscapedRoundTrip(s[1..]);
      assert [s[0]] + s[1..] == s;
    }
  }

  /** `JSON.stringify(v)`; `undefined` has no JSON text. */
  function Stringify(v: JsValue): (r: Option<string>)
    ensures r.None? <==> v.Undefined?
    ensures v.Str? ==> |r.value| >= 2 && r.value[0] == '"' && r.value[|r.value| - 1] == '"'
                       && Unescaped(r.value[1..|r.value| - 1]) == Some(v.s)
    ensures v.Num? ==> r == Some(IntText(v.n))
    ensures v.Obj? ==> r == Some(v.json)
  {
    match v
    case Undefined => None
    case Null => Some("null")
    case Bool(b) => Some(if b then "true" else "false")
    case Num(n) => Some(IntText(n))
    case Str(s) =>
      var q := "\"" + Escaped(s) + "\"";
      assert q[1..|q| - 1] == Escaped(s);
      EscapedRoundTrip(s);
      Some(q)
    case Obj(json) => Some(json)
  }

  /** `data ? JSON.stringify(data) : undefined`. */
  function RequestBody(data: JsValue): (body: Option<string>)
    ensures body.Some? <==> JsTruthy(data)
    ensures body.Some? ==> body == Stringify(data)
  {
    if JsTruthy(data) then Stringify(data) else None
  }

  /** The `options` object a caller passes to `request`. */
  datatype RequestOptions = RequestOptions(verb: Option<HttpMethod>, headers: map<string, string>, body: Option<string>)

  /** The init object handed to `fetch`: the options with the headers replaced. */
  datatype FetchConfig = FetchConfig(verb: Option<HttpMethod>, headers: map<string, string>, body: Option<string>)

  /** A parsed JSON response body: its `message` field, and the whole value as text. */
  datatype Json = Json(message: Option<string>, text: string)

  /** What `response.json()` gives: the parsed value, or a SyntaxError with its text. */
  datatype BodyParse = Parsed(value: Json) | NotJson(error: string)

  /** What a rejected `fetch` rejects with: an Error object, or some other value. */
  datatype Thrown = ErrorObject(message: string) | NonError

  /** Everything about the one fetch that `request` awaits. */
  datatype FetchOutcome = Responded(ok: bool, status: nat, body: BodyParse) | Rejected(reason: Thrown)

  /** How the promise `request` returns settles: with the data, or by
      throwing an Error with this message. */
  datatype RequestResult = Resolved(data: Json) | Threw(message: string)

  const NetworkErrorOccurred: string := "Network error occurred"

  /** The header object `request` builds: the JSON content type, the
      caller's headers spread over it, then the bearer token over both. */
  function FetchHeaders(token: Option<string>, extra: map<string, string>): (h: map<string, string>)
    ensures h.Keys == extra.Keys + {"Content-Type"} + (if Truthy(token) then {"Authorization"} else {})
    ensures h["Content-Type"] == if "Content-Type" in extra then extra["Content-Type"] else "application/json"
    ensures Truthy(token) ==> h["Authorization"] == "Bearer " + token.value
    ensures forall k :: k in extra && !(k == "Authorization" && Truthy(token)) ==> h[k] == extra[k]
  {
    var h := map["Content-Type" := "application/json"] + extra;
    if Truthy(token) then h["Authorization" := "Bearer " + token.value] else h
  }

  /** How the promise of `request` settles after the fetch it awaits. */
  function Settled(outcome: FetchOutcome): (result: RequestResult)
    ensures result.Resolved? <==> outcome.Responded? && outcome.ok && outcome.body.Parsed?
    ensures result.Resolved? ==> result.data == outcome.body.value
    ensures outcome.Responded? && !outcome.ok ==>
              result == Threw(if outcome.body.Parsed? && Truthy(outcome.body.value.message)
                              then outcome.body.value.message.value
                              else "HTTP " + Decimal(outcome.status))
    ensures outcome.Responded? && outcome.ok && outcome.body.NotJson? ==> result == Threw(outcome.body.error)
    ensures outcome == Rejected(NonError) ==> result == Threw(NetworkErrorOccurred)
    ensures outcome.Rejected? && outcome.reason.ErrorObject? ==> result == Threw(outcome.reason.message)
  {
    match outcome
    case Rejected(reason) => if reason.ErrorObject? then Threw(reason.message) else Threw(NetworkErrorOccurred)
    case Responded(ok, status, body) =>
      if !ok then
        var errorMessage: Option<string> := if body.Parsed? then body.value.message else None;
        Threw(if Truthy(errorMessage) then errorMessage.value else "HTTP " + Decimal(status))
      else if body.NotJson? then Threw(body.error)
      else Resolved(body.value)
  }

  class ApiService {
    var baseUrl: string
    var authToken: Option<string>

    /** `new ApiService(baseUrl)`; an undefined argument takes the default "/api". */
    constructor (baseUrl0: Option<string>)
      ensures baseUrl == (if baseUrl0.Some? then baseUrl0.value else "/api")
      ensures authToken.None?
    {
      baseUrl := if baseUrl0.Some? then baseUrl0.value else "/api";
      authToken := None;
    }

    method SetAuthToken(token: Option<string>)
      modifies this`authToken
      ensures authToken == token
    {
      authToken := token;
    }

    method ClearAuthToken()
      modifies this`authToken
      ensures authToken.None?
    {
      authToken := None;
    }

    /** `request(endpoint, options)`: what is handed to fetch, and how the
        returned promise settles for a given fetch outcome. */
    method Request(endpoint: string, options: RequestOptions, outcome: FetchOutcome)
      returns (url: string, config: FetchConfig, result: RequestResult)
      ensures url == baseUrl + endpoint
      ensures config == FetchConfig(options.verb, FetchHeaders(authToken, options.headers), options.body)
      ensures result == Settled(outcome)
    {
      url := baseUrl + endpoint;
      var headers := map["Content-Type" := "application/json"] + options.headers;
      if Truthy(authToken) {
        headers := headers["Authorization" := "Bearer " + authToken.value];
      }
      config := FetchConfig(options.verb, headers, options.body);

      match outcome
      case Rejected(reason) =>
        result := if reason.ErrorObject? then Threw(reason.message) else Threw(NetworkErrorOccurred);
      case Responded(ok, status, body) =>
        if !ok {
          // `response.json().catch(() => ({}))`: an unreadable body reads as {}
          var errorMessage: Option<string> := if body.Parsed? then body.value.message else None;
          result := Threw(if Truthy(errorMessage) then errorMessage.value else "HTTP " + Decimal(status));
        } else if body.NotJson? {
          result := Threw(body.error);
        } else {
          result := Resolved(body.value);
        }
    }

    method Get(endpoint: string, outcome: FetchOutcome) returns (url: string, config: FetchConfig, result: RequestResult)
      ensures url == baseUrl + endpoint
      ensures config == FetchConfig(Some(GET), FetchHeaders(authToken, map[]), None)
      ensures config.headers["Content-Type"] == "application/json"
      ensures Truthy(authToken) ==> config.headers["Authorization"] == "Bearer " + authToken.value
      ensures result == Settled(outcome)
    {
      url, config, result := Request(endpoint, RequestOptions(Some(GET), map[], None), outcome);
    }

    method Post(endpoint: string, data: JsValue, outcome: FetchOutcome) returns (url: string, config: FetchConfig, result: RequestResult)
      ensures url == baseUrl + endpoint
      ensures config == FetchConfig(Some(POST), FetchHeaders(authToken, map[]), RequestBody(data))
      ensures config.headers["Content-Type"] == "application/json"
      ensures Truthy(authToken) ==> config.headers["Authorization"] == "Bearer " + authToken.value
      ensures result == Settled(outcome)
    {
      url, config, result := Request(endpoint, RequestOptions(Some(POST), map[], RequestBody(data)), outcome);
    }

    method Put(endpoint: string, data: JsValue, outcome: FetchOutcome) returns (url: string, config: FetchConfig, result: RequestResult)
      ensures url == baseUrl + endpoint
      ensures config == FetchConfig(Some(PUT), FetchHeaders(authToken, map[]), RequestBody(data))
      ensures config.headers["Content-Type"] == "application/json"
      ensures Truthy(authToken) ==> config.headers["Authorization"] == "Bearer " + authToken.value
      ensures result == Settled(outcome)
    {
      url, config, result := Request(endpoint, RequestOptions(Some(PUT), map[], RequestBody(data)), outcome);
    }

    method Delete(endpoint: string, outcome: FetchOutcome) returns (url: string, config: FetchConfig, result: RequestResult)
      ensures url == baseUrl + endpoint
      ensures config == FetchConfig(Some(DELETE), FetchHeaders(authToken, map[]), None)
      ensures config.headers["Content-Type"] == "application/json"
      ensures Truthy(authToken) ==> config.headers["Authorization"] == "Bearer " + authToken.value
      ensures result == Settled(outcome)
    {
      url, config, result := Request(endpoint, RequestOptions(Some(DELETE), map[], None), outcome);
    }

    method Patch(endpoint: string, data: JsValue, outcome: FetchOutcome) returns (url: string, config: FetchConfig, result: RequestResult)
      ensures url == baseUrl + endpoint
      ensures config == FetchConfig(Some(PATCH), FetchHeaders(authToken, map[]), RequestBody(data))
      ensures config.headers["Content-Type"] == "application/json"
      ensures Truthy(authToken) ==> config.headers["Authorization"] == "Bearer " + authToken.value
      ensures result == Settled(outcome)
    {
      url, config, result := Request(endpoint, RequestOptions(Some(PATCH), map[], RequestBody(data)), outcome);
    }
  }

  // The fixed endpoint paths.
  const LoginPath: string := "/auth/login"
  const RegisterPath: string := "/auth/register"
  const ProfilePath: string := "/auth/profile"
  const MealsPath: string := "/meals"
  const MenusPath: string := "/menus"
  const TodaysMenuPath: string := "/menus/today"
  const OrdersPath: string := "/orders"
  const MyOrdersPath: string := "/orders/my"
  const AllOrdersPath: string := "/orders/all"
  const RevenuePath: string := "/orders/revenue"
  const OrderHistoryPath: string := "/orders/history"
  const NotificationsPath: string := "/notifications"

  /** `prefix + id + suffix`, the shape of every path builder: the digits
      between prefix and suffix read back as the id. */
  function IdPath(prefix: string, id: nat, suffix: string): (p: string)
    ensures p == prefix + Decimal(id) + suffix
    ensures |p| > |prefix| + |suffix|
    ensures AllDigits(p[|prefix|..|p| - |suffix|]) && DecimalValue(p[|prefix|..|p| - |suffix|]) == id
  {
    var p := prefix + Decimal(id) + suffix;
    assert p[|prefix|..|p| - |suffix|] == Decimal(id);
    DecimalRoundTrip(id);
    p
  }

  function MealPath(id: nat): (p: string)
    ensures |p| > 7 && p[..7] == "/meals/" && AllDigits(p[7..]) && DecimalValue(p[7..]) == id
  {
    var p := IdPath("/meals/", id, "");
    assert p[7..|p| - 0] == p[7..];
    p
  }

  function MenuPath(id: nat): (p: string)
    ensures |p| > 7 && p[..7] == "/menus/" && AllDigits(p[7..]) && DecimalValue(p[7..]) == id
  {
    var p := IdPath("/menus/", id, "");
    assert p[7..|p| - 0] == p[7..];
    p
  }

  function OrderPath(id: nat): (p: string)
    ensures |p| > 8 && p[..8] == "/orders/" && AllDigits(p[8..]) && DecimalValue(p[8..]) == id
  {
    var p := IdPath("/orders/", id, "");
    assert p[8..|p| - 0] == p[8..];
    p
  }

  function MarkNotificationReadPath(id: nat): (p: string)
    ensures |p| > 20 && p[..15] == "/notifications/" && p[|p| - 5..] == "/read"
    ensures AllDigits(p[15..|p| - 5]) && DecimalValue(p[15..|p| - 5]) == id
  {
    IdPath("/notifications/", id, "/read")
  }

  /** Different ids never share a path. */
  lemma PathBuildersInjective(a: nat, b: nat)
    ensures MealPath(a) == MealPath(b) ==> a == b
    ensures MenuPath(a) == MenuPath(b) ==> a == b
    ensures OrderPath(a) == OrderPath(b) ==> a == b
    ensures MarkNotificationReadPath(a) == MarkNotificationReadPath(b) ==> a == b
  {
  }

  /** No id path coincides with a fixed path of the same collection. */
  lemma FixedPathsAreNotIdPaths(id: nat)
    ensures MenuPath(id) != TodaysMenuPath
    ensures OrderPath(id) != MyOrdersPath && OrderPath(id) != AllOrdersPath
    ensures OrderPath(id) != RevenuePath && OrderPath(id) != OrderHistoryPath
  {
  }
}
