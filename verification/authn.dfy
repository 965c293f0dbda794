/**
  What the two AuthN clients (`packages/vanilla-js` and `packages/react-auth`)
  share: the configuration, the shapes of replies and results, the transport
  seen as a scripted oracle, the rule that picks `http` for loopback domains,
  the URL every request goes to, and the path and payload of each endpoint
  wrapper.
 */
module AuthN {
  import opened Options
  import opened Js

  const ApiVersion := "v2"

  /** The HTTP status of an "accepted, still processing" reply. */
  const AcceptedStatus := 202

  type Headers = map<string, string>

  /** A client's own copy of its configuration (`{...config}`): a value, so later changes to the caller's object do not reach it. */
  datatype Config = Config(clientToken: string, domain: string, callbackUri: Option<string>)

  /** The configuration object a caller hands to a client's constructor, which may write its `callbackUri`. */
  class ConfigInput {
    var clientToken: string
    var domain: string
    var callbackUri: Option<string>

    constructor (clientToken: string, domain: string, callbackUri: Option<string>)
      ensures this.clientToken == clientToken && this.domain == domain && this.callbackUri == callbackUri
    {
      this.clientToken := clientToken;
      this.domain := domain;
      this.callbackUri := callbackUri;
    }
  }

  /** `!config.callbackUri`: unset or empty. */
  predicate Blank(callbackUri: Option<string>) {
    callbackUri.None? || callbackUri.value == ""
  }

  /** The `callbackUri` a constructor leaves: the page origin when it was blank and a page exists, otherwise as given. */
  function FilledCallback(callbackUri: Option<string>, origin: Option<string>): Option<string> {
    if Blank(callbackUri) && origin.Some? then origin else callbackUri
  }

  const TokenRequired := ErrorObj("Error", "A token is required", map[])
  const DomainRequired := ErrorObj("Error", "A domain is required", map[])

  /** An HTTP reply as axios resolves it: the status code and the decoded body. */
  datatype Reply = Reply(status: int, data: Value)

  /** What one axios call ends with: a reply, or the value it rejects with. */
  datatype Outcome = Resolved(reply: Reply) | Rejected(error: Value)

  predicate IsAccepted(o: Outcome) {
    o.Resolved? && o.reply.status == AcceptedStatus
  }

  datatype Verb = POST | GET

  datatype Request = Request(verb: Verb, url: string, body: Option<Value>, headers: Headers)

  /** `ClientResponse`: `{success, response}`. */
  datatype ClientResponse = ClientResponse(success: bool, response: Value)

  /** `{ success: response.data?.status === "Success", response: response.data }` */
  function Fold(reply: Reply): ClientResponse {
    ClientResponse(Prop(reply.data, "status") == Str("Success"), reply.data)
  }

  /** `axios.isAxiosError(v)` */
  predicate IsAxiosError(v: Value) {
    IsObject(v) && Prop(v, "isAxiosError") == Bool(true)
  }

  /** `{status, summary, result}`, the object an error normaliser returns. */
  function Message(status: Value, summary: Value, result: Value): Value {
    Obj(map["status" := status, "summary" := summary, "result" := result])
  }

  /** One thing a client did to the world: send a request, or wait. */
  datatype Event = Sent(request: Request) | Waited(ms: nat)

  /**
    The world a client talks to: axios answers the n-th request it is given
    with `script(n)`, and `delay` only records how long it was asked to wait.
    `sent` lists the requests, which number the replies; `trace` lists the
    requests and the waits together, in the order they happened.
   */
  class Environment {
    const script: nat -> Outcome
    var sent: seq<Request>
    var trace: seq<Event>

    constructor (script: nat -> Outcome)
      ensures this.script == script && sent == [] && trace == []
    {
      this.script := script;
      sent := [];
      trace := [];
    }

    /** `axios.post(url, body, {headers})` */
    method Post(url: string, body: Value, headers: Headers) returns (o: Outcome)
      modifies this`sent, this`trace
      ensures sent == old(sent) + [Request(POST, url, Some(body), headers)]
      ensures trace == old(trace) + [Sent(Request(POST, url, Some(body), headers))]
      ensures o == script(|old(sent)|)
    {
      o := script(|sent|);
      sent := sent + [Request(POST, url, Some(body), headers)];
      trace := trace + [Sent(Request(POST, url, Some(body), headers))];
    }

    /** `axios.get(url, {headers})` */
    method Get(url: string, headers: Headers) returns (o: Outcome)
      modifies this`sent, this`trace
      ensures sent == old(sent) + [Request(GET, url, None, headers)]
      ensures trace == old(trace) + [Sent(Request(GET, url, None, headers))]
      ensures o == script(|old(sent)|)
    {
      o := script(|sent|);
      sent := sent + [Request(GET, url, None, headers)];
      trace := trace + [Sent(Request(GET, url, None, headers))];
    }

    /** `await delay(ms)` */
    method Delay(ms: nat)
      modifies this`trace
      ensures trace == old(trace) + [Waited(ms)]
    {
      trace := trace + [Waited(ms)];
    }
  }

  /** Everything one call to `post` does: how it ends, the requests it sends, and those requests with the waits between them, in order. */
  datatype Run = Run(result: Completion<ClientResponse>, sent: seq<Request>, trace: seq<Event>)

  /** `r` and the environment's logs, before and after, are those of `run`. */
  predicate Recorded(run: Run, r: Completion<ClientResponse>,
                     sent0: seq<Request>, trace0: seq<Event>, sent: seq<Request>, trace: seq<Event>)
  {
    r == run.result && sent == sent0 + run.sent && trace == trace0 + run.trace
  }

  // ----- Loopback domains: /^local\.?host(:\d{2,5})?$/ -----

  predicate IsAsciiDigit(c: char) {
    '0' <= c <= '9'
  }

  /** `(:\d{2,5})?`, the optional port. */
  ghost predicate PortSuffix(port: string) {
    port == [] || (port[0] == ':' && 3 <= |port| <= 6 && forall i :: 1 <= i < |port| ==> IsAsciiDigit(port[i]))
  }

  /** The set of strings the pattern matches, written as that set: a loopback host name, then an optional port. */
  ghost predicate LoopbackPattern(domain: string) {
    exists port :: PortSuffix(port) && (domain == "localhost" + port || domain == "local.host" + port)
  }

  predicate AllDigits(s: string) {
    s == [] || (IsAsciiDigit(s[0]) && AllDigits(s[1..]))
  }

  /** The length of the `local\.?host` prefix of `domain`, 0 when there is none. */
  function HostLength(domain: string): nat {
    if |domain| >= 9 && domain[..9] == "localhost" then 9
    else if |domain| >= 10 && domain[..10] == "local.host" then 10
    else 0
  }

  /** The matcher the clients run: a host prefix, then the end or `:` and two to five digits. */
  predicate IsLoopbackDomain(domain: string) {
    var h := HostLength(domain);
    h > 0 && (h == |domain| || (domain[h] == ':' && 3 <= |domain| - h <= 6 && AllDigits(domain[h + 1..])))
  }

  lemma {:induction false} AllDigitsIff(s: string)
    ensures AllDigits(s) <==> forall i :: 0 <= i < |s| ==> IsAsciiDigit(s[i])
  {
    if s != [] {
      AllDigitsIff(s[1..]);
      assert forall i :: 1 <= i < |s| ==> s[i] == s[1..][i - 1];
    }
  }

  /** The matcher accepts exactly the strings the pattern describes. */
  lemma LoopbackMatchesPattern(domain: string)
    ensures IsLoopbackDomain(domain) <==> LoopbackPattern(domain)
  {
    var h := HostLength(domain);
    if IsLoopbackDomain(domain) {
      var port := domain[h..];
      if h < |domain| {
        AllDigitsIff(domain[h + 1..]);
        assert forall i :: 1 <= i < |port| ==> port[i] == domain[h + 1..][i - 1];
      }
      assert PortSuffix(port);
      assert domain == domain[..h] + port;
    }
    if LoopbackPattern(domain) {
      var port :| PortSuffix(port) && (domain == "localhost" + port || domain == "local.host" + port);
      if domain == "localhost" + port {
        assert domain[..9] == "localhost";
        assert h == 9 && domain[h..] == port;
      } else {
        assert domain[5] == '.';
        assert domain[..10] == "local.host";
        assert h == 10 && domain[h..] == port;
      }
      if port != [] {
        AllDigitsIff(port[1..]);
        assert domain[h + 1..] == port[1..];
      }
    }
  }

  function Scheme(domain: string): string {
    if IsLoopbackDomain(domain) then "http" else "https"
  }

  /** `getUrl`: `{scheme}://authn.{domain}/v2/{endpoint}`. */
  function GetUrl(config: Config, endpoint: string): string {
    Scheme(config.domain) + "://authn." + config.domain + "/" + ApiVersion + "/" + endpoint
  }

  /** The scheme is plain HTTP exactly for loopback domains, and the URL ends with the versioned endpoint. */
  lemma UrlShape(config: Config, endpoint: string)
    ensures var url := GetUrl(config, endpoint);
      && |url| >= 17 + |config.domain| + |endpoint|
      && (url[..7] == "http://" <==> LoopbackPattern(config.domain))
      && (url[..8] == "https://" <==> !LoopbackPattern(config.domain))
      && url[|url| - |endpoint| - 4..] == "/v2/" + endpoint
  {
    LoopbackMatchesPattern(config.domain);
    var scheme := Scheme(config.domain);
    var head := scheme + "://authn." + config.domain;
    var suffix := "/" + ApiVersion + "/" + endpoint;
    var url := GetUrl(config, endpoint);
    assert url == head + suffix;
    assert suffix == "/v2/" + endpoint;
    assert url[|head|..] == suffix;
    assert url[..8] == head[..8];
    assert head[..8] == if scheme == "http" then "http://a" else "https://";
    assert url[..7] == head[..7] == if scheme == "http" then "http://" else "https:/";
  }

  /** Different endpoints of one client never share a URL. */
  lemma UrlEndpointInjective(config: Config, e1: string, e2: string)
    ensures GetUrl(config, e1) == GetUrl(config, e2) ==> e1 == e2
  {
    var base := Scheme(config.domain) + "://authn." + config.domain + "/" + ApiVersion + "/";
    if GetUrl(config, e1) == GetUrl(config, e2) {
      assert GetUrl(config, e1) == base + e1;
      assert GetUrl(config, e2) == base + e2;
      assert e1 == (base + e1)[|base|..];
    }
  }

  // ----- The endpoint wrappers -----

  /** The five named operations both clients offer. */
  datatype Call =
    | Logout(userToken: string)
    | Validate(userToken: string)
    | Userinfo(code: string)
    | Refresh(userToken: string, refreshToken: string)
    | Jwks

  /** The path and payload each wrapper hands to `post`. */
  function Route(call: Call): (string, Value) {
    match call
    case Logout(t) => ("client/session/logout", Obj(map["token" := Str(t)]))
    case Validate(t) => ("client/token/check", Obj(map["token" := Str(t)]))
    case Userinfo(c) => ("client/userinfo", Obj(map["code" := Str(c)]))
    case Refresh(u, r) => ("client/session/refresh", Obj(map["user_token" := Str(u), "refresh_token" := Str(r)]))
    case Jwks => ("client/jwks", Obj(map[]))
  }

  /** Distinct calls send distinct requests: the path names the operation and the payload carries its arguments. */
  lemma RouteInjective(a: Call, b: Call)
    ensures Route(a) == Route(b) ==> a == b
  {
    if Route(a) == Route(b) {
      var p := Route(a).1.props;
      match a
      case Logout(t) => assert p["token"] == Str(t);
      case Validate(t) => assert p["token"] == Str(t);
      case Userinfo(c) => assert p["code"] == Str(c);
      case Refresh(u, r) => assert p["user_token"] == Str(u) && p["refresh_token"] == Str(r);
      case Jwks =>
    }
  }
}
