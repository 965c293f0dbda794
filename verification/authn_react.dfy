/**
  `AuthNClient` of `packages/react-auth`: the same client as in
  `packages/vanilla-js` but without polling (a 202 reply is folded like any
  other), with a `User-Agent` header, and with a `getError` that reads the
  reply body through optional chaining.
 */
module AuthNReact {
  import opened Options
  import opened Js
  import opened AuthN
  import AuthNVanilla

  /** The `User-Agent` header value as the source spells it, build placeholder included. */
  const UserAgent := "pangea-react-auth/PACKAGE_VERSION"

  /** `getOptions`: the headers of every request. */
  function GetOptions(config: Config): (headers: Headers)
    ensures headers.Keys == {"Content-Type", "User-Agent", "Authorization"}
    ensures headers["Content-Type"] == "application/json"
    ensures headers["User-Agent"] == UserAgent
    ensures headers["Authorization"] == "Bearer " + config.clientToken
  {
    map["Content-Type" := "application/json", "User-Agent" := UserAgent, "Authorization" := "Bearer " + config.clientToken]
  }

  /**
    `getError(error)`: the `{status, summary, result}` object. Reading the
    reply goes through `?.`, so only a nullish `error` makes it throw, at
    `error.request`.
   */
  function ErrorMessage(error: Value): Completion<Value> {
    if IsAxiosError(error) && Truthy(Prop(error, "response")) then
      var response := Prop(error, "response");
      Normal(Message(Prop(Prop(response, "data"), "status"), Prop(Prop(response, "data"), "summary"), Prop(Prop(response, "data"), "result")))
    else
      var request :- Member(error, "request");
      if Truthy(request) then
        var summary := ToString(Prop(request, "status")) + " " + ToString(Prop(request, "statusText"));
        Normal(Message(Str("Error"), Str(summary), Prop(error, "reqest")))
      else
        Normal(Message(Str("Error"), Str("Unhandled error"), error))
  }

  /** The `catch` of `post`. */
  function Caught(error: Value): Completion<ClientResponse> {
    var m :- ErrorMessage(error);
    Normal(ClientResponse(false, m))
  }

  /** `post(endpoint, payload)`, its request being request number `n` of the script. */
  function PostRun(config: Config, endpoint: string, payload: Value, script: nat -> Outcome, n: nat): Run {
    var post := Request(POST, GetUrl(config, endpoint), Some(payload), GetOptions(config));
    var result := match script(n)
      case Resolved(reply) => Normal(Fold(reply))
      case Rejected(error) => Caught(error);
    Run(result, [post], [Sent(post)])
  }

  class AuthNClient {
    const config: Config

    constructor (config: Config)
      ensures this.config == config
    {
      this.config := config;
    }

    /**
      `new AuthNClient(config)`: throws without a token, then without a
      domain; otherwise fills the caller's `callbackUri` from the page origin
      when it is blank and a page exists, and keeps a copy of the result.
     */
    static method New(input: ConfigInput, origin: Option<string>) returns (r: Completion<AuthNClient>)
      modifies input`callbackUri
      ensures old(input.clientToken) == "" ==> r == Throw(TokenRequired)
      ensures old(input.clientToken) != "" && old(input.domain) == "" ==> r == Throw(DomainRequired)
      ensures r.Normal? <==> input.clientToken != "" && input.domain != ""
      ensures input.callbackUri == if r.Normal? then FilledCallback(old(input.callbackUri), origin) else old(input.callbackUri)
      ensures r.Normal? ==> fresh(r.value) && r.value.config == Config(input.clientToken, input.domain, input.callbackUri)
    {
      if input.clientToken == "" {
        return Throw(TokenRequired);
      }
      if input.domain == "" {
        return Throw(DomainRequired);
      }
      if Blank(input.callbackUri) && origin.Some? {
        input.callbackUri := origin;
      }
      var client := new AuthNClient(Config(input.clientToken, input.domain, input.callbackUri));
      return Normal(client);
    }

    method Logout(userToken: string, env: Environment) returns (r: Completion<ClientResponse>)
      modifies env
      ensures var (path, payload) := Route(AuthN.Logout(userToken));
        Recorded(PostRun(config, path, payload, env.script, |old(env.sent)|), r, old(env.sent), old(env.trace), env.sent, env.trace)
    {
      var (path, payload) := Route(AuthN.Logout(userToken));
      r := Post(path, payload, env);
    }

    method Validate(userToken: string, env: Environment) returns (r: Completion<ClientResponse>)
      modifies env
      ensures var (path, payload) := Route(AuthN.Validate(userToken));
        Recorded(PostRun(config, path, payload, env.script, |old(env.sent)|), r, old(env.sent), old(env.trace), env.sent, env.trace)
    {
      var (path, payload) := Route(AuthN.Validate(userToken));
      r := Post(path, payload, env);
    }

    method Userinfo(code: string, env: Environment) returns (r: Completion<ClientResponse>)
      modifies env
      ensures var (path, payload) := Route(AuthN.Userinfo(code));
        Recorded(PostRun(config, path, payload, env.script, |old(env.sent)|), r, old(env.sent), old(env.trace), env.sent, env.trace)
    {
      var (path, payload) := Route(AuthN.Userinfo(code));
      r := Post(path, payload, env);
    }

    method Refresh(userToken: string, refreshToken: string, env: Environment) returns (r: Completion<ClientResponse>)
      modifies env
      ensures var (path, payload) := Route(AuthN.Refresh(userToken, refreshToken));
        Recorded(PostRun(config, path, payload, env.script, |old(env.sent)|), r, old(env.sent), old(env.trace), env.sent, env.trace)
    {
      var (path, payload) := Route(AuthN.Refresh(userToken, refreshToken));
      r := Post(path, payload, env);
    }

    method Jwks(env: Environment) returns (r: Completion<ClientResponse>)
      modifies env
      ensures var (path, payload) := Route(AuthN.Jwks);
        Recorded(PostRun(config, path, payload, env.script, |old(env.sent)|), r, old(env.sent), old(env.trace), env.sent, env.trace)
    {
      var (path, payload) := Route(AuthN.Jwks);
      r := Post(path, payload, env);
    }

    /** `post(endpoint, payload)` */
    method Post(endpoint: string, payload: Value, env: Environment) returns (r: Completion<ClientResponse>)
      modifies env
      ensures Recorded(PostRun(config, endpoint, payload, env.script, |old(env.sent)|), r, old(env.sent), old(env.trace), env.sent, env.trace)
    {
      var o := env.Post(GetUrl(config, endpoint), payload, GetOptions(config));
      match o
      case Resolved(reply) =>
        r := Normal(Fold(reply));
      case Rejected(error) =>
        // catch (err)
        var m := GetError(error);
        r := match m
          case Normal(message) => Normal(ClientResponse(false, message))
          case Throw(e) => Throw(e);
    }

    /** `getError(error)`: fills a `{status, summary, result}` object branch by branch. */
    method GetError(error: Value) returns (r: Completion<Value>)
      ensures r == ErrorMessage(error)
    {
      var status, summary, result := Str("Error"), Str(""), Obj(map[]);
      if IsAxiosError(error) && Truthy(Prop(error, "response")) {
        var response := Prop(error, "response");
        status := Prop(Prop(response, "data"), "status");
        summary := Prop(Prop(response, "data"), "summary");
        result := Prop(Prop(response, "data"), "result");
      } else if IsNullish(error) {
        // error.request
        return Throw(ReadError(error, "request"));
      } else if Truthy(Prop(error, "request")) {
        var request := Prop(error, "request");
        summary := Str(ToString(Prop(request, "status")) + " " + ToString(Prop(request, "statusText")));
        result := Prop(error, "reqest");
      } else {
        summary := Str("Unhandled error");
        result := error;
      }
      return Normal(Message(status, summary, result));
    }
  }

  // ----- What one call to `post` does -----

  /** `getError` throws only for a nullish error; otherwise it yields the three fields, and the status stays "Error" unless a server reply supplied it. */
  lemma ErrorMessageTotal(error: Value)
    ensures ErrorMessage(error).Throw? <==> IsNullish(error)
    ensures ErrorMessage(error).Normal? ==>
      var m := ErrorMessage(error).value;
      m.Obj? && m.props.Keys == {"status", "summary", "result"} &&
      (m.props["status"] != Str("Error") ==> IsAxiosError(error) && Truthy(Prop(error, "response")))
  {
  }

  /** A reply whose decoded body (`data`) is `null` or `undefined` gives undefined status, summary and result instead of a TypeError. */
  lemma MissingBodyGivesUndefined(error: Value)
    requires IsAxiosError(error) && Truthy(Prop(error, "response"))
    requires IsNullish(Prop(Prop(error, "response"), "data"))
    ensures ErrorMessage(error) == Normal(Message(Undefined, Undefined, Undefined))
  {
  }

  /** The request-only and unhandled branches keep the status "Error". */
  lemma ErrorMessageWithoutReply(error: Value)
    requires !IsAxiosError(error) || !Truthy(Prop(error, "response"))
    requires !IsNullish(error)
    ensures Truthy(Prop(error, "request")) ==>
      var request := Prop(error, "request");
      ErrorMessage(error) == Normal(Message(Str("Error"), Str(ToString(Prop(request, "status")) + " " + ToString(Prop(request, "statusText"))), Prop(error, "reqest")))
    ensures !Truthy(Prop(error, "request")) ==>
      ErrorMessage(error) == Normal(Message(Str("Error"), Str("Unhandled error"), error))
  {
  }

  /** One request and no wait, whatever the reply: a 202 is folded like any other reply. */
  lemma NoPolling(config: Config, endpoint: string, payload: Value, script: nat -> Outcome, n: nat)
    ensures var run := PostRun(config, endpoint, payload, script, n);
      && run.sent == [Request(POST, GetUrl(config, endpoint), Some(payload), GetOptions(config))]
      && run.trace == [Sent(run.sent[0])]
      && (script(n).Resolved? ==>
            && run.result.Normal?
            && run.result.value.response == script(n).reply.data
            && (run.result.value.success <==> Prop(script(n).reply.data, "status") == Str("Success")))
  {
  }

  /** `post` never throws unless the transport rejects with `null` or `undefined`; a rejection is never a success. */
  lemma PostNeverThrows(config: Config, endpoint: string, payload: Value, script: nat -> Outcome, n: nat)
    ensures var run := PostRun(config, endpoint, payload, script, n);
      && (run.result.Throw? <==> script(n).Rejected? && IsNullish(script(n).error))
      && (script(n).Rejected? && !IsNullish(script(n).error) ==>
            run.result == Normal(ClientResponse(false, ErrorMessage(script(n).error).value)))
  {
    if script(n).Rejected? {
      ErrorMessageTotal(script(n).error);
    }
  }

  /**
    The two clients end a call the same way whenever the first reply is not a
    202 and `getError` of `packages/vanilla-js` can read the rejection; they
    send the same URL and payload, and differ only in the `User-Agent` header.
   */
  lemma ClientsAgreeWithoutPolling(config: Config, endpoint: string, payload: Value, script: nat -> Outcome, n: nat)
    requires !IsAccepted(script(n))
    requires script(n).Rejected? ==> !AuthNVanilla.Unreadable(script(n).error)
    ensures var react := PostRun(config, endpoint, payload, script, n);
      var vanilla := AuthNVanilla.PostRun(config, endpoint, payload, script, n);
      && react.result == vanilla.result
      && |react.sent| == |vanilla.sent| == 1
      && react.sent[0].url == vanilla.sent[0].url && react.sent[0].body == vanilla.sent[0].body
      && react.sent[0].headers - {"User-Agent"} == vanilla.sent[0].headers
  {
    var react := PostRun(config, endpoint, payload, script, n);
    var vanilla := AuthNVanilla.PostRun(config, endpoint, payload, script, n);
    assert GetOptions(config) - {"User-Agent"} == AuthNVanilla.GetOptions(config);
  }
}
