/**
  `AuthNClient` of `packages/vanilla-js`: validates its configuration, posts
  to `{scheme}://authn.{domain}/v2/{endpoint}`, and when the first reply is a
  202 polls `request/{request_id}` at most three times, waiting 4, 9 and 16
  seconds before the checks. Every outcome is folded into `{success, response}`.
 */
module AuthNVanilla {
  import opened Options
  import opened Js
  import opened AuthN

  /** `maxRetries` of `handleAsync`. */
  const MaxRetries: nat := 3

  /** `getOptions`: the headers of every request. */
  function GetOptions(config: Config): (headers: Headers)
    ensures headers.Keys == {"Content-Type", "Authorization"}
    ensures headers["Content-Type"] == "application/json"
    ensures headers["Authorization"] == "Bearer " + config.clientToken
  {
    map["Content-Type" := "application/json", "Authorization" := "Bearer " + config.clientToken]
  }

  // ----- The specification of one call -----

  /** The wait `handleAsync` asks for: `retryCount * retryCount * 1000`, where `retryCount` is the value after the increment at the top of the loop. */
  function Backoff(retryCount: nat): nat {
    retryCount * retryCount * 1000
  }

  /** The first `k` rounds of polling, each a wait and then the status check `check`. */
  function Rounds(check: Request, k: nat): (t: seq<Event>)
    ensures |t| == 2 * k
    ensures forall i :: 0 <= i < k ==> t[2 * i] == Waited(Backoff(i + 2)) && t[2 * i + 1] == Sent(check)
  {
    if k == 0 then [] else Rounds(check, k - 1) + [Waited(Backoff(k + 1)), Sent(check)]
  }

  /**
    The number of status checks when the first of them is request number `n`:
    polling goes on while the replies are 202, and stops after MaxRetries checks.
   */
  function Polls(script: nat -> Outcome, n: nat): (k: nat)
    ensures 1 <= k <= MaxRetries
    ensures forall j :: n <= j < n + k - 1 ==> IsAccepted(script(j))
    ensures k < MaxRetries ==> !IsAccepted(script(n + k - 1))
  {
    PollsFrom(script, n, 1)
  }

  function PollsFrom(script: nat -> Outcome, n: nat, k: nat): (m: nat)
    requires 1 <= k <= MaxRetries
    requires forall j :: n <= j < n + k - 1 ==> IsAccepted(script(j))
    ensures k <= m <= MaxRetries
    ensures forall j :: n <= j < n + m - 1 ==> IsAccepted(script(j))
    ensures m < MaxRetries ==> !IsAccepted(script(n + m - 1))
    decreases MaxRetries - k
  {
    if k == MaxRetries || !IsAccepted(script(n + k - 1)) then k
    else PollsFrom(script, n, k + 1)
  }

  /** `request/${response.data?.request_id}` */
  function StatusEndpoint(response: Reply): string {
    "request/" + ToString(Prop(response.data, "request_id"))
  }

  function StatusCheck(config: Config, response: Reply): Request {
    Request(GET, GetUrl(config, StatusEndpoint(response)), None, GetOptions(config))
  }

  function Repeat<T>(x: T, k: nat): (s: seq<T>)
    ensures |s| == k && forall i :: 0 <= i < k ==> s[i] == x
  {
    if k == 0 then [] else Repeat(x, k - 1) + [x]
  }

  /** What `handleAsync` does: how it ends, the status checks it sends, and those checks with the wait before each. */
  datatype Poll = Poll(last: Outcome, gets: seq<Request>, trace: seq<Event>)

  /** `handleAsync(response)`, with its first status check being request number `n`. */
  function AsyncRun(config: Config, response: Reply, script: nat -> Outcome, n: nat): Poll {
    if response.status != AcceptedStatus then Poll(Resolved(response), [], [])
    else
      var k := Polls(script, n);
      var check := StatusCheck(config, response);
      Poll(script(n + k - 1), Repeat(check, k), Rounds(check, k))
  }

  /**
    `getError(error)`: the `{status, summary, result}` object, or the
    TypeError it throws while reading `error.response.data.status` of a
    reply whose decoded body (`data`) is `null` or `undefined`, or
    `error.request` of a nullish error.
   */
  function ErrorMessage(error: Value): Completion<Value> {
    if IsAxiosError(error) && Truthy(Prop(error, "response")) then
      // `error.response` is truthy, so only reading from its `data` can throw
      var data := Prop(Prop(error, "response"), "data");
      var status :- Member(data, "status");
      Normal(Message(status, Prop(data, "summary"), Prop(data, "result")))
    else
      var request :- Member(error, "request");
      if Truthy(request) then
        var summary := ToString(Prop(request, "status")) + " " + ToString(Prop(request, "statusText"));
        Normal(Message(Str("Error"), Str(summary), Prop(error, "reqest")))
      else
        Normal(Message(Str("Error"), Str("Unhandled error"), error))
  }

  /** The `catch` of `post`: `{success: false, response: getError(err)}`, unless `getError` itself throws. */
  function Caught(error: Value): Completion<ClientResponse> {
    var m :- ErrorMessage(error);
    Normal(ClientResponse(false, m))
  }

  /** How `post` ends once the last reply or rejection is known. */
  function Settle(last: Outcome): Completion<ClientResponse> {
    match last
    case Resolved(reply) => Normal(Fold(reply))
    case Rejected(error) => Caught(error)
  }

  /** `post(endpoint, payload)`, its first request being request number `n` of the script. */
  function PostRun(config: Config, endpoint: string, payload: Value, script: nat -> Outcome, n: nat): Run {
    var post := Request(POST, GetUrl(config, endpoint), Some(payload), GetOptions(config));
    var first := script(n);
    var p := if IsAccepted(first) then AsyncRun(config, first.reply, script, n + 1) else Poll(first, [], []);
    Run(Settle(p.last), [post] + p.gets, [Sent(post)] + p.trace)
  }

  // ----- The client -----

  class AuthNClient {
    const config: Config

    constructor (config: Config)
      ensures this.config == config
    {
      this.config := config;
    }

    /**
      `new AuthNClient(config)`: throws without a token, then without a
      domain; otherwise fills the caller's `callbackUri` from the page origin
      when it is blank and a page exists, and keeps a copy of the result.
     */
    static method New(input: ConfigInput, origin: Option<string>) returns (r: Completion<AuthNClient>)
      modifies input`callbackUri
      ensures old(input.clientToken) == "" ==> r == Throw(TokenRequired)
      ensures old(input.clientToken) != "" && old(input.domain) == "" ==> r == Throw(DomainRequired)
      ensures r.Normal? <==> input.clientToken != "" && input.domain != ""
      ensures input.callbackUri == if r.Normal? then FilledCallback(old(input.callbackUri), origin) else old(input.callbackUri)
      ensures r.Normal? ==> fresh(r.value) && r.value.config == Config(input.clientToken, input.domain, input.callbackUri)
    {
      if input.clientToken == "" {
        return Throw(TokenRequired);
      }
      if input.domain == "" {
        return Throw(DomainRequired);
      }
      if Blank(input.callbackUri) && origin.Some? {
        input.callbackUri := origin;
      }
      var client := new AuthNClient(Config(input.clientToken, input.domain, input.callbackUri));
      return Normal(client);
    }

    method Logout(userToken: string, env: Environment) returns (r: Completion<ClientResponse>)
      modifies env
      ensures var (path, payload) := Route(AuthN.Logout(userToken));
        Recorded(PostRun(config, path, payload, env.script, |old(env.sent)|), r, old(env.sent), old(env.trace), env.sent, env.trace)
    {
      var (path, payload) := Route(AuthN.Logout(userToken));
      r := Post(path, payload, env);
    }

    method Validate(userToken: string, env: Environment) returns (r: Completion<ClientResponse>)
      modifies env
      ensures var (path, payload) := Route(AuthN.Validate(userToken));
        Recorded(PostRun(config, path, payload, env.script, |old(env.sent)|), r, old(env.sent), old(env.trace), env.sent, env.trace)
    {
      var (path, payload) := Route(AuthN.Validate(userToken));
      r := Post(path, payload, env);
    }

    method Userinfo(code: string, env: Environment) returns (r: Completion<ClientResponse>)
      modifies env
      ensures var (path, payload) := Route(AuthN.Userinfo(code));
        Recorded(PostRun(config, path, payload, env.script, |old(env.sent)|), r, old(env.sent), old(env.trace), env.sent, env.trace)
    {
      var (path, payload) := Route(AuthN.Userinfo(code));
      r := Post(path, payload, env);
    }

    method Refresh(userToken: string, refreshToken: string, env: Environment) returns (r: Completion<ClientResponse>)
      modifies env
      ensures var (path, payload) := Route(AuthN.Refresh(userToken, refreshToken));
        Recorded(PostRun(config, path, payload, env.script, |old(env.sent)|), r, old(env.sent), old(env.trace), env.sent, env.trace)
    {
      var (path, payload) := Route(AuthN.Refresh(userToken, refreshToken));
      r := Post(path, payload, env);
    }

    method Jwks(env: Environment) returns (r: Completion<ClientResponse>)
      modifies env
      ensures var (path, payload) := Route(AuthN.Jwks);
        Recorded(PostRun(config, path, payload, env.script, |old(env.sent)|), r, old(env.sent), old(env.trace), env.sent, env.trace)
    {
      var (path, payload) := Route(AuthN.Jwks);
      r := Post(path, payload, env);
    }

    /** `post(endpoint, payload)` */
    method Post(endpoint: string, payload: Value, env: Environment) returns (r: Completion<ClientResponse>)
      modifies env
      ensures Recorded(PostRun(config, endpoint, payload, env.script, |old(env.sent)|), r, old(env.sent), old(env.trace), env.sent, env.trace)
    {
      ghost var sent0, trace0 := env.sent, env.trace;
      ghost var post := Request(POST, GetUrl(config, endpoint), Some(payload), GetOptions(config));
      var last := env.Post(GetUrl(config, endpoint), payload, GetOptions(config));
      ghost var p := if IsAccepted(last) then AsyncRun(config, last.reply, env.script, |sent0| + 1) else Poll(last, [], []);
      ghost var sent1, trace1 := env.sent, env.trace;
      if last.Resolved? && last.reply.status == AcceptedStatus {
        last := HandleAsync(last.reply, env);
      }
      assert last == p.last && env.sent == sent1 + p.gets && env.trace == trace1 + p.trace;
      LogAfter(sent0, post, p.gets);
      LogAfter(trace0, Sent(post), p.trace);
      ghost var run := PostRun(config, endpoint, payload, env.script, |sent0|);
      assert run == Run(Settle(last), [post] + p.gets, [Sent(post)] + p.trace);
      match last
      case Resolved(reply) =>
        r := Normal(Fold(reply));
      case Rejected(error) =>
        // catch (err)
        var m := GetError(error);
        r := match m
          case Normal(message) => Normal(ClientResponse(false, message))
          case Throw(e) => Throw(e);
    }

    /** `get(endpoint)`: a rejection passes through unchanged. */
    method Get(endpoint: string, env: Environment) returns (o: Outcome)
      modifies env
      ensures env.sent == old(env.sent) + [Request(GET, GetUrl(config, endpoint), None, GetOptions(config))]
      ensures env.trace == old(env.trace) + [Sent(Request(GET, GetUrl(config, endpoint), None, GetOptions(config)))]
      ensures o == env.script(|old(env.sent)|)
    {
      o := env.Get(GetUrl(config, endpoint), GetOptions(config));
    }

    /**
      `handleAsync(response)`. A rejected status check leaves the loop at
      once, as the exception thrown by `await this.get(...)` does.
     */
    method HandleAsync(response: Reply, env: Environment) returns (last: Outcome)
      modifies env
      ensures var p := AsyncRun(config, response, env.script, |old(env.sent)|);
        last == p.last && env.sent == old(env.sent) + p.gets && env.trace == old(env.trace) + p.trace
    {
      var endpoint := "request/" + ToString(Prop(response.data, "request_id"));
      var maxRetries := MaxRetries;
      var retryCount := 1;
      last := Resolved(response);
      ghost var n, script := |env.sent|, env.script;
      ghost var check := StatusCheck(config, response);
      assert check == Request(GET, GetUrl(config, endpoint), None, GetOptions(config));
      while last.Resolved? && last.reply.status == AcceptedStatus && retryCount <= maxRetries
        invariant 1 <= retryCount <= maxRetries + 1
        invariant env.sent == old(env.sent) + Repeat(check, retryCount - 1)
        invariant env.trace == old(env.trace) + Rounds(check, retryCount - 1)
        invariant last == if retryCount == 1 then Resolved(response) else script(n + retryCount - 2)
        invariant retryCount > 1 ==> response.status == AcceptedStatus
        invariant forall j :: n <= j < n + retryCount - 2 ==> IsAccepted(script(j))
      {
        ghost var sent1, trace1 := env.sent, env.trace;
        retryCount := retryCount + 1;
        var waitTime := Backoff(retryCount);
        env.Delay(waitTime);
        last := Get(endpoint, env);
        NextRound(old(env.sent), old(env.trace), sent1, trace1, check, retryCount - 1);
      }
      PollEnd(config, response, script, n, retryCount - 1, last);
    }

    /** `getError(error)`: fills a `{status, summary, result}` object branch by branch. */
    method GetError(error: Value) returns (r: Completion<Value>)
      ensures r == ErrorMessage(error)
    {
      var status, summary, result := Str("Error"), Str(""), Obj(map[]);
      if IsAxiosError(error) && Truthy(Prop(error, "response")) {
        var data := Prop(Prop(error, "response"), "data");
        if IsNullish(data) {
          // error.response.data.status
          return Throw(ReadError(data, "status"));
        }
        status := Prop(data, "status");
        summary := Prop(data, "summary");
        result := Prop(data, "result");
      } else if IsNullish(error) {
        // error.request
        return Throw(ReadError(error, "request"));
      } else if Truthy(Prop(error, "request")) {
        var request := Prop(error, "request");
        summary := Str(ToString(Prop(request, "status")) + " " + ToString(Prop(request, "statusText")));
        result := Prop(error, "reqest");
      } else {
        summary := Str("Unhandled error");
        result := error;
      }
      return Normal(Message(status, summary, result));
    }
  }

  // ----- What one call to `post` does -----

  /** The rejection value `getError` cannot read: nullish, or an axios error whose reply's decoded body (`data`) is `null` or `undefined`. */
  predicate Unreadable(error: Value) {
    IsNullish(error) || (IsAxiosError(error) && Truthy(Prop(error, "response")) && IsNullish(Prop(Prop(error, "response"), "data")))
  }

  /** `getError` always yields the three fields, and the status stays "Error" unless a server reply supplied it. */
  lemma ErrorMessageShape(error: Value)
    ensures ErrorMessage(error).Throw? <==> Unreadable(error)
    ensures ErrorMessage(error).Normal? ==>
      var m := ErrorMessage(error).value;
      m.Obj? && m.props.Keys == {"status", "summary", "result"} &&
      (m.props["status"] != Str("Error") ==> IsAxiosError(error) && Truthy(Prop(error, "response")))
  {
  }

  /** The three branches of `getError`: server reply, request without reply, anything else. */
  lemma ErrorMessageBranches(error: Value)
    ensures IsAxiosError(error) && Truthy(Prop(error, "response")) && !Unreadable(error) ==>
      var data := Prop(Prop(error, "response"), "data");
      ErrorMessage(error) == Normal(Message(Prop(data, "status"), Prop(data, "summary"), Prop(data, "result")))
    ensures !(IsAxiosError(error) && Truthy(Prop(error, "response"))) && !IsNullish(error) && Truthy(Prop(error, "request")) ==>
      var request := Prop(error, "request");
      ErrorMessage(error) == Normal(Message(Str("Error"), Str(ToString(Prop(request, "status")) + " " + ToString(Prop(request, "statusText"))), Prop(error, "reqest")))
    ensures !(IsAxiosError(error) && Truthy(Prop(error, "response"))) && !IsNullish(error) && !Truthy(Prop(error, "request")) ==>
      ErrorMessage(error) == Normal(Message(Str("Error"), Str("Unhandled error"), error))
  {
  }

  /** Because of the misspelt `error.reqest`, an error with a request but no reply gets an undefined result. */
  lemma NoReplyResultUndefined(error: Value)
    requires !IsAxiosError(error) || !Truthy(Prop(error, "response"))
    requires !IsNullish(error) && Truthy(Prop(error, "request"))
    requires IsObject(error) && (error.Obj? || error.ErrorObj?) && "reqest" !in error.props
    ensures ErrorMessage(error).Normal? && ErrorMessage(error).value.props["result"] == Undefined
  {
  }

  /** A first reply other than 202 is folded as it is: one request, no wait, `success` iff its status is "Success". */
  lemma NoPollingUnlessAccepted(config: Config, endpoint: string, payload: Value, script: nat -> Outcome, n: nat)
    requires !IsAccepted(script(n))
    ensures var run := PostRun(config, endpoint, payload, script, n);
      && run.sent == [Request(POST, GetUrl(config, endpoint), Some(payload), GetOptions(config))]
      && run.trace == [Sent(run.sent[0])]
      && (script(n).Resolved? ==>
            && run.result.Normal?
            && run.result.value.response == script(n).reply.data
            && (run.result.value.success <==> Prop(script(n).reply.data, "status") == Str("Success")))
  {
  }

  /**
    One POST, then at most MaxRetries GETs, all to `request/{request_id}` of
    the first reply; the k-th GET comes right after a wait of (k + 1)² seconds,
    and that wait right after the request before it.
   */
  lemma PollingBounded(config: Config, endpoint: string, payload: Value, script: nat -> Outcome, n: nat)
    ensures var run := PostRun(config, endpoint, payload, script, n);
      && 1 <= |run.sent| <= 1 + MaxRetries
      && |run.trace| == 2 * |run.sent| - 1
      && run.trace[0] == Sent(run.sent[0])
      && run.sent[0] == Request(POST, GetUrl(config, endpoint), Some(payload), GetOptions(config))
      && (|run.sent| > 1 ==>
            && IsAccepted(script(n))
            && forall i :: 1 <= i < |run.sent| ==>
                 run.sent[i] == Request(GET, GetUrl(config, "request/" + ToString(Prop(script(n).reply.data, "request_id"))), None, GetOptions(config)))
      && forall i :: 1 <= i < |run.sent| ==>
           run.trace[2 * i - 1] == Waited((i + 1) * (i + 1) * 1000) && run.trace[2 * i] == Sent(run.sent[i])
  {
    var run := PostRun(config, endpoint, payload, script, n);
    if IsAccepted(script(n)) {
      var check := StatusCheck(config, script(n).reply);
      var rounds := Rounds(check, Polls(script, n + 1));
      forall i | 1 <= i < |run.sent|
        ensures run.trace[2 * i - 1] == Waited((i + 1) * (i + 1) * 1000) && run.trace[2 * i] == Sent(run.sent[i])
      {
        assert run.trace[2 * i - 1] == rounds[2 * (i - 1)];
        assert run.trace[2 * i] == rounds[2 * (i - 1) + 1];
      }
    }
  }

  /** Polling stops at the first status check whose reply is not 202 (or that is rejected), and that outcome decides the result. */
  lemma PollingStopsAtFirstTerminal(config: Config, endpoint: string, payload: Value, script: nat -> Outcome, n: nat, k: nat)
    requires IsAccepted(script(n))
    requires 1 <= k <= MaxRetries
    requires forall j :: n < j < n + k ==> IsAccepted(script(j))
    requires !IsAccepted(script(n + k))
    ensures var run := PostRun(config, endpoint, payload, script, n);
      && |run.sent| == 1 + k
      && run.trace == [Sent(run.sent[0])] + Rounds(StatusCheck(config, script(n).reply), k)
      && run.result == Settle(script(n + k))
  {
    PollsUnique(script, n + 1, k);
  }

  /** A log that grew by `first` and then by `rest` grew by `[first] + rest`. */
  lemma LogAfter<T>(log: seq<T>, first: T, rest: seq<T>)
    ensures log + [first] + rest == log + ([first] + rest)
  {
  }

  /** One more pass of the `handleAsync` loop extends both logs by the `k`-th round. */
  lemma NextRound(sent0: seq<Request>, trace0: seq<Event>, sent: seq<Request>, trace: seq<Event>, check: Request, k: nat)
    requires k >= 1
    requires sent == sent0 + Repeat(check, k - 1)
    requires trace == trace0 + Rounds(check, k - 1)
    ensures sent + [check] == sent0 + Repeat(check, k)
    ensures trace + [Waited(Backoff(k + 1))] + [Sent(check)] == trace0 + Rounds(check, k)
  {
    assert Repeat(check, k) == Repeat(check, k - 1) + [check];
    assert Rounds(check, k) == Rounds(check, k - 1) + [Waited(Backoff(k + 1)), Sent(check)];
  }

  /** How the poll ends after `k` status checks, once the loop condition fails. */
  lemma PollEnd(config: Config, response: Reply, script: nat -> Outcome, n: nat, k: nat, last: Outcome)
    requires k <= MaxRetries
    requires last == if k == 0 then Resolved(response) else script(n + k - 1)
    requires k > 0 ==> response.status == AcceptedStatus
    requires forall j :: n <= j < n + k - 1 ==> IsAccepted(script(j))
    requires !(last.Resolved? && last.reply.status == AcceptedStatus && k < MaxRetries)
    ensures AsyncRun(config, response, script, n) ==
      var check := StatusCheck(config, response);
      Poll(last, Repeat(check, k), Rounds(check, k))
  {
    if k > 0 {
      PollsUnique(script, n, k);
    }
  }

  /** The count of status checks is the only one that the contract of Polls allows. */
  lemma PollsUnique(script: nat -> Outcome, n: nat, k: nat)
    requires 1 <= k <= MaxRetries
    requires forall j :: n <= j < n + k - 1 ==> IsAccepted(script(j))
    requires k < MaxRetries ==> !IsAccepted(script(n + k - 1))
    ensures Polls(script, n) == k
  {
  }

  /** When every status check still answers 202, the third 202 reply is returned as if it were final, not as an error. */
  lemma ExhaustedReturnsLastAccepted(config: Config, endpoint: string, payload: Value, script: nat -> Outcome, n: nat)
    requires forall j :: n <= j <= n + MaxRetries ==> IsAccepted(script(j))
    ensures var run := PostRun(config, endpoint, payload, script, n);
      var post := Request(POST, GetUrl(config, endpoint), Some(payload), GetOptions(config));
      var get := StatusCheck(config, script(n).reply);
      && run.sent == [post, get, get, get]
      && run.trace == [Sent(post), Waited(4000), Sent(get), Waited(9000), Sent(get), Waited(16000), Sent(get)]
      && script(n + 3).Resolved?
      && run.result == Normal(Fold(script(n + 3).reply))
  {
    var get := StatusCheck(config, script(n).reply);
    PollsUnique(script, n + 1, MaxRetries);
    assert Rounds(get, 1) == [Waited(4000), Sent(get)];
    assert Rounds(get, 2) == [Waited(4000), Sent(get), Waited(9000), Sent(get)];
  }

  /** The result of `post` is decided by the outcome of its last request. */
  lemma ResultFromLastRequest(config: Config, endpoint: string, payload: Value, script: nat -> Outcome, n: nat)
    ensures var run := PostRun(config, endpoint, payload, script, n);
      run.result == Settle(script(n + |run.sent| - 1))
  {
  }

  /** `post` resolves to a `ClientResponse` unless its last request was rejected with a value `getError` cannot read. */
  lemma PostThrowsOnlyOnUnreadableError(config: Config, endpoint: string, payload: Value, script: nat -> Outcome, n: nat)
    ensures var run := PostRun(config, endpoint, payload, script, n);
      var last := script(n + |run.sent| - 1);
      run.result.Throw? <==> last.Rejected? && Unreadable(last.error)
  {
    var run := PostRun(config, endpoint, payload, script, n);
    ResultFromLastRequest(config, endpoint, payload, script, n);
    var last := script(n + |run.sent| - 1);
    if last.Rejected? {
      ErrorMessageShape(last.error);
    }
  }

  /** `success` is true exactly when the last request got a reply whose body's status is "Success". */
  lemma SuccessIffFinalStatus(config: Config, endpoint: string, payload: Value, script: nat -> Outcome, n: nat)
    ensures var run := PostRun(config, endpoint, payload, script, n);
      var last := script(n + |run.sent| - 1);
      run.result.Normal? && run.result.value.success <==>
        last.Resolved? && Prop(last.reply.data, "status") == Str("Success")
  {
    var run := PostRun(config, endpoint, payload, script, n);
    ResultFromLastRequest(config, endpoint, payload, script, n);
  }

  /** An axios error carrying a reply whose JSON body is `null` makes `getError`, and so `post`, throw. */
  lemma NullBodyMakesPostThrow()
    ensures
      var error := ErrorObj("AxiosError", "Request failed with status code 500",
                            map["isAxiosError" := Bool(true), "response" := Obj(map["status" := Num(500), "data" := Null])]);
      var run := PostRun(Config("token", "example.com", None), "client/jwks", Obj(map[]), _ => Rejected(error), 0);
      run.result == Throw(ReadError(Null, "status"))
  {
  }
}
