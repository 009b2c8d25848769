/**
 * The PayPal HTTP client. Every method of its axios instance is reached
 * through a proxy that runs the call and, when PayPal answers 401, increments
 * a retry count, authenticates once and retries the call once with the fresh
 * bearer token. A call whose retry count already exceeds MAX_ATTEMPTS fails
 * without reaching PayPal.
 *
 * The PayPal API is a scripted sequence of outcomes, one per request sent,
 * and every request the axios instance sends is recorded in order.
 */
module HttpClient {
  import opened Js
  import opened PaypalTypes

  /** Largest retry count a wrapped call still runs with. */
  const MAX_ATTEMPTS: nat := 2

  /** The message of the error a wrapped call throws past MAX_ATTEMPTS. */
  const ATTEMPTS_MESSAGE := "An error occurred while requesting Paypal API after 2 attempts"

  /** The two PayPal environments; their base URLs are defined outside this model. */
  datatype Environment = Live | Sandbox

  /** Request targets: the OAuth2 token endpoint, or any other API path. */
  datatype Url = AuthPath | ApiPath(path: string)

  datatype BasicAuth = BasicAuth(username: Option<string>, password: Option<string>)

  /** A response body: a flat JSON object. */
  type Json = map<string, string>

  /** An axios request config. */
  datatype Config = Config(
    verb: string,
    url: Url,
    headers: map<string, string>,
    auth: Option<BasicAuth>,
    data: Option<string>)

  /**
   * What PayPal does with one request: answer it with a body, or fail it with
   * an HTTP status (None when no response arrived at all).
   */
  datatype Outcome = Answered(data: Json) | Refused(status: Option<int>)

  /** Why a wrapped call rejects: an axios error, or the client's own error. */
  datatype Failure = HttpFailure(status: Option<int>) | ClientError(message: string)

  /** How a wrapped call settles: with the response's `data`, or by throwing. */
  datatype Reply = Returned(data: Json) | Threw(failure: Failure)

  /** How `authenticate` settles. */
  datatype Settled = Resolved | Rejected(failure: Failure)

  /**
   * The client's access token together with the scripted API: the outcomes
   * still to come and the requests sent so far.
   */
  datatype Conn = Conn(accessToken: Option<string>, script: seq<Outcome>, sent: seq<Config>)

  /** The outcome of a request sent after the script has run out. */
  const NO_RESPONSE: Outcome := Refused(None)

  /** The base URL chosen by the constructor. */
  function BaseUrl(options: Options): (e: Environment)
    ensures e == Sandbox <==> Truthy(options.sandbox)
  {
    if Truthy(options.sandbox) then Sandbox else Live
  }

  /** A template-literal bearer header: an unset token prints as "undefined". */
  function Bearer(token: Option<string>): string {
    "Bearer " + (match token case Some(t) => t case None => "undefined")
  }

  /** The config `request` hands to the wrapped axios `request`. */
  function RequestConfig(url: string, data: Option<string>, verb: Option<string>, token: Option<string>): (c: Config)
    ensures verb.None? ==> c.verb == "POST"
    ensures verb.Some? ==> c.verb == verb.value
    ensures c.url == ApiPath(url) && c.data == data && c.auth == None
    ensures c.headers.Keys == {"Content-Type", "Authorization"}
    ensures c.headers["Content-Type"] == "application/json"
    ensures c.headers["Authorization"] == Bearer(token)
  {
    Config(verb.GetOr("POST"), ApiPath(url),
           map["Content-Type" := "application/json", "Authorization" := Bearer(token)],
           None, data)
  }

  /** The client-credentials grant `authenticate` posts. */
  function AuthConfig(options: Options): (r: Config)
    ensures r.verb == "POST" && r.url == AuthPath && r.data == Some("grant_type=client_credentials")
    ensures r.auth == Some(BasicAuth(options.clientId, options.clientSecret))
    ensures r.headers.Keys == {"Content-Type"} && r.headers["Content-Type"] == "application/x-www-form-urlencoded"
  {
    Config("POST", AuthPath,
           map["Content-Type" := "application/x-www-form-urlencoded"],
           Some(BasicAuth(options.clientId, options.clientSecret)),
           Some("grant_type=client_credentials"))
  }

  /** The retried config: the original with its Authorization header replaced. */
  function WithBearer(c: Config, token: Option<string>): (r: Config)
    ensures r.verb == c.verb && r.url == c.url && r.auth == c.auth && r.data == c.data
    ensures r.headers.Keys == c.headers.Keys + {"Authorization"}
    ensures r.headers["Authorization"] == Bearer(token)
    ensures forall h :: h in c.headers && h != "Authorization" ==> r.headers[h] == c.headers[h]
  {
    c.(headers := c.headers["Authorization" := Bearer(token)])
  }

  /** `res.access_token`, undefined when the body has no such field. */
  function TokenOf(body: Json): (r: Option<string>)
    ensures r.Some? <==> "access_token" in body
    ensures r.Some? ==> r.value == body["access_token"]
  {
    if "access_token" in body then Some(body["access_token"]) else None
  }

  /** A request sent without the wrapper: its outcome becomes the reply. */
  function Settle(o: Outcome): Reply {
    match o
    case Answered(d) => Returned(d)
    case Refused(status) => Threw(HttpFailure(status))
  }

  /** One request through the bare axios instance: it is logged and takes the next scripted outcome. */
  function Exchange(s: Conn, c: Config): (r: (Outcome, Conn))
    ensures r.1 == s.(script := r.1.script, sent := s.sent + [c])
    ensures s.script != [] ==> r.0 == s.script[0] && r.1.script == s.script[1..]
    ensures s.script == [] ==> r.0 == NO_RESPONSE && r.1.script == []
  {
    if s.script == [] then (NO_RESPONSE, s.(sent := s.sent + [c]))
    else (s.script[0], s.(script := s.script[1..], sent := s.sent + [c]))
  }

  /**
   * How many requests a wrapped call with the given retry count can send at
   * most: the call itself, the authentication's own wrapped call, and the retry.
   */
  function Budget(retryCount: nat): nat {
    if retryCount > MAX_ATTEMPTS then 0 else 2 * (MAX_ATTEMPTS - retryCount) + 1
  }

  /**
   * A call through the proxy: `retryIfNecessary(method)(config, originalConfig, retryCount)`.
   * It never sends more than Budget(retryCount) requests and only appends to the log.
   */
  function Wrapped(s: Conn, options: Options, config: Config, original: Option<Config>, retryCount: nat): (r: (Reply, Conn))
    ensures retryCount > MAX_ATTEMPTS ==> r == (Threw(ClientError(ATTEMPTS_MESSAGE)), s)
    ensures s.sent <= r.1.sent
    ensures |r.1.sent| <= |s.sent| + Budget(retryCount)
    ensures retryCount <= MAX_ATTEMPTS ==> |r.1.sent| > |s.sent| && r.1.sent[|s.sent|] == config
    decreases MAX_ATTEMPTS + 1 - retryCount, 1
  {
    if retryCount > MAX_ATTEMPTS then (Threw(ClientError(ATTEMPTS_MESSAGE)), s)
    else
      var (o, s1) := Exchange(s, config);
      match o
      case Answered(d) => (Returned(d), s1)
      case Refused(status) =>
        if status != Some(401) then (Threw(HttpFailure(status)), s1)
        else
          var orig := original.GetOr(config);
          var (a, s2) := Authentication(s1, options, Some(orig), retryCount + 1);
          match a
          case Rejected(f) => (Threw(f), s2)
          case Resolved =>
            var (o2, s3) := Exchange(s2, WithBearer(orig, s2.accessToken));
            (Settle(o2), s3)
  }

  /**
   * `authenticate(originalConfig, retryCount)`: the client-credentials grant
   * through the proxy, then the token taken from the answer.
   */
  function Authentication(s: Conn, options: Options, original: Option<Config>, retryCount: nat): (r: (Settled, Conn))
    ensures retryCount > MAX_ATTEMPTS ==> r == (Rejected(ClientError(ATTEMPTS_MESSAGE)), s)
    ensures s.sent <= r.1.sent
    ensures |r.1.sent| <= |s.sent| + Budget(retryCount)
    ensures retryCount <= MAX_ATTEMPTS ==> |r.1.sent| > |s.sent| && r.1.sent[|s.sent|] == AuthConfig(options)
    decreases MAX_ATTEMPTS + 1 - retryCount, 2
  {
    var (reply, s1) := Wrapped(s, options, AuthConfig(options), original, retryCount);
    match reply
    case Returned(d) => (Resolved, s1.(accessToken := TokenOf(d)))
    case Threw(f) => (Rejected(f), s1)
  }

  /**
   * A 401 below the cap whose grant request fails with another status: the
   * failure is rethrown, there is no retry and the token is unchanged.
   */
  lemma {:induction false} UnauthorizedGrantFailureRethrown(s: Conn, options: Options, config: Config,
                                                             original: Option<Config>, retryCount: nat, st: Option<int>)
    requires retryCount < MAX_ATTEMPTS && st != Some(401)
    requires |s.script| >= 2 && s.script[0] == Refused(Some(401)) && s.script[1] == Refused(st)
    ensures Wrapped(s, options, config, original, retryCount)
         == (Threw(HttpFailure(st)), Conn(s.accessToken, s.script[2..], s.sent + [config, AuthConfig(options)]))
  {
    var (o, s1) := Exchange(s, config);
    assert o == Refused(Some(401));
    var (o2, s2) := Exchange(s1, AuthConfig(options));
    assert o2 == Refused(st) && s1.script[1..] == s.script[2..];
    var orig := Some(original.GetOr(config));
    assert Wrapped(s1, options, AuthConfig(options), orig, retryCount + 1) == (Threw(HttpFailure(st)), s2);
    assert Authentication(s1, options, orig, retryCount + 1) == (Rejected(HttpFailure(st)), s2);
    assert s2 == Conn(s.accessToken, s.script[2..], s.sent + [config, AuthConfig(options)]);
  }

  /** A top-level request (retry count 0) sends at most five requests, whatever PayPal answers. */
  lemma RequestSendsAtMostFive(s: Conn, options: Options, config: Config)
    ensures |Wrapped(s, options, config, None, 0).1.sent| <= |s.sent| + 5
  {
  }

  /**
   * Authentication posts the client-credentials grant and, when PayPal
   * answers it, stores the answer's `access_token`; nothing else changes.
   */
  lemma AuthenticationStoresToken(s: Conn, options: Options, original: Option<Config>, retryCount: nat, grant: Json)
    requires retryCount <= MAX_ATTEMPTS
    requires s.script != [] && s.script[0] == Answered(grant)
    ensures Authentication(s, options, original, retryCount)
         == (Resolved, Conn(TokenOf(grant), s.script[1..], s.sent + [AuthConfig(options)]))
  {
  }

  /**
   * Any non-empty string turns the sandbox on, "false" included: an
   * environment variable set to "false" still selects the sandbox.
   */
  lemma SandboxStringFalse(options: Options)
    requires options.sandbox == Str("false")
    ensures BaseUrl(options) == Sandbox
  {
  }

  /** A successful call returns the response's data and leaves the token alone. */
  lemma FirstAnswerReturned(s: Conn, options: Options, config: Config, original: Option<Config>, retryCount: nat, d: Json)
    requires retryCount <= MAX_ATTEMPTS
    requires s.script != [] && s.script[0] == Answered(d)
    ensures Wrapped(s, options, config, original, retryCount)
         == (Returned(d), Conn(s.accessToken, s.script[1..], s.sent + [config]))
  {
  }

  /** Any failure other than 401 is rethrown as it is: no authentication, no retry. */
  lemma OtherFailureRethrown(s: Conn, options: Options, config: Config, original: Option<Config>, retryCount: nat)
    requires retryCount <= MAX_ATTEMPTS
    requires s.script == [] || (s.script[0].Refused? && s.script[0].status != Some(401))
    ensures Wrapped(s, options, config, original, retryCount)
         == (Threw(HttpFailure(if s.script == [] then None else s.script[0].status)),
             Conn(s.accessToken, if s.script == [] then [] else s.script[1..], s.sent + [config]))
  {
  }

  /**
   * A 401 below the cap: the client authenticates once, stores the token it
   * gets, and retries once with that token; the retry's outcome is the reply.
   */
  lemma UnauthorizedRetriesOnce(s: Conn, options: Options, config: Config, original: Option<Config>,
                                retryCount: nat, grant: Json, last: Outcome, rest: seq<Outcome>)
    requires retryCount < MAX_ATTEMPTS
    requires s.script == [Refused(Some(401)), Answered(grant), last] + rest
    ensures Wrapped(s, options, config, original, retryCount)
         == (Settle(last),
             Conn(TokenOf(grant), rest,
                  s.sent + [config, AuthConfig(options), WithBearer(original.GetOr(config), TokenOf(grant))]))
  {
    var orig := original.GetOr(config);
    var auth := AuthConfig(options);
    var s1 := Conn(s.accessToken, [Answered(grant), last] + rest, s.sent + [config]);
    assert s.script[1..] == [Answered(grant), last] + rest;
    assert Exchange(s, config) == (Refused(Some(401)), s1);
    var s2 := Conn(s.accessToken, [last] + rest, s1.sent + [auth]);
    assert s1.script[1..] == [last] + rest;
    assert Exchange(s1, auth) == (Answered(grant), s2);
    assert Wrapped(s1, options, auth, Some(orig), retryCount + 1) == (Returned(grant), s2);
    var s3 := s2.(accessToken := TokenOf(grant));
    assert Authentication(s1, options, Some(orig), retryCount + 1) == (Resolved, s3);
    assert ([last] + rest)[1..] == rest;
    var s4 := Conn(TokenOf(grant), rest, s2.sent + [WithBearer(orig, TokenOf(grant))]);
    assert Exchange(s3, WithBearer(orig, TokenOf(grant))) == (last, s4);
    assert Wrapped(s, options, config, original, retryCount) == (Settle(last), s4);
    assert s4.sent == s.sent + [config, auth, WithBearer(orig, TokenOf(grant))];
  }

  /** A 401 at the cap cannot authenticate: the call fails after its one request. */
  lemma UnauthorizedAtCapExhausted(s: Conn, options: Options, config: Config, original: Option<Config>)
    requires s.script != [] && s.script[0] == Refused(Some(401))
    ensures Wrapped(s, options, config, original, MAX_ATTEMPTS)
         == (Threw(ClientError(ATTEMPTS_MESSAGE)), Conn(s.accessToken, s.script[1..], s.sent + [config]))
  {
  }

  /**
   * Whenever a call answered 401 ends in a reply with data, the last request
   * it sent is the original config carrying the token the client now holds.
   */
  lemma RetryCarriesCurrentToken(s: Conn, options: Options, config: Config, original: Option<Config>, retryCount: nat)
    requires retryCount <= MAX_ATTEMPTS
    requires s.script != [] && s.script[0] == Refused(Some(401))
    ensures var r := Wrapped(s, options, config, original, retryCount);
            r.0.Returned? ==>
              |r.1.sent| > |s.sent| + 1 &&
              r.1.sent[|r.1.sent| - 1] == WithBearer(original.GetOr(config), r.1.accessToken)
  {
  }

  /**
   * A 401 on the authentication request itself: the nested wrapper keeps the
   * outer original config, so after re-authenticating it re-sends the
   * original request, not the grant, and the outer authentication takes its
   * token from that request's answer.
   */
  lemma NestedUnauthorizedResendsOriginal(options: Options, config: Config, grant: Json, d1: Json, d2: Json)
    requires config != AuthConfig(options)
    ensures var s := Conn(None, [Refused(Some(401)), Refused(Some(401)), Answered(grant), Answered(d1), Answered(d2)], []);
            var r := Wrapped(s, options, config, None, 0);
            r.0 == Returned(d2) &&
            r.1.accessToken == TokenOf(d1) &&
            r.1.sent == [config, AuthConfig(options), AuthConfig(options),
                         WithBearer(config, TokenOf(grant)), WithBearer(config, TokenOf(d1))] &&
            r.1.sent[3] != AuthConfig(options)
  {
  }

  /**
   * In the nested case the second re-send of the original carries the token
   * taken from the first re-send's answer. An API answer has no
   * `access_token`, so that request goes out as `Bearer undefined`, the
   * client is left without a token, and that request's outcome is the reply.
   */
  lemma NestedRetrySendsUndefinedBearer(options: Options, config: Config, grant: Json, d1: Json, last: Outcome)
    requires "access_token" !in d1
    ensures var s := Conn(None, [Refused(Some(401)), Refused(Some(401)), Answered(grant), Answered(d1), last], []);
            var r := Wrapped(s, options, config, None, 0);
            r.0 == Settle(last) &&
            r.1.accessToken == None &&
            |r.1.sent| == 5 &&
            r.1.sent[3] == WithBearer(config, TokenOf(grant)) &&
            r.1.sent[4].headers["Authorization"] == "Bearer undefined"
  {
  }

  /** The budget of five requests is reached: three 401s deep, every retry answered. */
  lemma FiveRequestsReachable(options: Options, config: Config, grant: Json, d1: Json, d2: Json)
    ensures var s := Conn(None, [Refused(Some(401)), Refused(Some(401)), Answered(grant), Answered(d1), Answered(d2)], []);
            |Wrapped(s, options, config, None, 0).1.sent| == Budget(0)
  {
  }

  /** The client. Its fields besides the token are fixed at construction. */
  class PaypalHttpClient {
    const options: Options
    const baseUrl: Environment
    var accessToken: Option<string>
    /** PayPal's outcomes for the requests still to come. */
    var script: seq<Outcome>
    /** Every request the axios instance has sent, in order. */
    var sent: seq<Config>

    function State(): Conn
      reads this
    {
      Conn(accessToken, script, sent)
    }

    constructor (options: Options, script: seq<Outcome>)
      ensures this.options == options
      ensures baseUrl == BaseUrl(options)
      ensures State() == Conn(None, script, [])
    {
      this.options := options;
      baseUrl := if Truthy(options.sandbox) then Sandbox else Live;
      accessToken := None;
      this.script := script;
      sent := [];
    }

    /** The bare axios method: one request, no retry. */
    method Dispatch(config: Config) returns (o: Outcome)
      modifies this`script, this`sent
      ensures (o, State()) == Exchange(old(State()), config)
    {
      sent := sent + [config];
      if script == [] {
        o := NO_RESPONSE;
      } else {
        o := script[0];
        script := script[1..];
      }
    }

    /** A call through the proxy. */
    method RetryIfNecessary(config: Config, original: Option<Config>, retryCount: nat) returns (r: Reply)
      modifies this`accessToken, this`script, this`sent
      ensures (r, State()) == Wrapped(old(State()), options, config, original, retryCount)
      decreases MAX_ATTEMPTS + 1 - retryCount, 1
    {
      if retryCount > MAX_ATTEMPTS {
        return Threw(ClientError(ATTEMPTS_MESSAGE));
      }
      var o := Dispatch(config);
      if o.Answered? {
        return Returned(o.data);
      }
      if o.status != Some(401) {
        return Threw(HttpFailure(o.status));
      }
      var count := retryCount + 1;
      var orig := if original.Some? then original.value else config;
      var a := Authenticate(Some(orig), count);
      if a.Rejected? {
        return Threw(a.failure);
      }
      var retried := Dispatch(WithBearer(orig, accessToken));
      r := Settle(retried);
    }

    /** Posts the client-credentials grant through the proxy and stores the token. */
    method Authenticate(original: Option<Config>, retryCount: nat) returns (r: Settled)
      modifies this`accessToken, this`script, this`sent
      ensures (r, State()) == Authentication(old(State()), options, original, retryCount)
      decreases MAX_ATTEMPTS + 1 - retryCount, 2
    {
      var reply := RetryIfNecessary(AuthConfig(options), original, retryCount);
      if reply.Threw? {
        return Rejected(reply.failure);
      }
      accessToken := TokenOf(reply.data);
      r := Resolved;
    }

    /** `request({url, data, method})`: a JSON request with the current bearer token. */
    method Request(url: string, data: Option<string>, verb: Option<string>) returns (r: Reply)
      modifies this`accessToken, this`script, this`sent
      ensures (r, State()) == Wrapped(old(State()), options, RequestConfig(url, data, verb, old(accessToken)), None, 0)
    {
      r := RetryIfNecessary(RequestConfig(url, data, verb, accessToken), None, 0);
    }
  }
}
