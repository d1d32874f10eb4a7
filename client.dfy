/** The BusinessMap API client: the error normalisation every upstream
    failure goes through, the two connectivity probes of the utility
    module, and the one-way initialisation of the client. Each upstream
    request's outcome is an input: the reply's data, or a transport error
    with or without a reply. */
module Client {
  import opened JsValue
  import opened Text

  /** A failed request as the HTTP library reports it: its message, and the
      body of the reply when the server answered at all. */
  datatype AxiosError = AxiosError(message: string, responseData: Option<Value>)

  /** The outcome of one upstream request. */
  datatype Outcome = Reply(data: Value) | Failed(error: AxiosError)

  /** `data.error.message` when the reply body carries one as a string. */
  function ApiMessage(data: Value): (r: Option<string>)
    ensures r.Some? <==>
      data.Obj? && Has(data.props, "error") && Get(data.props, "error").Obj?
      && Get(Get(data.props, "error").props, "message").Str?
    ensures r.Some? ==> r.value == Get(Get(data.props, "error").props, "message").s
  {
    if data.Obj? && Get(data.props, "error").Obj? then
      match Get(Get(data.props, "error").props, "message")
      case Str(m) => Some(m)
      case _ => None
    else None
  }

  /** The response interceptor: an error with a reply becomes a BusinessMap
      API error carrying the API's own message when there is one and the
      transport's message otherwise; an error without a reply is a network
      error. */
  function TransformError(e: AxiosError): (r: Thrown)
    ensures r.Error?
    ensures e.responseData.Some? && ApiMessage(e.responseData.value).Some? ==>
      r.message == "BusinessMap API Error: " + ApiMessage(e.responseData.value).value
    ensures e.responseData.Some? && ApiMessage(e.responseData.value).None? ==>
      r.message == "BusinessMap API Error: " + e.message
    ensures e.responseData.None? ==> r.message == "Network Error: " + e.message
  {
    match e.responseData
    case Some(data) =>
      var apiMessage := ApiMessage(data);
      Error("BusinessMap API Error: " + (if apiMessage.Some? then apiMessage.value else e.message))
    case None => Error("Network Error: " + e.message)
  }

  /** What a client module sees of a request: the reply's data, or the
      error the interceptor rethrows. */
  function Through(o: Outcome): (r: Result<Value>)
    ensures o.Reply? <==> r.Ok?
    ensures r.Throw? ==> r.error == TransformError(o.error)
  {
    match o
    case Reply(data) => Ok(data)
    case Failed(e) => Throw(TransformError(e))
  }

  /** Every error a client module can see is an `Error` whose message names
      its kind, so the modules' "Unknown error" fallback never applies. */
  lemma ThroughErrorsNamed(o: Outcome)
    requires Through(o).Throw?
    ensures Through(o).error.Error?
    ensures var m := ErrorMessage(Through(o).error);
      StartsWith(m, "BusinessMap API Error: ") || StartsWith(m, "Network Error: ")
  {
  }

  /** `healthCheck`: true exactly when `GET /me` answers; a failure is
      reported as false, never thrown. */
  function HealthCheck(me: Outcome): (healthy: bool)
    ensures healthy <==> Through(me).Ok?
  {
    match Through(me)
    case Ok(_) => true
    case Throw(_) => false
  }

  /** The fixed description `getApiInfo` returns once `GET /me` answers. */
  const ApiInfo: Value := Obj([
    Prop("message", Str("API is responding")),
    Prop("endpoint", Str("/me")),
    Prop("status", Str("healthy")),
    Prop("note", Str("Endpoint /info is not available in the official BusinessMap API")),
    Prop("api_version", Str("v2")),
    Prop("documentation", Str("https://rdsaude.kanbanize.com/openapi/#/"))])

  /** `getApiInfo`: the fixed description when `GET /me` answers, otherwise
      an error whose message is prefixed "API connection failed: ". The
      reply's own data is not used. */
  function GetApiInfo(me: Outcome): (r: Result<Value>)
    ensures r.Ok? <==> me.Reply?
    ensures r.Ok? ==> r.value.Obj? && Get(r.value.props, "endpoint") == Str("/me") && Get(r.value.props, "status") == Str("healthy")
    ensures r.Throw? ==> r.error == Error("API connection failed: " + ErrorMessage(Through(me).error))
  {
    match Through(me)
    case Ok(_) => Ok(ApiInfo)
    case Throw(e) => Throw(Error("API connection failed: " + ErrorMessage(e)))
  }

  const UrlMissing := "API URL is not configured. Please set BUSINESSMAP_API_URL environment variable."
  const TokenMissing := "API Token is not configured. Please set BUSINESSMAP_API_TOKEN environment variable."
  const ConnectionFailed := "API connection failed - please check your API URL and token"
  const AuthenticationFailed := "Authentication failed - please verify your API token has the correct permissions"
  const InitPrefix := "Failed to initialize BusinessMap client: "

  /** The message of the first initialisation check that fails, in the
      order the checks run: URL, token, health probe, API-info probe. */
  function FirstFailure(apiUrl: string, apiToken: string, health: Outcome, info: Outcome): Option<string>
  {
    if apiUrl == "" then Some(UrlMissing)
    else if apiToken == "" then Some(TokenMissing)
    else if !HealthCheck(health) then Some(ConnectionFailed)
    else
      match GetApiInfo(info)
      case Ok(_) => None
      case Throw(e) =>
        if e.Error? && Contains(e.message, "401") then Some(AuthenticationFailed)
        else Some("API verification failed: " + ErrorMessage(e))
  }

  /** Initialisation succeeds exactly when both settings are present and
      both probes answer; a missing setting is reported before any probe,
      and the health probe before the API-info probe. */
  lemma FirstFailureOrder(apiUrl: string, apiToken: string, health: Outcome, info: Outcome)
    ensures FirstFailure(apiUrl, apiToken, health, info).None? <==>
      apiUrl != "" && apiToken != "" && health.Reply? && info.Reply?
    ensures apiUrl == "" ==> FirstFailure(apiUrl, apiToken, health, info) == Some(UrlMissing)
    ensures apiUrl != "" && apiToken == "" ==> FirstFailure(apiUrl, apiToken, health, info) == Some(TokenMissing)
    ensures apiUrl != "" && apiToken != "" && health.Failed? ==>
      FirstFailure(apiUrl, apiToken, health, info) == Some(ConnectionFailed)
  {
  }

  /** A failing API-info probe is reported as an authentication failure
      exactly when its message mentions 401, and otherwise with its message. */
  lemma InfoFailureMessage(apiUrl: string, apiToken: string, health: Outcome, info: Outcome)
    requires apiUrl != "" && apiToken != "" && health.Reply? && info.Failed?
    ensures var m := "API connection failed: " + TransformError(info.error).message;
      FirstFailure(apiUrl, apiToken, health, info) ==
        if Contains(m, "401") then Some(AuthenticationFailed) else Some("API verification failed: " + m)
  {
  }

  /** Both probes request `GET /me`. When the two requests meet the same
      outcome, the API-info probe can only fail after the health probe has
      already failed, so neither the authentication message nor the
      verification message is ever produced. */
  lemma SameOutcomeNeverReachesInfoFailure(apiUrl: string, apiToken: string, me: Outcome)
    ensures var f := FirstFailure(apiUrl, apiToken, me, me);
      f.None? || f == Some(UrlMissing) || f == Some(TokenMissing) || f == Some(ConnectionFailed)
  {
  }

  class BusinessMapClient {
    const apiUrl: string
    const apiToken: string
    var isInitialized: bool

    constructor(apiUrl: string, apiToken: string)
      ensures this.apiUrl == apiUrl && this.apiToken == apiToken && !isInitialized
    {
      this.apiUrl := apiUrl;
      this.apiToken := apiToken;
      isInitialized := false;
    }

    /** The `initialized` getter. */
    function Initialized(): (r: bool)
      reads this
      ensures r == isInitialized
    {
      isInitialized
    }

    /** `initialize`: a client already initialised returns at once and sends
        nothing. Otherwise the checks run in order; the first failure is
        rethrown with the initialisation prefix and leaves the flag down,
        and only when all pass is the flag raised. `health` and `info` are
        the outcomes of the two probes' requests; `requests` counts the
        requests sent. */
    method Initialize(health: Outcome, info: Outcome) returns (r: Result<()>, requests: nat)
      modifies this
      ensures old(isInitialized) ==> isInitialized && r == Ok(()) && requests == 0
      ensures !old(isInitialized) ==>
        match FirstFailure(apiUrl, apiToken, health, info)
        case None => isInitialized && r == Ok(())
        case Some(m) => !isInitialized && r == Throw(Error(InitPrefix + m))
      ensures !old(isInitialized) ==>
        requests == (if apiUrl == "" || apiToken == "" then 0 else if health.Failed? then 1 else 2)
    {
      if isInitialized {
        return Ok(()), 0;
      }
      requests := 0;
      var failure: Option<string> := None;
      if apiUrl == "" {
        failure := Some(UrlMissing);
      } else if apiToken == "" {
        failure := Some(TokenMissing);
      } else {
        var isHealthy := HealthCheck(health);
        requests := requests + 1;
        if !isHealthy {
          failure := Some(ConnectionFailed);
        } else {
          var apiInfo := GetApiInfo(info);
          requests := requests + 1;
          if apiInfo.Throw? {
            var e := apiInfo.error;
            if e.Error? && Contains(e.message, "401") {
              failure := Some(AuthenticationFailed);
            } else {
              failure := Some("API verification failed: " + ErrorMessage(e));
            }
          }
        }
      }
      if failure.Some? {
        r := Throw(Error(InitPrefix + failure.value));
      } else {
        isInitialized := true;
        r := Ok(());
      }
    }
  }

  /** The flag is one-way: once a call succeeds, every later call succeeds
      without a request, whatever the upstream outcomes. */
  method InitializeIsSticky(url: string, token: string, h1: Outcome, i1: Outcome, h2: Outcome, i2: Outcome)
    returns (first: Result<()>, second: Result<()>, secondRequests: nat)
    requires FirstFailure(url, token, h1, i1).None?
    ensures first == Ok(()) && second == Ok(()) && secondRequests == 0
  {
    var client := new BusinessMapClient(url, token);
    var n;
    first, n := client.Initialize(h1, i1);
    second, secondRequests := client.Initialize(h2, i2);
  }
}
