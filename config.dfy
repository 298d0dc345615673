/**
 * `OandaConfig`: credentials and target environment read once from the
 * process environment, the broker URLs chosen from the environment name,
 * credential validation and the HTTP headers.  The environment variables
 * are parameters (`None` = the variable is unset).
 */
module Config {
  import opened Wrappers

  const PracticeApiUrl := "https://api-fxpractice.oanda.com"
  const PracticeStreamUrl := "https://stream-fxpractice.oanda.com"
  const TradeApiUrl := "https://api-fxtrade.oanda.com"
  const TradeStreamUrl := "https://stream-fxtrade.oanda.com"

  const MissingApiKey := "OANDA_API_KEY not found in environment variables"
  const MissingAccountId := "OANDA_ACCOUNT_ID not found in environment variables"

  datatype OandaConfig = OandaConfig(
    apiKey: Option<string>,
    accountId: Option<string>,
    environment: string,
    apiUrl: string,
    streamUrl: string)

  datatype Headers = Headers(authorization: string, contentType: string)

  /** Python truthiness of an optional string: set and non-empty. */
  predicate Present(v: Option<string>) {
    v.Some? && v.value != ""
  }

  /** The constructor: the environment defaults to "practice" only when unset. */
  function Load(apiKey: Option<string>, accountId: Option<string>, environment: Option<string>): (c: OandaConfig)
    ensures c.apiKey == apiKey && c.accountId == accountId
    ensures environment.None? ==> c.environment == "practice"
    ensures environment.Some? ==> c.environment == environment.value
    ensures c.environment == "practice" ==> c.apiUrl == PracticeApiUrl && c.streamUrl == PracticeStreamUrl
    ensures c.environment != "practice" ==> c.apiUrl == TradeApiUrl && c.streamUrl == TradeStreamUrl
  {
    var env := if environment.Some? then environment.value else "practice";
    if env == "practice" then
      OandaConfig(apiKey, accountId, env, PracticeApiUrl, PracticeStreamUrl)
    else
      OandaConfig(apiKey, accountId, env, TradeApiUrl, TradeStreamUrl)
  }

  /** `validate_config`: the key is checked before the account id; `Err` is the raised ValueError. */
  function Validate(c: OandaConfig): (r: Result<bool, string>)
    ensures r.Ok? <==> Present(c.apiKey) && Present(c.accountId)
    ensures r.Ok? ==> r.value
    ensures !Present(c.apiKey) ==> r == Err(MissingApiKey)
    ensures Present(c.apiKey) && !Present(c.accountId) ==> r == Err(MissingAccountId)
  {
    if !Present(c.apiKey) then Err(MissingApiKey)
    else if !Present(c.accountId) then Err(MissingAccountId)
    else Ok(true)
  }

  /** Python's `str()` of an optional string inside an f-string. */
  function Show(v: Option<string>): string {
    if v.Some? then v.value else "None"
  }

  /** `get_headers`: a bearer token built from whatever the key is, even when it is unset. */
  function GetHeaders(c: OandaConfig): (h: Headers)
    ensures h.contentType == "application/json"
    ensures |h.authorization| >= 7 && h.authorization[..7] == "Bearer "
    ensures c.apiKey.Some? ==> h.authorization[7..] == c.apiKey.value
    ensures c.apiKey.None? ==> h.authorization == "Bearer None"
  {
    Headers("Bearer " + Show(c.apiKey), "application/json")
  }

  /** The two URLs always name the same environment: never a practice API with a live stream. */
  lemma UrlsAgree(apiKey: Option<string>, accountId: Option<string>, environment: Option<string>)
    ensures var c := Load(apiKey, accountId, environment);
      (c.apiUrl == PracticeApiUrl <==> c.streamUrl == PracticeStreamUrl)
      && (c.apiUrl == PracticeApiUrl <==> environment.None? || environment.value == "practice")
  {
  }

  /** An empty variable is not the default: it selects the live URLs. */
  lemma EmptyEnvironmentIsLive(apiKey: Option<string>, accountId: Option<string>)
    ensures Load(apiKey, accountId, Some("")).apiUrl == TradeApiUrl
  {
  }

  /** Validation depends only on the credentials, never on the environment. */
  lemma ValidationIgnoresEnvironment(apiKey: Option<string>, accountId: Option<string>, e1: Option<string>, e2: Option<string>)
    ensures Validate(Load(apiKey, accountId, e1)) == Validate(Load(apiKey, accountId, e2))
  {
  }
}
