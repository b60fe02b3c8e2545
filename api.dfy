/** The API helper: building a request URL from the base address and an
    endpoint, merging caller options over the defaults, and turning a
    non-ok response into an error. The fetch itself is not modelled: the
    response is an input. */
module Api {
  import opened Text

  const ProductionBase := "https://infinite-carwash-backend.onrender.com"
  const DevelopmentBase := "http://localhost:5000"

  /** `API_BASE_URL`, chosen by the build's NODE_ENV. */
  function ApiBase(nodeEnv: string): (base: string)
    ensures nodeEnv == "production" ==> base == ProductionBase
    ensures nodeEnv != "production" ==> base == DevelopmentBase
  {
    if nodeEnv == "production" then ProductionBase else DevelopmentBase
  }

  /** `getApiUrl`: the base, one '/', and the endpoint with at most one
      leading '/' removed. */
  function GetApiUrl(base: string, endpoint: string): string
  {
    var clean := if |endpoint| > 0 && endpoint[0] == '/' then endpoint[1..] else endpoint;
    base + "/" + clean
  }

  /** Every URL is the base followed by '/', one character longer than the
      base and endpoint together, less one when the endpoint's own slash
      was dropped; what follows the base's slash is the endpoint. */
  lemma GetApiUrlShape(base: string, endpoint: string)
    ensures base + "/" <= GetApiUrl(base, endpoint)
    ensures |endpoint| > 0 && endpoint[0] == '/' ==>
      |GetApiUrl(base, endpoint)| == |base| + |endpoint| &&
      GetApiUrl(base, endpoint)[|base|..] == endpoint
    ensures !(|endpoint| > 0 && endpoint[0] == '/') ==>
      |GetApiUrl(base, endpoint)| == |base| + |endpoint| + 1 &&
      GetApiUrl(base, endpoint)[|base| + 1..] == endpoint
  {
  }

  /** A leading slash makes no difference. */
  lemma LeadingSlashIgnored(base: string, endpoint: string)
    requires !(|endpoint| > 0 && endpoint[0] == '/')
    ensures GetApiUrl(base, "/" + endpoint) == GetApiUrl(base, endpoint)
  {
    assert ("/" + endpoint)[1..] == endpoint;
  }

  /** Only one slash is removed: a doubled slash survives as a doubled slash. */
  lemma OnlyOneSlashStripped(base: string, rest: string)
    ensures GetApiUrl(base, "//" + rest) == base + "//" + rest
  {
    assert ("//" + rest)[1..] == "/" + rest;
  }

  /** A value in a fetch options object: a string, or a headers object. */
  datatype OptionValue = Text(text: string) | Fields(fields: map<string, string>)

  const DefaultHeaders: map<string, string> :=
    map["Content-Type" := "application/json", "Accept" := "application/json"]

  const DefaultOptions: map<string, OptionValue> :=
    map["method" := Text("GET"), "headers" := Fields(DefaultHeaders)]

  /** `{ ...defaultOptions, ...options }`: a shallow merge in which the
      caller's keys win. */
  function MergeOptions(options: map<string, OptionValue>): (config: map<string, OptionValue>)
    ensures config.Keys == DefaultOptions.Keys + options.Keys
    ensures forall k :: k in options ==> config[k] == options[k]
    ensures forall k :: k in DefaultOptions && k !in options ==> config[k] == DefaultOptions[k]
  {
    DefaultOptions + options
  }

  /** The method is GET unless the caller names one, and caller headers
      replace the default headers entirely rather than adding to them. */
  lemma MergeOptionsDefaults(options: map<string, OptionValue>)
    ensures "method" !in options ==> MergeOptions(options)["method"] == Text("GET")
    ensures "headers" in options ==> MergeOptions(options)["headers"] == options["headers"]
    ensures "headers" !in options ==> MergeOptions(options)["headers"] == Fields(DefaultHeaders)
    ensures MergeOptions(map[]) == DefaultOptions
  {
  }

  /** What `fetch` answered. */
  datatype Response<T> = Response(ok: bool, status: int, data: T)

  /** What `apiRequest` hands back: the parsed data, or the error it throws. */
  datatype ApiResult<T> = Data(value: T) | HttpError(status: int)

  function HandleResponse<T>(response: Response<T>): (r: ApiResult<T>)
    ensures r.Data? <==> response.ok
    ensures r.Data? ==> r.value == response.data
    ensures r.HttpError? ==> r.status == response.status
  {
    if !response.ok then HttpError(response.status) else Data(response.data)
  }

  /** The request `apiRequest` makes: where and with which options. */
  datatype Request = Request(url: string, config: map<string, OptionValue>)

  function PrepareRequest(base: string, endpoint: string, options: map<string, OptionValue>): (r: Request)
    ensures r.url == GetApiUrl(base, endpoint) && r.config == MergeOptions(options)
  {
    Request(GetApiUrl(base, endpoint), MergeOptions(options))
  }
}
