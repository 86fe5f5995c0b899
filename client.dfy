/**
 * The client around the network calls: configuration, URLs, the wire payload
 * of a creation request, the normalisation of HTTP responses into
 * SoraClientError, job deletion and the polling loop. Each network exchange is
 * an input (the response the service gave, or the text of the exception the
 * HTTP library raised); nothing here performs I/O.
 */
module Client {
  import opened Wrappers
  import opened Values
  import opened Validation
  import opened Models

  // ----- SoraClientError -----

  /**
   * SoraClientError. The message is whatever value the client chose: usually
   * a string, but a value lifted from a response body keeps its JSON type.
   */
  datatype ClientError = ClientError(message: Value, statusCode: Option<int>, details: Option<Value>)

  /** SoraClientError(text) with no status code and no details. */
  function Plain(text: string): ClientError
  {
    ClientError(VStr(text), None, None)
  }

  // ----- Configuration -----

  /** The four configuration strings from one source (arguments or environment); None when not given. */
  datatype ConfigSources = ConfigSources(
    endpoint: Option<string>, apiKey: Option<string>, deploymentName: Option<string>, apiVersion: Option<string>)

  const DefaultApiVersion: string := "2025-04-01-preview"

  datatype ConfigError = MissingEndpoint | MissingApiKey | MissingDeploymentName

  function ConfigErrorMessage(e: ConfigError): string
  {
    match e
    case MissingEndpoint => "Azure OpenAI endpoint must be provided"
    case MissingApiKey => "Azure OpenAI API key must be provided"
    case MissingDeploymentName => "Azure OpenAI deployment name must be provided"
  }

  predicate Present(o: Option<string>)
  {
    o.Some? && o.value != ""
  }

  /** `argument or os.environ.get(NAME)`: an empty or missing argument defers to the environment. */
  function Either(argument: Option<string>, environment: Option<string>): (r: Option<string>)
    ensures Present(argument) ==> r == argument
    ensures !Present(argument) ==> r == environment
  {
    if Present(argument) then argument else environment
  }

  datatype Settings = Settings(endpoint: string, apiKey: string, deploymentName: string, apiVersion: string, timeout: int)

  /** The constructor's lookups and checks: endpoint, then API key, then deployment name. */
  function ResolveSettings(args: ConfigSources, env: ConfigSources, timeout: int): (r: Result<Settings, ConfigError>)
    ensures !Present(Either(args.endpoint, env.endpoint)) ==> r == Failure(MissingEndpoint)
    ensures (Present(Either(args.endpoint, env.endpoint)) && !Present(Either(args.apiKey, env.apiKey))) ==>
      r == Failure(MissingApiKey)
    ensures (Present(Either(args.endpoint, env.endpoint)) && Present(Either(args.apiKey, env.apiKey)) &&
      !Present(Either(args.deploymentName, env.deploymentName))) ==> r == Failure(MissingDeploymentName)
    ensures r.Success? <==>
      Present(Either(args.endpoint, env.endpoint)) && Present(Either(args.apiKey, env.apiKey)) &&
      Present(Either(args.deploymentName, env.deploymentName))
    ensures r.Success? ==>
      && r.value.endpoint != "" && r.value.apiKey != "" && r.value.deploymentName != ""
      && r.value.apiVersion == (if Present(args.apiVersion) then args.apiVersion.value
                                else if env.apiVersion.Some? then env.apiVersion.value
                                else DefaultApiVersion)
      && r.value.timeout == timeout
  {
    var endpoint := Either(args.endpoint, env.endpoint);
    var apiKey := Either(args.apiKey, env.apiKey);
    var deploymentName := Either(args.deploymentName, env.deploymentName);
    var apiVersion := if Present(args.apiVersion) then args.apiVersion.value
                      else if env.apiVersion.Some? then env.apiVersion.value
                      else DefaultApiVersion;
    if !Present(endpoint) then Failure(MissingEndpoint)
    else if !Present(apiKey) then Failure(MissingApiKey)
    else if !Present(deploymentName) then Failure(MissingDeploymentName)
    else Success(Settings(endpoint.value, apiKey.value, deploymentName.value, apiVersion, timeout))
  }

  predicate EndsWithSlash(s: string)
  {
    |s| > 0 && s[|s| - 1] == '/'
  }

  /** The endpoint after construction: a slash is appended only when it is missing. */
  function NormalizeEndpoint(e: string): (r: string)
    ensures EndsWithSlash(r)
    ensures EndsWithSlash(e) ==> r == e
    ensures !EndsWithSlash(e) ==> r == e + "/"
  {
    if EndsWithSlash(e) then e else e + "/"
  }

  /** Normalising twice is normalising once. */
  lemma NormalizeIdempotent(e: string)
    ensures NormalizeEndpoint(NormalizeEndpoint(e)) == NormalizeEndpoint(e)
  {
  }

  // ----- URLs -----

  const ApiPath: string := "openai/v1/video/generations/"

  /** _get_base_url, with urljoin on a slash-terminated endpoint and a relative path taken as concatenation. */
  function BaseUrl(endpoint: string): string
  {
    endpoint + ApiPath
  }

  /** _get_content_base_url: the same base as _get_base_url. */
  function ContentBaseUrl(endpoint: string): (r: string)
    ensures r == BaseUrl(endpoint)
  {
    endpoint + ApiPath
  }

  /** Query parameters in dict insertion order. */
  type Pairs = seq<(string, string)>

  /** q[k] = v: an existing key keeps its place and takes the new value; a new key goes last. */
  function Upsert(q: Pairs, k: string, v: string): (r: Pairs)
    ensures k in Keys(q) ==> |r| == |q| && Keys(r) == Keys(q)
    ensures k !in Keys(q) ==> r == q + [(k, v)]
    ensures |q| > 0 ==> r[0].0 == q[0].0
  {
    if |q| == 0 then [(k, v)]
    else
      KeysCons(q[0], q[1..]);
      assert [q[0]] + q[1..] == q;
      if q[0].0 == k then
        KeysCons((k, v), q[1..]);
        [(k, v)] + q[1..]
      else
        var rest := Upsert(q[1..], k, v);
        KeysCons(q[0], rest);
        [q[0]] + rest
  }

  /** After q[k] = v the key k holds v, and every entry under another key is untouched. */
  lemma {:induction false} UpsertValues(q: Pairs, k: string, v: string)
    ensures (k, v) in Upsert(q, k, v)
    ensures k in Keys(q) ==> forall i :: 0 <= i < |q| && q[i].0 != k ==> Upsert(q, k, v)[i] == q[i]
    decreases |q|
  {
    if |q| > 0 && q[0].0 != k {
      UpsertValues(q[1..], k, v);
      KeysCons(q[0], q[1..]);
      assert [q[0]] + q[1..] == q;
    }
  }

  lemma KeysCons(p: (string, string), q: Pairs)
    ensures Keys([p] + q) == [p.0] + Keys(q)
  {
  }

  /** q.update(params), one parameter at a time. */
  function Merged(q: Pairs, params: Pairs): Pairs
  {
    if |params| == 0 then q
    else
      var last := params[|params| - 1];
      Upsert(Merged(q, params[..|params| - 1]), last.0, last.1)
  }

  const DefaultQuery: Pairs := [("api-version", "preview")]

  /** "&".join(f"{k}={v}" for k, v in q.items()) */
  function QueryString(q: Pairs): string
  {
    if |q| == 0 then ""
    else if |q| == 1 then q[0].0 + "=" + q[0].1
    else q[0].0 + "=" + q[0].1 + "&" + QueryString(q[1..])
  }

  /** The URL _build_url and _build_content_url produce for a path and parameters. */
  function UrlFor(endpoint: string, path: string, params: Pairs): string
  {
    BaseUrl(endpoint) + path + "?" + QueryString(Merged(DefaultQuery, params))
  }

  /** Updating never removes a key, and api-version stays first. */
  lemma {:induction false} MergedKeepsApiVersionFirst(params: Pairs)
    ensures |Merged(DefaultQuery, params)| > 0
    ensures Merged(DefaultQuery, params)[0].0 == "api-version"
  {
    if |params| > 0 {
      MergedKeepsApiVersionFirst(params[..|params| - 1]);
    }
  }

  /**
   * With parameters that do not mention api-version, the query is
   * api-version=preview followed by the parameters in their own order.
   */
  lemma {:induction false} MergedAppends(params: Pairs)
    requires UniqueKeys(params) && "api-version" !in Keys(params)
    ensures Merged(DefaultQuery, params) == DefaultQuery + params
  {
    if |params| > 0 {
      var init := params[..|params| - 1];
      var last := params[|params| - 1];
      assert Keys(init) == Keys(params)[..|params| - 1];
      MergedAppends(init);
      assert last.0 !in Keys(DefaultQuery + init);
      assert params == init + [last];
    }
  }

  lemma {:induction false} QueryStringAppend(q: Pairs, k: string, v: string)
    requires |q| > 0
    ensures QueryString(q + [(k, v)]) == QueryString(q) + "&" + k + "=" + v
  {
    if |q| > 1 {
      assert (q + [(k, v)])[1..] == q[1..] + [(k, v)];
      QueryStringAppend(q[1..], k, v);
    }
  }

  /** The list-jobs URL: jobs?api-version=preview&limit=N. */
  lemma ListUrl(endpoint: string, limit: int)
    ensures UrlFor(endpoint, "jobs", [("limit", Decimal(limit))]) ==
      BaseUrl(endpoint) + "jobs" + "?" + "api-version=preview" + "&" + "limit" + "=" + Decimal(limit)
  {
    var params := [("limit", Decimal(limit))];
    MergedAppends(params);
    QueryStringAppend(DefaultQuery, "limit", Decimal(limit));
  }

  datatype ContentKind = Video | Gif

  /** SoraClient: the configuration it was built with; the session it manages is not modelled. */
  class SoraClient {
    var endpoint: string
    const apiKey: string
    const deploymentName: string
    const apiVersion: string
    const timeout: int

    predicate Configured(s: Settings)
      reads this
    {
      endpoint == NormalizeEndpoint(s.endpoint) && apiKey == s.apiKey &&
      deploymentName == s.deploymentName && apiVersion == s.apiVersion && timeout == s.timeout
    }

    /** The field assignments of __init__, then the slash appended in place. */
    constructor (s: Settings)
      ensures Configured(s)
    {
      endpoint := s.endpoint;
      apiKey := s.apiKey;
      deploymentName := s.deploymentName;
      apiVersion := s.apiVersion;
      timeout := s.timeout;
      new;
      if !EndsWithSlash(endpoint) {
        endpoint := endpoint + "/";
      }
    }

    /** Fills the query dict in place from params and appends it after "?". */
    method AppendQuery(url: string, params: Pairs) returns (full: string)
      ensures full == url + "?" + QueryString(Merged(DefaultQuery, params))
    {
      var query := DefaultQuery;
      var i := 0;
      while i < |params|
        invariant 0 <= i <= |params|
        invariant query == Merged(DefaultQuery, params[..i])
      {
        assert params[..i + 1][..i] == params[..i];
        query := Upsert(query, params[i].0, params[i].1);
        i := i + 1;
      }
      assert params[..i] == params;
      MergedKeepsApiVersionFirst(params);
      var queryString := QueryString(query);
      full := url;
      if queryString != "" {
        full := full + "?" + queryString;
      }
    }

    /** _build_url */
    method BuildUrl(path: string, params: Pairs) returns (url: string)
      ensures url == UrlFor(endpoint, path, params)
    {
      url := AppendQuery(BaseUrl(endpoint) + path, params);
    }

    /** _build_content_url: the same string as _build_url for the same path and params. */
    method BuildContentUrl(path: string, params: Pairs) returns (url: string)
      ensures url == UrlFor(endpoint, path, params)
    {
      url := AppendQuery(ContentBaseUrl(endpoint) + path, params);
    }
  }

  /** SoraClient(...): raises ValueError for missing configuration, or returns a configured client. */
  method Connect(args: ConfigSources, env: ConfigSources, timeout: int) returns (r: Result<SoraClient, ConfigError>)
    ensures r.Failure? <==> ResolveSettings(args, env, timeout).Failure?
    ensures r.Failure? ==> r.error == ResolveSettings(args, env, timeout).error
    ensures r.Success? ==> fresh(r.value) && r.value.Configured(ResolveSettings(args, env, timeout).value)
    ensures r.Success? ==> EndsWithSlash(r.value.endpoint)
  {
    match ResolveSettings(args, env, timeout)
    case Failure(e) =>
      r := Failure(e);
    case Success(s) =>
      var client := new SoraClient(s);
      r := Success(client);
  }

  // ----- The creation request on the wire -----

  /** The value each wire field is taken from, with the key fallbacks and defaults of the payload. */
  function EffectiveHeight(data: Entries): Value { GetOr(data, "height", VInt(1080)) }
  function EffectiveWidth(data: Entries): Value { GetOr(data, "width", VInt(1080)) }
  function EffectiveSeconds(data: Entries): Value { GetOr(data, "n_seconds", GetOr(data, "duration", VInt(5))) }
  function EffectiveVariants(data: Entries): Value { GetOr(data, "n_variants", GetOr(data, "variants", VInt(1))) }

  /** str(v) of a number field, as the payload sends it. */
  function WireNumber(v: Value): string
  {
    PyStr(v)
  }

  /** An int goes out as its decimal numeral, which reads back as the same int; a string goes out as itself. */
  lemma WireNumberRoundTrip(v: Value)
    ensures v.VInt? ==> WireNumber(v) == Decimal(v.i) && ParseDecimal(WireNumber(v)) == Some(v.i)
    ensures v.VStr? ==> WireNumber(v) == v.s
  {
    if v.VInt? {
      DecimalRoundTrip(v.i);
    }
  }

  /** The six fields of the payload, in the order they are sent. */
  function Payload(model: string, prompt: Value, height: Value, width: Value, seconds: Value, variants: Value): (p: Entries)
    ensures Keys(p) == ["model", "prompt", "height", "width", "n_seconds", "n_variants"]
    ensures UniqueKeys(p)
  {
    var p := [("model", VStr(model)), ("prompt", prompt), ("height", VStr(WireNumber(height))),
              ("width", VStr(WireNumber(width))), ("n_seconds", VStr(WireNumber(seconds))),
              ("n_variants", VStr(WireNumber(variants)))];
    PayloadKeys(p);
    p
  }

  lemma PayloadKeys(p: Entries)
    requires |p| == 6 && p[0].0 == "model" && p[1].0 == "prompt" && p[2].0 == "height"
    requires p[3].0 == "width" && p[4].0 == "n_seconds" && p[5].0 == "n_variants"
    ensures Keys(p) == ["model", "prompt", "height", "width", "n_seconds", "n_variants"]
    ensures UniqueKeys(p)
  {
  }

  /** transformed_request */
  function WirePayload(deploymentName: string, data: Entries): Entries
  {
    Payload(deploymentName, GetOr(data, "prompt", VNone), EffectiveHeight(data), EffectiveWidth(data),
            EffectiveSeconds(data), EffectiveVariants(data))
  }

  /** The documented example: a 1080x1080, 5-second, single-variant request. */
  lemma PayloadExample(deploymentName: string, prompt: string)
    ensures WirePayload(deploymentName, ToDict(CreateRequest(prompt, 1080, 1080, 5, 1))) ==
      [("model", VStr(deploymentName)), ("prompt", VStr(prompt)), ("height", VStr("1080")),
       ("width", VStr("1080")), ("n_seconds", VStr("5")), ("n_variants", VStr("1"))]
  {
    var r := CreateRequest(prompt, 1080, 1080, 5, 1);
    var d := ToDict(r);
    ToDictShape(r);
    assert GetOr(d, "prompt", VNone) == VStr(prompt);
    assert EffectiveHeight(d) == VInt(1080) && EffectiveWidth(d) == VInt(1080);
    assert EffectiveSeconds(d) == VInt(5) && EffectiveVariants(d) == VInt(1);
    assert WirePayload(deploymentName, d) ==
      Payload(deploymentName, VStr(prompt), VInt(1080), VInt(1080), VInt(5), VInt(1));
    NumbersOnTheWire();
  }

  /** A request dict holding exactly the four values validation reads. */
  function CheckedFields(width: Value, height: Value, seconds: Value, variants: Value): (e: Entries)
    ensures Keys(e) == ["width", "height", "n_seconds", "n_variants"]
    ensures UniqueKeys(e)
  {
    [("width", width), ("height", height), ("n_seconds", seconds), ("n_variants", variants)]
  }

  /** validate_request on such a dict accepts exactly the acceptable values. */
  lemma ValidateCheckedFields(width: Value, height: Value, seconds: Value, variants: Value)
    ensures ValidateRequest(CheckedFields(width, height, seconds, variants)).Success? <==>
      Acceptable(width, height, seconds, variants)
    ensures ValidateRequest(CheckedFields(width, height, seconds, variants)).Failure? ==>
      ValidateRequest(CheckedFields(width, height, seconds, variants)).error == CheckAll(width, height, seconds, variants).error
  {
    var e := CheckedFields(width, height, seconds, variants);
    FindAt(e, 0);
    FindAt(e, 1);
    FindAt(e, 2);
    FindAt(e, 3);
  }

  /** The dictionary holding exactly the values the payload sends. */
  function EffectiveRequest(data: Entries): Entries
  {
    CheckedFields(EffectiveWidth(data), EffectiveHeight(data), EffectiveSeconds(data), EffectiveVariants(data))
  }

  /**
   * The create path as written: the payload is built from the fallbacks and
   * defaults, but validate_request checks the caller's dict, which reads only
   * n_seconds and n_variants (the latter defaulting to 1).
   */
  function PrepareSubmissionAsWritten(deploymentName: string, data: Entries): (r: Result<Entries, Fault>)
    ensures r.Success? <==> ValidateRequest(data).Success?
    ensures r.Success? ==> r.value == WirePayload(deploymentName, data)
  {
    match ValidateRequest(data)
    case Failure(f) => Failure(f)
    case Success(_) => Success(WirePayload(deploymentName, data))
  }

  /** The create path's check with the values that are sent being the values that are validated. */
  function PrepareSubmission(deploymentName: string, data: Entries): (r: Result<Entries, Fault>)
    ensures r.Success? ==> r.value == WirePayload(deploymentName, data)
    ensures r.Success? <==>
      Acceptable(EffectiveWidth(data), EffectiveHeight(data), EffectiveSeconds(data), EffectiveVariants(data))
  {
    ValidateCheckedFields(EffectiveWidth(data), EffectiveHeight(data), EffectiveSeconds(data), EffectiveVariants(data));
    match ValidateRequest(EffectiveRequest(data))
    case Failure(f) => Failure(f)
    case Success(_) => Success(WirePayload(deploymentName, data))
  }

  /**
   * What the corrected check guarantees: every payload it lets through
   * carries a supported resolution, a duration in range and a variant count
   * within the resolution's ceiling, written as decimal strings.
   */
  lemma SubmittedPayloadIsValid(deploymentName: string, data: Entries)
    requires PrepareSubmission(deploymentName, data).Success?
    ensures EffectiveWidth(data).VInt? && EffectiveHeight(data).VInt?
    ensures (EffectiveWidth(data).i, EffectiveHeight(data).i) in SupportedResolutions
    ensures PrepareSubmission(deploymentName, data).value[2].1 == VStr(Decimal(EffectiveHeight(data).i))
    ensures PrepareSubmission(deploymentName, data).value[3].1 == VStr(Decimal(EffectiveWidth(data).i))
    ensures AsNumber(EffectiveSeconds(data)).Some? &&
      MinDuration <= AsNumber(EffectiveSeconds(data)).value <= MaxDuration
    ensures AsNumber(EffectiveVariants(data)).Some? &&
      1 <= AsNumber(EffectiveVariants(data)).value <= MaxVariantsFor(EffectiveWidth(data).i, EffectiveHeight(data).i)
  {
    WireNumberRoundTrip(EffectiveHeight(data));
    WireNumberRoundTrip(EffectiveWidth(data));
  }

  /**
   * On a CreateVideoGenerationRequest, whose dict always holds n_seconds and
   * n_variants, the check as written and the corrected one agree.
   */
  lemma SubmissionChecksAgreeOnRequests(deploymentName: string, r: CreateRequest)
    ensures PrepareSubmission(deploymentName, ToDict(r)) == PrepareSubmissionAsWritten(deploymentName, ToDict(r))
  {
    var d := ToDict(r);
    ToDictShape(r);
    ValidateCheckedFields(EffectiveWidth(d), EffectiveHeight(d), EffectiveSeconds(d), EffectiveVariants(d));
    assert EffectiveWidth(d) == GetOr(d, "width", VNone) && EffectiveHeight(d) == GetOr(d, "height", VNone);
    assert EffectiveSeconds(d) == GetOr(d, "n_seconds", VNone) && EffectiveVariants(d) == GetOr(d, "n_variants", VInt(1));
  }

  /** A request dict that names its variant count "variants" rather than "n_variants". */
  function AliasedVariantsRequest(prompt: Value, width: Value, height: Value, seconds: Value, variants: Value): (e: Entries)
    ensures Keys(e) == ["prompt", "width", "height", "n_seconds", "variants"]
    ensures UniqueKeys(e)
  {
    [("prompt", prompt), ("width", width), ("height", height), ("n_seconds", seconds), ("variants", variants)]
  }

  /**
   * For such a dict, validate_request judges the default count of 1 while the
   * payload sends the count the caller gave; the corrected check judges that count.
   */
  lemma AliasedVariantsChecks(deploymentName: string, prompt: Value, width: Value, height: Value, seconds: Value, variants: Value)
    ensures var data := AliasedVariantsRequest(prompt, width, height, seconds, variants);
      && (PrepareSubmissionAsWritten(deploymentName, data).Success? <==> Acceptable(width, height, seconds, VInt(1)))
      && (PrepareSubmission(deploymentName, data).Success? <==> Acceptable(width, height, seconds, variants))
      && WirePayload(deploymentName, data)[5] == ("n_variants", VStr(WireNumber(variants)))
  {
    AliasedLookups(prompt, width, height, seconds, variants);
  }

  /** The lookups both checks and the payload make on such a dict. */
  lemma AliasedLookups(prompt: Value, width: Value, height: Value, seconds: Value, variants: Value)
    ensures var data := AliasedVariantsRequest(prompt, width, height, seconds, variants);
      && GetOr(data, "width", VNone) == width && GetOr(data, "height", VNone) == height
      && GetOr(data, "n_seconds", VNone) == seconds && GetOr(data, "n_variants", VInt(1)) == VInt(1)
      && EffectiveWidth(data) == width && EffectiveHeight(data) == height
      && EffectiveSeconds(data) == seconds && EffectiveVariants(data) == variants
  {
    AliasedFinds(AliasedVariantsRequest(prompt, width, height, seconds, variants));
  }

  lemma AliasedFinds(e: Entries)
    requires Keys(e) == ["prompt", "width", "height", "n_seconds", "variants"] && UniqueKeys(e)
    ensures Find(e, "width") == Some(e[1].1) && Find(e, "height") == Some(e[2].1)
    ensures Find(e, "n_seconds") == Some(e[3].1) && Find(e, "variants") == Some(e[4].1)
    ensures Find(e, "n_variants") == None
  {
    var ks := Keys(e);
    assert e[1].0 == ks[1] == "width";
    FindAt(e, 1);
    assert e[2].0 == ks[2] == "height";
    FindAt(e, 2);
    assert e[3].0 == ks[3] == "n_seconds";
    FindAt(e, 3);
    assert e[4].0 == ks[4] == "variants";
    FindAt(e, 4);
    assert "n_variants" !in ks;
  }

  /**
   * The discrepancy on one input: 1920x1080 admits a single variant, yet a
   * request for 4 under the key "variants" passes validation and is sent;
   * the corrected check rejects it.
   */
  lemma VariantsFallbackEscapesValidation(deploymentName: string)
    ensures var data := AliasedVariantsRequest(VStr("a fox"), VInt(1920), VInt(1080), VInt(5), VInt(4));
      && MaxVariantsFor(1920, 1080) == 1
      && PrepareSubmissionAsWritten(deploymentName, data).Success?
      && PrepareSubmissionAsWritten(deploymentName, data).value[5] == ("n_variants", VStr("4"))
      && PrepareSubmission(deploymentName, data).Failure?
  {
    FourVariantsPassAsWritten(deploymentName);
    FourVariantsFailCorrected(deploymentName);
  }

  lemma FourVariantsPassAsWritten(deploymentName: string)
    ensures var data := AliasedVariantsRequest(VStr("a fox"), VInt(1920), VInt(1080), VInt(5), VInt(4));
      && PrepareSubmissionAsWritten(deploymentName, data).Success?
      && PrepareSubmissionAsWritten(deploymentName, data).value[5] == ("n_variants", VStr("4"))
  {
    var data := AliasedVariantsRequest(VStr("a fox"), VInt(1920), VInt(1080), VInt(5), VInt(4));
    AliasedLookups(VStr("a fox"), VInt(1920), VInt(1080), VInt(5), VInt(4));
    assert Acceptable(VInt(1920), VInt(1080), VInt(5), VInt(1)) by {
      assert (1920, 1080) in SupportedResolutions;
    }
    assert WirePayload(deploymentName, data)[5] == ("n_variants", VStr(WireNumber(VInt(4))));
    NumbersOnTheWire();
  }

  lemma FourVariantsFailCorrected(deploymentName: string)
    ensures var data := AliasedVariantsRequest(VStr("a fox"), VInt(1920), VInt(1080), VInt(5), VInt(4));
      && MaxVariantsFor(1920, 1080) == 1
      && PrepareSubmission(deploymentName, data).Failure?
  {
    AliasedLookups(VStr("a fox"), VInt(1920), VInt(1080), VInt(5), VInt(4));
    assert !Acceptable(VInt(1920), VInt(1080), VInt(5), VInt(4)) by {
      assert MaxVariantsFor(1920, 1080) == 1;
    }
  }

  lemma NumbersOnTheWire()
    ensures WireNumber(VInt(1)) == "1" && WireNumber(VInt(4)) == "4" && WireNumber(VInt(5)) == "5"
    ensures WireNumber(VInt(1080)) == "1080"
  {
    assert Digits(1) == "1" && Digits(4) == "4" && Digits(5) == "5";
    assert Digits(10) == "10";
    assert Digits(108) == "108";
    assert Digits(1080) == "1080";
  }

  // ----- Responses -----

  /** What the HTTP library hands back: the status line, the Content-Type, the body, and json.loads of the body when it parses. */
  datatype Response = Response(status: int, reason: string, contentType: string, text: string, json: Option<Value>)

  /** One request: a response, or the text of the exception the HTTP library raised (connection, timeout). */
  datatype Exchange = Responded(response: Response) | Broken(text: string)

  /** response.ok */
  predicate IsOk(status: int)
  {
    status < 400
  }

  /** part in s */
  predicate Contains(s: string, part: string)
  {
    if |s| < |part| then false
    else s[..|part|] == part || Contains(s[1..], part)
  }

  predicate IsJson(contentType: string)
  {
    Contains(contentType, "application/json")
  }

  /** The "HTTP {status}: {text}" fallback message; the status reads back from it and the text ends it. */
  function HttpLine(status: int, text: string): (r: string)
    ensures |r| >= 7 + |text| && r[..5] == "HTTP " && r[|r| - |text|..] == text
    ensures ParseDecimal(r[5..|r| - |text| - 2]) == Some(status)
  {
    var numeral := Decimal(status);
    DecimalRoundTrip(status);
    var r := "HTTP " + numeral + ": " + text;
    assert r[5..|r| - |text| - 2] == numeral;
    r
  }

  /**
   * The message _handle_response gives an error body: the nested
   * error.message when "error" holds a dict, otherwise the first truthy of
   * "message", "error" and the status line.
   */
  function ErrorMessageOf(es: Entries, status: int, reason: string): (m: Value)
    ensures (Find(es, "error").Some? && Find(es, "error").value.VDict?) ==>
      m == GetOr(Find(es, "error").value.entries, "message", VNone)
    ensures !(Find(es, "error").Some? && Find(es, "error").value.VDict?) ==>
      && Truthy(m)
      && (Truthy(GetOr(es, "message", VNone)) ==> m == GetOr(es, "message", VNone))
      && (!Truthy(GetOr(es, "message", VNone)) && Truthy(GetOr(es, "error", VNone)) ==> m == GetOr(es, "error", VNone))
      && (!Truthy(GetOr(es, "message", VNone)) && !Truthy(GetOr(es, "error", VNone)) ==>
            m == VStr(HttpLine(status, reason)))
  {
    match Find(es, "error")
    case Some(VDict(inner)) => GetOr(inner, "message", VNone)
    case _ =>
      var message := GetOr(es, "message", VNone);
      var error := GetOr(es, "error", VNone);
      if Truthy(message) then message
      else if Truthy(error) then error
      else VStr(HttpLine(status, reason))
  }

  /** The body of a JSON response: {} when empty, json.loads otherwise. */
  function JsonBody(r: Response): Value
    requires r.text == "" || r.json.Some?
  {
    if r.text == "" then VDict([]) else r.json.value
  }

  predicate Unparsable(r: Response)
  {
    IsJson(r.contentType) && r.text != "" && r.json.None?
  }

  /** _handle_response */
  function HandleResponse(r: Response): (result: Result<Value, ClientError>)
    ensures result.Success? <==> IsOk(r.status) && !Unparsable(r)
    ensures result.Success? ==> result.value == if IsJson(r.contentType) then JsonBody(r) else VDict([])
    ensures result.Failure? ==> result.error.statusCode == Some(r.status)
    ensures Unparsable(r) ==> result.Failure? && result.error.message == VStr("Invalid JSON response: " + r.text)
    ensures !IsOk(r.status) && !IsJson(r.contentType) ==>
      result == Failure(ClientError(VStr(HttpLine(r.status, r.text)), Some(r.status), None))
    ensures !IsOk(r.status) && IsJson(r.contentType) && !Unparsable(r) ==>
      result.Failure? &&
      (JsonBody(r).VDict? ==> result.error.details == Some(JsonBody(r)) &&
                              result.error.message == ErrorMessageOf(JsonBody(r).entries, r.status, r.reason)) &&
      (!JsonBody(r).VDict? ==> result.error == ClientError(VStr(HttpLine(r.status, r.reason)), Some(r.status), None))
  {
    if IsJson(r.contentType) then
      if r.text != "" && r.json.None? then
        Failure(ClientError(VStr("Invalid JSON response: " + r.text), Some(r.status), None))
      else
        var data := JsonBody(r);
        if IsOk(r.status) then Success(data)
        else if data.VDict? then
          Failure(ClientError(ErrorMessageOf(data.entries, r.status, r.reason), Some(r.status), Some(data)))
        else
          Failure(ClientError(VStr(HttpLine(r.status, r.reason)), Some(r.status), None))
    else if !IsOk(r.status) then
      Failure(ClientError(VStr(HttpLine(r.status, r.text)), Some(r.status), None))
    else Success(VDict([]))
  }

  // ----- Creating a job -----

  /** An exception leaving create_video_generation_job: a SoraClientError, or the TypeError validation can raise. */
  datatype Raised = ClientFailure(error: ClientError) | TypeErrorRaised

  /** The request argument: a CreateVideoGenerationRequest or a plain dict. */
  datatype RequestInput = Typed(request: CreateRequest) | Raw(data: Entries)

  function RequestData(input: RequestInput): Entries
  {
    match input
    case Typed(r) => ToDict(r)
    case Raw(d) => d
  }

  /** The SoraClientError a ValidationError becomes. */
  function ValidationFailure(e: ValidationError): ClientError
  {
    ClientError(VStr("Invalid request parameters: " + Message(e)), None,
                Some(VDict([("validation_error", VStr(Message(e)))])))
  }

  /** response_data on the create path: {} for an empty body, the raw text wrapped when it does not parse. */
  function CreateResponseData(r: Response): Value
  {
    if r.text == "" then VDict([])
    else match r.json
      case Some(v) => v
      case None => VDict([("raw_response", VStr(r.text))])
  }

  /**
   * The create path's error message: "Unknown error" for a non-dict body,
   * else error.message, falling back to message, then the status line. A
   * present "error" that is not a dict has no .get: Failure carries the
   * AttributeError's text.
   */
  function CreateErrorMessage(data: Value, status: int, reason: string): (r: Result<Value, string>)
    ensures !data.VDict? ==> r == Success(VStr("Unknown error"))
    ensures data.VDict? && Find(data.entries, "error").None? ==>
      r == Success(GetOr(data.entries, "message", VStr(HttpLine(status, reason))))
    ensures data.VDict? && Find(data.entries, "error").Some? && Find(data.entries, "error").value.VDict? ==>
      r == Success(GetOr(Find(data.entries, "error").value.entries, "message",
                         GetOr(data.entries, "message", VStr(HttpLine(status, reason)))))
    ensures r.Failure? <==>
      data.VDict? && Find(data.entries, "error").Some? && !Find(data.entries, "error").value.VDict?
    ensures r.Failure? ==>
      r.error == "'" + TypeName(Find(data.entries, "error").value) + "' object has no attribute 'get'"
  {
    if !data.VDict? then Success(VStr("Unknown error"))
    else
      var fallback := GetOr(data.entries, "message", VStr(HttpLine(status, reason)));
      match Find(data.entries, "error")
      case None => Success(fallback)
      case Some(VDict(inner)) => Success(GetOr(inner, "message", fallback))
      case Some(other) => Failure(DecodeErrorText(WrongType(TypeName(other), ByGet)))
  }

  const CreateContext: string := "Error creating video generation job: "

  /** What a creation call did: the payload it sent, if it got that far, and how it ended. */
  datatype CreateRun = CreateRun(sent: Option<Entries>, outcome: Result<Job, Raised>)

  /** The outcome of the POST, once the payload has been sent. */
  function CreateOutcome(exchange: Exchange): (r: Result<Job, Raised>)
    ensures r.Success? <==>
      exchange.Responded? && IsOk(exchange.response.status) &&
      DecodeJob(CreateResponseData(exchange.response)).Success?
    ensures r.Success? ==> r == Success(DecodeJob(CreateResponseData(exchange.response)).value)
    ensures r.Failure? ==> r.error.ClientFailure?
    ensures exchange.Broken? ==> r == Failure(ClientFailure(Plain(CreateContext + exchange.text)))
    ensures exchange.Responded? && !IsOk(exchange.response.status) &&
            CreateErrorMessage(CreateResponseData(exchange.response), exchange.response.status,
                               exchange.response.reason).Success? ==>
      r == Failure(ClientFailure(ClientError(
             CreateErrorMessage(CreateResponseData(exchange.response), exchange.response.status,
                                exchange.response.reason).value,
             Some(exchange.response.status), Some(CreateResponseData(exchange.response)))))
    ensures exchange.Responded? && !IsOk(exchange.response.status) &&
            CreateErrorMessage(CreateResponseData(exchange.response), exchange.response.status,
                               exchange.response.reason).Failure? ==>
      r == Failure(ClientFailure(Plain(CreateContext +
             CreateErrorMessage(CreateResponseData(exchange.response), exchange.response.status,
                                exchange.response.reason).error)))
    ensures exchange.Responded? && IsOk(exchange.response.status) &&
            DecodeJob(CreateResponseData(exchange.response)).Failure? ==>
      r == Failure(ClientFailure(Plain(CreateContext +
             DecodeErrorText(DecodeJob(CreateResponseData(exchange.response)).error))))
  {
    match exchange
    case Broken(t) => Failure(ClientFailure(Plain(CreateContext + t)))
    case Responded(resp) =>
      var data := CreateResponseData(resp);
      if !IsOk(resp.status) then
        match CreateErrorMessage(data, resp.status, resp.reason)
        case Failure(t) => Failure(ClientFailure(Plain(CreateContext + t)))
        case Success(message) => Failure(ClientFailure(ClientError(message, Some(resp.status), Some(data))))
      else
        match DecodeJob(data)
        case Failure(e) => Failure(ClientFailure(Plain(CreateContext + DecodeErrorText(e))))
        case Success(job) => Success(job)
  }

  /** create_video_generation_job, corrected: the values that are sent are the values validated. */
  function CreateJob(deploymentName: string, input: RequestInput, exchange: Exchange): (run: CreateRun)
    ensures run.sent.None? <==> PrepareSubmission(deploymentName, RequestData(input)).Failure?
    ensures run.outcome.Success? ==> run.sent.Some?
    ensures run.sent.Some? ==>
      run.sent.value == WirePayload(deploymentName, RequestData(input)) && run.outcome == CreateOutcome(exchange)
    ensures PrepareSubmission(deploymentName, RequestData(input)) == Failure(TypeFault) ==>
      run.outcome == Failure(TypeErrorRaised)
    ensures forall e :: PrepareSubmission(deploymentName, RequestData(input)) == Failure(Invalid(e)) ==>
      run.outcome == Failure(ClientFailure(ValidationFailure(e)))
  {
    match PrepareSubmission(deploymentName, RequestData(input))
    case Failure(TypeFault) => CreateRun(None, Failure(TypeErrorRaised))
    case Failure(Invalid(e)) => CreateRun(None, Failure(ClientFailure(ValidationFailure(e))))
    case Success(payload) => CreateRun(Some(payload), CreateOutcome(exchange))
  }

  /**
   * create_video_generation_job as written: the caller's dict is validated,
   * the payload built from the fallbacks is sent, and the TypeError a
   * missing or non-numeric value causes inside validate_request escapes
   * unwrapped.
   */
  function CreateJobAsWritten(deploymentName: string, input: RequestInput, exchange: Exchange): (run: CreateRun)
    ensures run.sent.None? <==> ValidateRequest(RequestData(input)).Failure?
    ensures run.outcome.Success? ==> run.sent.Some?
    ensures run.sent.Some? ==>
      run.sent.value == WirePayload(deploymentName, RequestData(input)) && run.outcome == CreateOutcome(exchange)
    ensures ValidateRequest(RequestData(input)) == Failure(TypeFault) ==> run.outcome == Failure(TypeErrorRaised)
    ensures forall e :: ValidateRequest(RequestData(input)) == Failure(Invalid(e)) ==>
      run.outcome == Failure(ClientFailure(ValidationFailure(e)))
  {
    match PrepareSubmissionAsWritten(deploymentName, RequestData(input))
    case Failure(TypeFault) => CreateRun(None, Failure(TypeErrorRaised))
    case Failure(Invalid(e)) => CreateRun(None, Failure(ClientFailure(ValidationFailure(e))))
    case Success(payload) => CreateRun(Some(payload), CreateOutcome(exchange))
  }

  /**
   * A dict holding only a prompt and n_seconds = 5 (such as {"prompt": "x",
   * "n_seconds": 5}): validate_request sees None for width and height and
   * rejects the resolution, while the corrected check judges the 1080x1080
   * the payload would carry and sends it.
   */
  lemma MissingResolutionDiffers(deploymentName: string, es: Entries, exchange: Exchange)
    requires Keys(es) == ["prompt", "n_seconds"] && es[1].1 == VInt(5)
    ensures CreateJobAsWritten(deploymentName, Raw(es), exchange) ==
      CreateRun(None, Failure(ClientFailure(ValidationFailure(UnsupportedResolution(VNone, VNone)))))
    ensures CreateJob(deploymentName, Raw(es), exchange).sent.Some?
  {
    MissingResolutionLookups(es);
    assert ValidateResolution(VNone, VNone).Failure?;
    assert ValidateRequest(es) == Failure(Invalid(UnsupportedResolution(VNone, VNone)));
    NothingSentAsWritten(deploymentName, es, exchange);
    SentWhenAcceptable(deploymentName, es, 1080, 1080);
  }

  /** As written, a dict validate_request rejects is never sent, and the rejection is what the call raises. */
  lemma NothingSentAsWritten(deploymentName: string, es: Entries, exchange: Exchange)
    requires ValidateRequest(es).Failure?
    ensures CreateJobAsWritten(deploymentName, Raw(es), exchange) ==
      CreateRun(None, match ValidateRequest(es).error
                      case TypeFault => Failure(TypeErrorRaised)
                      case Invalid(e) => Failure(ClientFailure(ValidationFailure(e))))
  {
    assert RequestData(Raw(es)) == es;
    assert PrepareSubmissionAsWritten(deploymentName, es) == Failure(ValidateRequest(es).error);
  }

  /** The corrected path sends a dict whose effective values are a supported pair, 5 seconds and one variant. */
  lemma SentWhenAcceptable(deploymentName: string, es: Entries, width: int, height: int)
    requires (width, height) in SupportedResolutions
    requires EffectiveWidth(es) == VInt(width) && EffectiveHeight(es) == VInt(height)
    requires EffectiveSeconds(es) == VInt(5) && EffectiveVariants(es) == VInt(1)
    ensures PrepareSubmission(deploymentName, es).Success?
  {
    assert Acceptable(VInt(width), VInt(height), VInt(5), VInt(1));
  }

  lemma MissingResolutionLookups(es: Entries)
    requires Keys(es) == ["prompt", "n_seconds"] && es[1].1 == VInt(5)
    ensures GetOr(es, "width", VNone) == VNone && GetOr(es, "height", VNone) == VNone
    ensures EffectiveWidth(es) == VInt(1080) && EffectiveHeight(es) == VInt(1080)
    ensures EffectiveSeconds(es) == VInt(5) && EffectiveVariants(es) == VInt(1)
  {
    assert UniqueKeys(es);
    assert es[1].0 == Keys(es)[1];
    FindAt(es, 1);
  }

  /**
   * A dict holding width 1920, height 1080 and "duration" 5, in that order:
   * validate_request compares the absent n_seconds (None) with the minimum
   * and raises TypeError, while the corrected check judges the 5 seconds
   * the payload would carry and sends it.
   */
  lemma DurationAliasDiffers(deploymentName: string, es: Entries, exchange: Exchange)
    requires Keys(es) == ["width", "height", "duration"]
    requires es[0].1 == VInt(1920) && es[1].1 == VInt(1080) && es[2].1 == VInt(5)
    ensures CreateJobAsWritten(deploymentName, Raw(es), exchange) == CreateRun(None, Failure(TypeErrorRaised))
    ensures CreateJob(deploymentName, Raw(es), exchange).sent.Some?
  {
    DurationAliasLookups(es);
    DurationAliasRaises(es);
    NothingSentAsWritten(deploymentName, es, exchange);
    SentWhenAcceptable(deploymentName, es, 1920, 1080);
  }

  lemma DurationAliasRaises(es: Entries)
    requires GetOr(es, "width", VNone) == VInt(1920) && GetOr(es, "height", VNone) == VInt(1080)
    requires GetOr(es, "n_seconds", VNone) == VNone
    ensures ValidateRequest(es) == Failure(TypeFault)
  {
    assert ValidateResolution(VInt(1920), VInt(1080)).Success? by {
      assert (1920, 1080) in SupportedResolutions;
    }
    assert ValidateDuration(VInt(1920), VInt(1080), VNone) == Failure(TypeFault);
  }

  lemma DurationAliasLookups(es: Entries)
    requires Keys(es) == ["width", "height", "duration"]
    requires es[0].1 == VInt(1920) && es[1].1 == VInt(1080) && es[2].1 == VInt(5)
    ensures GetOr(es, "width", VNone) == VInt(1920) && GetOr(es, "height", VNone) == VInt(1080)
    ensures GetOr(es, "n_seconds", VNone) == VNone && GetOr(es, "n_variants", VInt(1)) == VInt(1)
    ensures EffectiveWidth(es) == VInt(1920) && EffectiveHeight(es) == VInt(1080)
    ensures EffectiveSeconds(es) == VInt(5) && EffectiveVariants(es) == VInt(1)
  {
    var ks := Keys(es);
    assert UniqueKeys(es);
    assert es[0].0 == ks[0] && es[1].0 == ks[1] && es[2].0 == ks[2];
    FindAt(es, 0);
    FindAt(es, 1);
    FindAt(es, 2);
  }

  /** A job is created only from an accepted request: every success sent a payload of acceptable values. */
  lemma CreatedJobsWereValid(deploymentName: string, input: RequestInput, exchange: Exchange)
    requires CreateJob(deploymentName, input, exchange).outcome.Success?
    ensures CreateJob(deploymentName, input, exchange).sent.Some?
    ensures var data := RequestData(input);
      Acceptable(EffectiveWidth(data), EffectiveHeight(data), EffectiveSeconds(data), EffectiveVariants(data))
  {
  }

  /**
   * A typed request is always checked as its own dict: the create path as
   * written and the corrected one behave alike on it, and it is sent iff
   * validate_request accepts its dict.
   */
  lemma TypedRequestsAreSent(deploymentName: string, r: CreateRequest, exchange: Exchange)
    ensures CreateJobAsWritten(deploymentName, Typed(r), exchange) == CreateJob(deploymentName, Typed(r), exchange)
    ensures CreateJobAsWritten(deploymentName, Typed(r), exchange).sent.Some? <==> ValidateRequest(ToDict(r)).Success?
  {
    SubmissionChecksAgreeOnRequests(deploymentName, r);
    assert RequestData(Typed(r)) == ToDict(r);
  }

  /**
   * An error body whose "error" is a string loses its status and details
   * on the create path: the message is the wrapped AttributeError.
   */
  lemma StringErrorOnCreate(status: int, reason: string, text: string, message: string)
    requires !IsOk(status) && text != ""
    ensures CreateOutcome(Responded(Response(status, reason, "application/json", text,
                                             Some(VDict([("error", VStr(message))]))))) ==
      Failure(ClientFailure(Plain(CreateContext + DecodeErrorText(WrongType("str", ByGet)))))
  {
    var es := [("error", VStr(message))];
    assert Keys(es) == ["error"];
    FindAt(es, 0);
    var resp := Response(status, reason, "application/json", text, Some(VDict(es)));
    assert CreateResponseData(resp) == VDict(es);
  }

  // ----- Reading, listing, deleting -----

  /** A GET whose body _handle_response checks and a from_dict decodes; other exceptions get the context prefix. */
  function Fetched<T>(exchange: Exchange, decode: Value -> Result<T, DecodeError>, context: string)
    : (r: Result<T, ClientError>)
    ensures r.Success? <==>
      exchange.Responded? && HandleResponse(exchange.response).Success? &&
      decode(HandleResponse(exchange.response).value).Success?
    ensures r.Success? ==> r.value == decode(HandleResponse(exchange.response).value).value
    ensures exchange.Broken? ==> r == Failure(Plain(context + exchange.text))
    ensures exchange.Responded? && HandleResponse(exchange.response).Failure? ==>
      r == Failure(HandleResponse(exchange.response).error)
    ensures exchange.Responded? && HandleResponse(exchange.response).Success? &&
            decode(HandleResponse(exchange.response).value).Failure? ==>
      r == Failure(Plain(context + DecodeErrorText(decode(HandleResponse(exchange.response).value).error)))
  {
    match exchange
    case Broken(t) => Failure(Plain(context + t))
    case Responded(resp) =>
      match HandleResponse(resp)
      case Failure(e) => Failure(e)
      case Success(data) =>
        match decode(data)
        case Failure(d) => Failure(Plain(context + DecodeErrorText(d)))
        case Success(x) => Success(x)
  }

  /** get_video_generation_job */
  function FetchJob(exchange: Exchange): Result<Job, ClientError>
  {
    Fetched(exchange, DecodeJob, "Error getting video generation job: ")
  }

  /** list_video_generation_jobs */
  function ListJobs(exchange: Exchange): Result<JobList, ClientError>
  {
    Fetched(exchange, DecodeJobList, "Error listing video generation jobs: ")
  }

  /** get_video_generation */
  function FetchGeneration(exchange: Exchange): Result<Generation, ClientError>
  {
    Fetched(exchange, DecodeGeneration, "Error getting video generation: ")
  }

  /** An error status never yields a job, a list or a generation. */
  lemma ErrorStatusNeverDecodes(r: Response)
    requires !IsOk(r.status)
    ensures FetchJob(Responded(r)) == Failure(HandleResponse(r).error)
    ensures ListJobs(Responded(r)) == Failure(HandleResponse(r).error)
    ensures FetchGeneration(Responded(r)) == Failure(HandleResponse(r).error)
    ensures HandleResponse(r).error.statusCode == Some(r.status)
  {
  }

  /** delete_video_generation_job: True on 204 or any response _handle_response accepts. */
  function DeleteJob(exchange: Exchange): (r: Result<bool, ClientError>)
    ensures r.Success? ==> r.value
    ensures r.Success? <==>
      exchange.Responded? && (exchange.response.status == 204 || HandleResponse(exchange.response).Success?)
    ensures exchange.Broken? ==> r == Failure(Plain("Error deleting video generation job: " + exchange.text))
  {
    match exchange
    case Broken(t) => Failure(Plain("Error deleting video generation job: " + t))
    case Responded(resp) =>
      if resp.status == 204 then Success(true)
      else
        match HandleResponse(resp)
        case Failure(e) => Failure(e)
        case Success(_) => Success(true)
  }

  /** Deletion succeeds exactly on a 204, or an OK status whose body, if JSON, parses. */
  lemma DeleteOutcome(r: Response)
    ensures DeleteJob(Responded(r)).Success? <==> r.status == 204 || (IsOk(r.status) && !Unparsable(r))
    ensures !IsOk(r.status) ==> DeleteJob(Responded(r)) == Failure(HandleResponse(r).error)
  {
  }

  // ----- Content -----

  function FetchContext(kind: ContentKind): string
  {
    if kind == Video then "Error getting video content: " else "Error getting GIF content: "
  }

  function SaveContext(kind: ContentKind): string
  {
    if kind == Video then "Error saving video content: " else "Error saving GIF content: "
  }

  /** get_video_content / get_gif_content: the raw body of an OK response. */
  function FetchContent(kind: ContentKind, exchange: Exchange): (r: Result<string, ClientError>)
    ensures r.Success? <==> exchange.Responded? && IsOk(exchange.response.status)
    ensures r.Success? ==> r.value == exchange.response.text
    ensures exchange.Responded? && !IsOk(exchange.response.status) ==>
      r == Failure(HandleResponse(exchange.response).error) && r.error.statusCode == Some(exchange.response.status)
    ensures exchange.Broken? ==> r == Failure(Plain(FetchContext(kind) + exchange.text))
  {
    match exchange
    case Broken(t) => Failure(Plain(FetchContext(kind) + t))
    case Responded(resp) =>
      if !IsOk(resp.status) then Failure(HandleResponse(resp).error)
      else Success(resp.text)
  }

  /**
   * save_video_content / save_gif_content: fetch, then write to the path;
   * writeError is the text of the exception the write raised, if any.
   */
  function SaveContent(kind: ContentKind, exchange: Exchange, path: string, writeError: Option<string>)
    : (r: Result<string, ClientError>)
    ensures r.Success? <==> FetchContent(kind, exchange).Success? && writeError.None?
    ensures r.Success? ==> r.value == path
    ensures FetchContent(kind, exchange).Failure? ==> r == Failure(FetchContent(kind, exchange).error)
    ensures FetchContent(kind, exchange).Success? && writeError.Some? ==>
      r == Failure(Plain(SaveContext(kind) + writeError.value))
  {
    var _ :- FetchContent(kind, exchange);
    if writeError.Some? then Failure(Plain(SaveContext(kind) + writeError.value)) else Success(path)
  }

  // ----- Polling -----

  predicate Terminal(s: StatusField)
  {
    s == Known(Succeeded) || s == Known(Failed) || s == Known(Cancelled)
  }

  /** A fetch after which polling continues. */
  predicate StillRunning(f: Result<Job, ClientError>)
  {
    f.Success? && !Terminal(f.value.status)
  }

  /** f"{job.failure_reason}": a FailureReason member formats as its qualified name. */
  function ReasonText(f: ReasonField): string
  {
    match f
    case KnownReason(r) => "FailureReason." + ReasonName(r)
    case OtherReason(v) => PyStr(v)
  }

  function FailureMessage(job: Job): string
  {
    "Job failed with reason: " + ReasonText(job.failureReason)
  }

  /**
   * How polling ended: the finished job and its generations, a
   * SoraClientError, the TimeoutError, or (in the model only) the end of
   * the fetches supplied before any of those.
   */
  datatype PollOutcome = Returned(job: Job, generations: seq<Generation>) | Raised(error: ClientError) | TimedOut | InputExhausted

  /** The outcome together with the number of fetches made. */
  datatype Polled = Polled(outcome: PollOutcome, fetches: nat)

  predicate MayPoll(maxPolls: Option<int>, polls: int)
  {
    maxPolls.None? || polls < maxPolls.value
  }

  /** Fetches made before the one that settled the outcome (all of them when none did). */
  function Rounds(p: Polled): int
  {
    if p.outcome.Returned? || p.outcome.Raised? then p.fetches - 1 else p.fetches
  }

  /**
   * poll_job_until_complete from the polls-th fetch on, given the result of
   * every get_video_generation_job call in order.
   */
  function PollFrom(fetches: seq<Result<Job, ClientError>>, maxPolls: Option<int>, polls: nat): (p: Polled)
    requires polls <= |fetches|
    decreases |fetches| - polls
    ensures polls <= p.fetches <= |fetches|
    ensures maxPolls.Some? ==> p.fetches <= if polls < maxPolls.value then maxPolls.value else polls
    ensures (p.outcome.Returned? || p.outcome.Raised?) ==> p.fetches > polls && !StillRunning(fetches[p.fetches - 1])
    ensures p.outcome.Returned? ==>
      && fetches[p.fetches - 1] == Success(p.outcome.job)
      && p.outcome.job.status in {Known(Succeeded), Known(Cancelled)}
      && p.outcome.generations == p.outcome.job.generations
    ensures p.outcome.Raised? ==>
      fetches[p.fetches - 1] == Failure(p.outcome.error) ||
      (fetches[p.fetches - 1].Success? && fetches[p.fetches - 1].value.status == Known(Failed) &&
       p.outcome.error == Plain(FailureMessage(fetches[p.fetches - 1].value)))
    ensures p.outcome.TimedOut? ==> !MayPoll(maxPolls, p.fetches)
    ensures p.outcome.InputExhausted? ==> p.fetches == |fetches| && MayPoll(maxPolls, p.fetches)
  {
    if !MayPoll(maxPolls, polls) then Polled(TimedOut, polls)
    else if polls == |fetches| then Polled(InputExhausted, polls)
    else
      match fetches[polls]
      case Failure(e) => Polled(Raised(e), polls + 1)
      case Success(job) =>
        if job.status == Known(Failed) then Polled(Raised(Plain(FailureMessage(job))), polls + 1)
        else if Terminal(job.status) then Polled(Returned(job, job.generations), polls + 1)
        else PollFrom(fetches, maxPolls, polls + 1)
  }

  /** Every fetch before the one that settled polling (every fetch, when none did) was still running. */
  lemma {:induction false} RunningUntilSettled(fetches: seq<Result<Job, ClientError>>, maxPolls: Option<int>, polls: nat)
    requires polls <= |fetches|
    ensures forall i :: polls <= i < Rounds(PollFrom(fetches, maxPolls, polls)) ==> StillRunning(fetches[i])
    decreases |fetches| - polls
  {
    if MayPoll(maxPolls, polls) && polls < |fetches| && StillRunning(fetches[polls]) {
      RunningUntilSettled(fetches, maxPolls, polls + 1);
    }
  }

  /** poll_job_until_complete; the sleep between fetches is not modelled. */
  method PollJobUntilComplete(fetches: seq<Result<Job, ClientError>>, maxPolls: Option<int>) returns (p: Polled)
    ensures p == PollFrom(fetches, maxPolls, 0)
  {
    var polls: nat := 0;
    while MayPoll(maxPolls, polls)
      invariant polls <= |fetches|
      invariant PollFrom(fetches, maxPolls, polls) == PollFrom(fetches, maxPolls, 0)
      decreases |fetches| - polls
    {
      if polls == |fetches| {
        return Polled(InputExhausted, polls);
      }
      var fetched := fetches[polls];
      if fetched.Failure? {
        return Polled(Raised(fetched.error), polls + 1);
      }
      var job := fetched.value;
      if Terminal(job.status) {
        if job.status == Known(Failed) {
          return Polled(Raised(Plain(FailureMessage(job))), polls + 1);
        }
        return Polled(Returned(job, job.generations), polls + 1);
      }
      polls := polls + 1;
    }
    return Polled(TimedOut, polls);
  }

  /** A job that never finishes exhausts max_polls after exactly that many fetches. */
  lemma PollingStopsAtMaxPolls(fetches: seq<Result<Job, ClientError>>, maxPolls: int)
    requires 0 <= maxPolls <= |fetches|
    requires forall i :: 0 <= i < |fetches| ==> StillRunning(fetches[i])
    ensures PollFrom(fetches, Some(maxPolls), 0) == Polled(TimedOut, maxPolls)
  {
  }

  /** With max_polls of zero or less nothing is fetched. */
  lemma NoPollsWithoutBudget(fetches: seq<Result<Job, ClientError>>, maxPolls: int)
    requires maxPolls <= 0
    ensures PollFrom(fetches, Some(maxPolls), 0) == Polled(TimedOut, 0)
  {
  }

  /** The first fetch that is not still running settles polling, whatever follows it. */
  lemma FirstSettledFetchDecides(fetches: seq<Result<Job, ClientError>>, k: nat)
    requires k < |fetches| && !StillRunning(fetches[k])
    requires forall i :: 0 <= i < k ==> StillRunning(fetches[i])
    ensures PollFrom(fetches, None, 0).fetches == k + 1
    ensures PollFrom(fetches, None, 0) == PollFrom(fetches[..k + 1], None, 0)
  {
    var prefix := fetches[..k + 1];
    PrefixDecides(fetches, k, 0);
    assert prefix[k] == fetches[k];
    PrefixDecides(prefix, k, 0);
  }

  /** What a settling fetch makes of polling: the job, or the error it raises. */
  function Settled(fetched: Result<Job, ClientError>, polls: nat): Polled
  {
    match fetched
    case Failure(e) => Polled(Raised(e), polls + 1)
    case Success(job) =>
      if job.status == Known(Failed) then Polled(Raised(Plain(FailureMessage(job))), polls + 1)
      else Polled(Returned(job, job.generations), polls + 1)
  }

  /** From any poll count up to the first settling fetch, polling ends with that fetch. */
  lemma {:induction false} PrefixDecides(fetches: seq<Result<Job, ClientError>>, k: nat, polls: nat)
    requires k < |fetches| && !StillRunning(fetches[k]) && polls <= k
    requires forall i :: polls <= i < k ==> StillRunning(fetches[i])
    ensures PollFrom(fetches, None, polls) == Settled(fetches[k], k)
    decreases k - polls
  {
    if polls < k {
      PrefixDecides(fetches, k, polls + 1);
      RunningFetchContinues(fetches, polls);
    } else {
      SettlingFetch(fetches, k);
    }
  }

  /** A settling fetch ends polling there. */
  lemma SettlingFetch(fetches: seq<Result<Job, ClientError>>, k: nat)
    requires k < |fetches| && !StillRunning(fetches[k])
    ensures PollFrom(fetches, None, k) == Settled(fetches[k], k)
  {
  }

  /** A fetch that is still running leads to the next one. */
  lemma RunningFetchContinues(fetches: seq<Result<Job, ClientError>>, polls: nat)
    requires polls < |fetches| && StillRunning(fetches[polls])
    ensures PollFrom(fetches, None, polls) == PollFrom(fetches, None, polls + 1)
  {
  }
}
