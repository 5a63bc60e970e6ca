/** The provisioning endpoint of routing/service.go: bind and validate the
    JSON request, parse the script flag, run the pipeline with the path's
    `name`, and shape the JSON response.

    gin's JSON decoding and the validator's `url` tag, `url.Parse` and the
    pipeline's foreign calls are inputs. `strconv.ParseBool` is small enough
    to be modelled exactly. */
module Routing {
  import opened GoTypes
  import Fmt
  import ReadUri
  import Nomad
  import NomadApi

  // ---------------------------------------------------------------------
  // isHttpOrHttps

  /** What `url.Parse` gives for a string: an error, or the parsed scheme. */
  datatype UrlParse = UrlParseError(cause: string) | ParsedUrl(scheme: string)

  /** `isHttpOrHttps`: the URL parses and its scheme is "http" or "https". */
  predicate IsHttpOrHttps(uri: string, parse: string -> UrlParse) {
    match parse(uri)
    case UrlParseError(_) => false
    case ParsedUrl(scheme) => scheme == "http" || scheme == "https"
  }

  /** The scheme check holds exactly for parsed "http" and "https" URLs; a
      parse error, or any other scheme, is rejected. */
  lemma SchemeCheck(uri: string, parse: string -> UrlParse)
    ensures IsHttpOrHttps(uri, parse) <==> parse(uri) == ParsedUrl("http") || parse(uri) == ParsedUrl("https")
    ensures parse(uri).UrlParseError? ==> !IsHttpOrHttps(uri, parse)
  {
  }

  // ---------------------------------------------------------------------
  // Binding `NewServiceRequest`

  /** The request body as the JSON decoder sees it: nothing at all, text it
      cannot decode into the request struct (the decoder's message), or the
      two string fields, "" where a field is absent or null. */
  datatype RequestBody = EmptyBody | Undecodable(cause: string) | Decoded(url: string, script: string)

  datatype BindOutcome = BindFailed(message: string) | Bound(url: string, script: string)

  /** The validator's message for one field that failed one tag. */
  function FieldError(field: string, tag: string): string {
    "Key: 'NewServiceRequest." + field + "' Error:Field validation for '" + field + "' failed on the '" + tag + "' tag"
  }

  /** The first tag each field fails: `Url` is `required,url`, `Script` is
      `required`. */
  function ValidationErrors(url: string, script: string, isUrl: string -> bool): (errs: seq<string>)
    ensures |errs| == 0 <==> url != "" && isUrl(url) && script != ""
  {
    (if url == "" then [FieldError("Url", "required")]
     else if !isUrl(url) then [FieldError("Url", "url")]
     else [])
    + (if script == "" then [FieldError("Script", "required")] else [])
  }

  /** The validator's messages, one per line. */
  function JoinLines(lines: seq<string>): string {
    if |lines| == 0 then "" else if |lines| == 1 then lines[0] else lines[0] + "\n" + JoinLines(lines[1..])
  }

  /** `c.ShouldBindJSON(&payload)`: an empty body reads as "EOF", a body the
      decoder rejects reports the decoder's error, and a decoded body must pass
      validation. */
  function ShouldBindJSON(body: RequestBody, isUrl: string -> bool): (r: BindOutcome)
    ensures r.Bound? <==> body.Decoded? && body.url != "" && isUrl(body.url) && body.script != ""
    ensures r.Bound? ==> r.url == body.url && r.script == body.script
    ensures r.BindFailed? && !body.Undecodable? ==> r.message != ""
  {
    match body
    case EmptyBody => BindFailed("EOF")
    case Undecodable(cause) => BindFailed(cause)
    case Decoded(url, script) =>
      var errs := ValidationErrors(url, script, isUrl);
      if |errs| == 0 then Bound(url, script) else BindFailed(JoinLines(errs))
  }

  /** A URL that fails the `url` tag is reported under the field's name and
      that tag. */
  lemma InvalidUrlIsNamed(url: string, script: string, isUrl: string -> bool)
    requires url != "" && !isUrl(url)
    ensures ShouldBindJSON(Decoded(url, script), isUrl).BindFailed?
    ensures StartsWith(ShouldBindJSON(Decoded(url, script), isUrl).message, FieldError("Url", "url"))
  {
  }

  // ---------------------------------------------------------------------
  // strconv.ParseBool

  const TrueSpellings := {"1", "t", "T", "TRUE", "true", "True"}
  const FalseSpellings := {"0", "f", "F", "FALSE", "false", "False"}

  function ParseBool(s: string): Option<bool> {
    if s in TrueSpellings then Some(true)
    else if s in FalseSpellings then Some(false)
    else None
  }

  // ---------------------------------------------------------------------
  // Response shaping

  /** The values gin writes for the response's two fields. `JEmptyObject` is
      what `encoding/json` writes for a Go error value, whose fields are all
      unexported. */
  datatype Json = JNull | JString(text: string) | JEmptyObject

  datatype Response = Response(status: int, url: Json, error: Json)

  /** How a request ends: a response, the process exiting through
      `log.Fatal` on a flag `strconv.ParseBool` rejects, or no response
      while the pipeline is still polling. The pipeline never panics, so neither
      does the handler. */
  datatype HandlerOutcome = Responds(response: Response) | ProcessExits(flag: string) | NoResponseYet

  const GenericFailure := "something wrong happened during job creation"

  /** The failure branch as written: the error field holds an error value,
      which the JSON encoder writes as an empty object, so the message never
      reaches the client. */
  function ShapeResponseAsWritten(uriDeployed: string, err: Option<string>): (r: Response)
    ensures r.status == StatusOK
    ensures r.url.JString? <==> uriDeployed != "" && err.None?
    ensures r.url.JString? ==> r.url.text == UriScheme + uriDeployed && r.error == JNull
    ensures !r.url.JString? ==> r.url == JNull && r.error == JEmptyObject
  {
    if uriDeployed != "" && err.None? then Response(StatusOK, JString(UriScheme + uriDeployed), JNull)
    else Response(StatusOK, JNull, JEmptyObject)
  }

  /** The response shaping as intended: success exactly when the pipeline
      returned a non-empty address and no error, with the address behind
      "http://"; any failure still answers 200, with a null url and the
      generic message as the error. */
  function ShapeResponse(uriDeployed: string, err: Option<string>): (r: Response)
    ensures r.status == StatusOK
    ensures r.url.JString? <==> uriDeployed != "" && err.None?
    ensures r.url.JString? ==> r.url.text == UriScheme + uriDeployed && r.error == JNull
    ensures !r.url.JString? ==> r.url == JNull && r.error == JString(GenericFailure)
    ensures r.url == JNull <==> r.error != JNull
  {
    if uriDeployed != "" && err.None? then Response(StatusOK, JString(UriScheme + uriDeployed), JNull)
    else Response(StatusOK, JNull, JString(GenericFailure))
  }

  /** The discrepancy: on a failed run the as-written error field is the
      empty object `{}`, not the message; the intended shaping carries the
      message. Both agree on every successful run. */
  lemma FailureHidesMessage(err: string)
    ensures ShapeResponseAsWritten("", Some(err)).error == JEmptyObject
    ensures ShapeResponse("", Some(err)).error == JString(GenericFailure)
    ensures ShapeResponseAsWritten("", Some(err)) != ShapeResponse("", Some(err))
    ensures forall u: string | u != "" :: ShapeResponseAsWritten(u, None) == ShapeResponse(u, None)
  {
  }

  // ---------------------------------------------------------------------
  // ServiceProvisioner

  /** `ServiceProvisioner`, with the pipeline's inputs passed through to
      `CreateAJobAndGetUri` and the response shaped as the handler writes it:
      a failed run answers 200 with a null url and the error value, which
      reaches the client as `{}`. */
  function ServiceProvisioner(name: string, body: RequestBody, isUrl: string -> bool,
                              generated: Nomad.Generated, get: string -> ReadUri.HttpOutcome,
                              shell: string -> ReadUri.ExecOutcome, cluster: Nomad.Cluster): (r: HandlerOutcome)
    ensures ShouldBindJSON(body, isUrl).BindFailed? ==>
      r == Responds(Response(StatusBadRequest, JNull, JString(ShouldBindJSON(body, isUrl).message)))
    ensures r.ProcessExits? <==> ShouldBindJSON(body, isUrl).Bound? && ParseBool(body.script).None?
    ensures r.ProcessExits? ==> r.flag == body.script
    ensures r.Responds? && r.response.status != StatusBadRequest ==> r.response.status == StatusOK
    ensures r.Responds? && r.response.url.JString? ==>
      && ShouldBindJSON(body, isUrl).Bound?
      && ParseBool(body.script).Some?
      && var run := Nomad.CreateAJobAndGetUri(name, body.url, ParseBool(body.script).value, generated, get, shell, cluster);
         && run.Returns? && run.ret.Ok()
         && r.response == Response(StatusOK, JString(UriScheme + run.ret.value), JNull)
    ensures ShouldBindJSON(body, isUrl).Bound? && ParseBool(body.script).Some? ==>
      var run := Nomad.CreateAJobAndGetUri(name, body.url, ParseBool(body.script).value, generated, get, shell, cluster);
      run.Returns? && !run.ret.Ok() ==>
        r.Responds? && r.response.status == StatusOK && r.response.url == JNull && r.response.error == JEmptyObject
  {
    match ShouldBindJSON(body, isUrl)
    case BindFailed(message) => Responds(Response(StatusBadRequest, JNull, JString(message)))
    case Bound(url, script) =>
      match ParseBool(script)
      case None => ProcessExits(script)
      case Some(flag) =>
        var run := Nomad.CreateAJobAndGetUri(name, url, flag, generated, get, shell, cluster);
        if run.Returns? then Responds(ShapeResponseAsWritten(run.ret.value, run.ret.err)) else NoResponseYet
  }

  /** A request that binds and whose flag parses runs the pipeline with the
      path's name, the url field unchanged and the parsed flag, and the
      response is the shaping of that run's result. */
  lemma HandlerRunsPipeline(name: string, url: string, script: string, isUrl: string -> bool,
                            generated: Nomad.Generated, get: string -> ReadUri.HttpOutcome,
                            shell: string -> ReadUri.ExecOutcome, cluster: Nomad.Cluster)
    requires ShouldBindJSON(Decoded(url, script), isUrl).Bound? && ParseBool(script).Some?
    ensures var run := Nomad.CreateAJobAndGetUri(name, url, ParseBool(script).value, generated, get, shell, cluster);
      ServiceProvisioner(name, Decoded(url, script), isUrl, generated, get, shell, cluster)
        == if run.Returns? then Responds(ShapeResponseAsWritten(run.ret.value, run.ret.err)) else NoResponseYet
  {
  }

  /** Only the parsed flag matters: two spellings `strconv.ParseBool` reads
      alike ("1" and "true", say) give the same outcome. */
  lemma FlagSpellingIrrelevant(name: string, url: string, script1: string, script2: string, isUrl: string -> bool,
                               generated: Nomad.Generated, get: string -> ReadUri.HttpOutcome,
                               shell: string -> ReadUri.ExecOutcome, cluster: Nomad.Cluster)
    requires script1 != "" && script2 != ""
    requires ParseBool(script1).Some? && ParseBool(script1) == ParseBool(script2)
    ensures ServiceProvisioner(name, Decoded(url, script1), isUrl, generated, get, shell, cluster)
         == ServiceProvisioner(name, Decoded(url, script2), isUrl, generated, get, shell, cluster)
  {
  }

  /** The end-to-end guarantee: a url in the response is "http://" followed
      by the `IP:port` of the first qualifying "www" binding of the
      allocation the run read from the scheduler. */
  lemma ResponseUrlIsObserved(name: string, body: RequestBody, isUrl: string -> bool,
                              generated: Nomad.Generated, get: string -> ReadUri.HttpOutcome,
                              shell: string -> ReadUri.ExecOutcome, cluster: Nomad.Cluster)
    ensures var r := ServiceProvisioner(name, body, isUrl, generated, get, shell, cluster);
      r.Responds? && r.response.url.JString? ==>
        exists alloc, address ::
          (Nomad.ReadAllocation(cluster, alloc) && Nomad.Observed(alloc, address)
           && r.response.url == JString(UriScheme + address))
  {
    var r := ServiceProvisioner(name, body, isUrl, generated, get, shell, cluster);
    if !(r.Responds? && r.response.url.JString?) {
      return;
    }
    var flag := ParseBool(body.script).value;
    var run := Nomad.CreateAJobAndGetUri(name, body.url, flag, generated, get, shell, cluster);
    Nomad.ProvisionedAddressIsObserved(name, body.url, flag, generated, get, shell, cluster);
    var alloc :| Nomad.ReadAllocation(cluster, alloc) && Nomad.Observed(alloc, run.ret.value);
    assert Nomad.ReadAllocation(cluster, alloc) && Nomad.Observed(alloc, run.ret.value);
  }

  // ---------------------------------------------------------------------
  // A worked run

  /** The scheduler of the worked run: the client starts, registration
      succeeds, the first poll lists nothing and the second lists one
      allocation, whose details bind "www" to `ip:port`. */
  ghost predicate OneAllocationCluster(cluster: Nomad.Cluster, allocId: string, ip: string, port: int) {
    && cluster.clientError.None?
    && (forall job :: cluster.register(job).None?)
    && cluster.allocationPolls == [NomadApi.QueryOk([]), NomadApi.QueryOk([NomadApi.AllocationListStub(allocId, "pending")])]
    && cluster.allocationInfo(allocId).QueryOk?
    && cluster.allocationInfo(allocId).value.allocatedResources
         == Some(NomadApi.AllocatedResources(NomadApi.AllocatedSharedResources(
              [NomadApi.NetworkResource(ip, [NomadApi.Port("www", port)])], [])))
  }

  /** The pipeline part of the worked run: a static page and that scheduler
      give `ip:port` with no error. */
  lemma OneAllocationPipelineResolves(name: string, url: string, page: string, generated: Nomad.Generated,
                                      get: string -> ReadUri.HttpOutcome, shell: string -> ReadUri.ExecOutcome,
                                      cluster: Nomad.Cluster, allocId: string, ip: string, port: int)
    requires get(url) == ReadUri.HttpResponse(StatusOK, ReadUri.Body(page))
    requires OneAllocationCluster(cluster, allocId, ip, port) && ip != ""
    ensures Nomad.CreateAJobAndGetUri(name, url, false, generated, get, shell, cluster)
         == Returns(Ret(Fmt.HostPort(ip, port), None))
  {
    var alloc := cluster.allocationInfo(allocId).value;
    var nets := alloc.allocatedResources.value.shared.networks;
    assert Nomad.FirstWwwPort(nets[0].dynamicPorts, 0) == Some(0);
    assert Nomad.AllocationUri(alloc) == Fmt.HostPort(ip, port);
    assert Nomad.FirstAllocationFrom(cluster.allocationPolls, 1) == Nomad.AllocationFound(allocId);
  }

  /** The worked run end to end: `PUT /v1/services/{name}` with a static page
      and that scheduler answers 200 with url "http://ip:port" and a null
      error; with ip 10.0.0.5 and port 27890 the url is
      "http://10.0.0.5:27890". */
  lemma OneAllocationScenario(name: string, url: string, page: string, isUrl: string -> bool,
                              generated: Nomad.Generated, get: string -> ReadUri.HttpOutcome,
                              shell: string -> ReadUri.ExecOutcome,
                              cluster: Nomad.Cluster, allocId: string, ip: string, port: int)
    requires url != "" && isUrl(url)
    requires get(url) == ReadUri.HttpResponse(StatusOK, ReadUri.Body(page))
    requires OneAllocationCluster(cluster, allocId, ip, port) && ip != ""
    ensures ServiceProvisioner(name, Decoded(url, "false"), isUrl, generated, get, shell, cluster)
         == Responds(Response(StatusOK, JString(UriScheme + Fmt.HostPort(ip, port)), JNull))
  {
    OneAllocationPipelineResolves(name, url, page, generated, get, shell, cluster, allocId, ip, port);
    assert ParseBool("false") == Some(false);
  }
}
