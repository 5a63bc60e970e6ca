/** Reading the content a service will serve (readuri/readuri.go).

    The GET request, the body read and the `/bin/sh -c` run are foreign I/O;
    their results come in as `get` (what `http.Get` plus `io.ReadAll` give for
    a URL) and `shell` (what `CombinedOutput` gives for a command line). What
    remains is the case split on those results. */
module ReadUri {
  import opened GoTypes
  import Fmt

  /** The result of reading the whole response body. */
  datatype Body = Body(content: string) | BodyError(cause: string)

  /** The result of one GET: a transport-level failure, or a response. */
  datatype HttpOutcome = TransportError(cause: string) | HttpResponse(statusCode: int, body: Body)

  /** The result of running a command line through the shell: the interleaved
      standard output and standard error, or the failure (launch error or
      non-zero exit). */
  datatype ExecOutcome = Combined(output: string) | ExecError(cause: string)

  const FetchErrorPrefix := "error fetching URL: "
  const StatusErrorPrefix := "failed to retrieve content. Status code: "
  const BodyErrorPrefix := "error reading response body: "
  const ExecErrorPrefix := "error executing script: "

  /** A 200 response whose body could be read. */
  predicate ReadSucceeds(h: HttpOutcome) {
    h.HttpResponse? && h.statusCode == StatusOK && h.body.Body?
  }

  /** `readRemoteUriPayload(uri, script)`: the fetched body in static mode,
      the script's combined output in script mode; every failure returns the
      empty string with an error. */
  function ReadRemoteUriPayload(uri: string, script: bool, get: string -> HttpOutcome, shell: string -> ExecOutcome): (r: Ret<string>)
    ensures !r.Ok() ==> r.value == ""
    ensures r.Ok() <==> ReadSucceeds(get(uri)) && (script ==> shell(get(uri).body.content).Combined?)
    ensures r.Ok() && !script ==> r.value == get(uri).body.content
    ensures r.Ok() && script ==> r.value == shell(get(uri).body.content).output
  {
    match get(uri)
    case TransportError(cause) => Fail("", FetchErrorPrefix + cause)
    case HttpResponse(status, body) =>
      if status != StatusOK then
        Fail("", StatusErrorPrefix + Fmt.IntToDecimal(status))
      else
        match body
        case BodyError(cause) => Fail("", BodyErrorPrefix + cause)
        case Body(content) =>
          if script then
            match shell(content)
            case ExecError(cause) => Fail("", ExecErrorPrefix + cause)
            case Combined(output) => Ret(output, None)
          else
            Ret(content, None)
  }

  /** Each failure names its step: a transport error, a status other than
      200, a body that could not be read, and a failing script each produce
      their own message, carrying the cause. */
  lemma FailureNamesItsStep(uri: string, script: bool, get: string -> HttpOutcome, shell: string -> ExecOutcome)
    ensures get(uri).TransportError? ==>
      ReadRemoteUriPayload(uri, script, get, shell) == Ret("", Some(FetchErrorPrefix + get(uri).cause))
    ensures get(uri).HttpResponse? && get(uri).statusCode != StatusOK ==>
      ReadRemoteUriPayload(uri, script, get, shell) == Ret("", Some(StatusErrorPrefix + Fmt.IntToDecimal(get(uri).statusCode)))
    ensures get(uri).HttpResponse? && get(uri).statusCode == StatusOK && get(uri).body.BodyError? ==>
      ReadRemoteUriPayload(uri, script, get, shell) == Ret("", Some(BodyErrorPrefix + get(uri).body.cause))
    ensures script && ReadSucceeds(get(uri)) && shell(get(uri).body.content).ExecError? ==>
      ReadRemoteUriPayload(uri, script, get, shell) == Ret("", Some(ExecErrorPrefix + shell(get(uri).body.content).cause))
  {
  }

  /** The status error carries the observed code: the text after the fixed
      prefix reads back as the status. */
  lemma StatusErrorCarriesCode(uri: string, script: bool, get: string -> HttpOutcome, shell: string -> ExecOutcome)
    requires get(uri).HttpResponse? && get(uri).statusCode != StatusOK
    ensures var e := ReadRemoteUriPayload(uri, script, get, shell).err;
      && e.Some?
      && StartsWith(e.value, StatusErrorPrefix)
      && Fmt.ParseInt(e.value[|StatusErrorPrefix|..]) == Some(get(uri).statusCode)
  {
    var e := ReadRemoteUriPayload(uri, script, get, shell).err.value;
    var code := Fmt.IntToDecimal(get(uri).statusCode);
    assert e == StatusErrorPrefix + code;
    assert e[..|StatusErrorPrefix|] == StatusErrorPrefix;
    assert e[|StatusErrorPrefix|..] == code;
    Fmt.IntToDecimalRoundTrip(get(uri).statusCode);
  }

  /** The shell runs only in script mode and only on the body of a 200
      response that was read in full: outside that case the result does not
      depend on the shell at all, and inside it depends only on what the
      shell does with that body. */
  lemma ShellRunsOnlyOnReadBody(uri: string, script: bool, get: string -> HttpOutcome,
                                shell1: string -> ExecOutcome, shell2: string -> ExecOutcome)
    requires script && ReadSucceeds(get(uri)) ==> shell1(get(uri).body.content) == shell2(get(uri).body.content)
    ensures ReadRemoteUriPayload(uri, script, get, shell1) == ReadRemoteUriPayload(uri, script, get, shell2)
  {
  }
}
