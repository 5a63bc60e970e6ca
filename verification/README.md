# noaas provisioning core in Dafny

This project models the provisioning pipeline of noaas, a service that turns
a remote URL into a disposable web service on a Nomad cluster. A client asks
`PUT /v1/services/{name}` with `{"url": …, "script": …}`. The service then:

1. fetches the URL;
2. keeps the body as it is, or runs it with `/bin/sh -c` and keeps the
   combined output;
3. builds a Nomad service job that embeds that content as the template
   source of `local/index.html`, which Nomad renders and a busybox `httpd`
   serves, and that requests one dynamic port labelled `www`;
4. registers the job and polls until it has an allocation;
5. searches the allocation's networks for the `www` binding;
6. answers with `http://IP:port`.

Modules follow the source files:

- `GoTypes` holds Go's `(value, error)` returns (`Ret`) and how a call ends
  (`Exit`: returns, still polling, or panics).
- `Fmt` holds `%d` printing of integers and its inverse.
- `NomadApi` holds the Nomad API records the code builds and reads.
- `JobSpec` holds the job shape both builders share and the `www` label
  agreement.
- `ReadUri` models readuri/readuri.go.
- `Nomad` models nomad/nomad.go.
- `MainProgram` models main.go's fixed job builder and its `getJobUri`.
- `Routing` models the handler of routing/service.go.

Every foreign call is a parameter: `http.Get` with `io.ReadAll`, the shell,
each Nomad query, `url.Parse` and the validator's `url` tag. Two library
functions are small enough to be modelled exactly: `strconv.ParseBool`
(`Routing.ParseBool`) and `fmt`'s `%d` (`Fmt`). The polling loop has no bound in the program. Here it runs over a
finite sequence of scheduler answers and ends in `StillPolling` when they are
all empty.

Four behaviours of the code shape the model:

- The request's `script` field is a JSON string that `strconv.ParseBool`
  reads. It is not a JSON boolean. A flag `ParseBool` rejects ends the
  process through `log.Fatal`.
- When a `www` port sits on a network with no IP yet, the code sleeps but
  never reads the allocation again. The search just goes on to the next port
  and network, so such a port never yields an address.
- nomad/nomad.go does not check that the bound port value is positive.
  Any value, 0 included, is printed with `%d`.
- A pipeline failure after validation answers status 200 with an error, not
  an error status.

## Model

| member | source | states |
|---|---|---|
| Fmt.NatToDecimal | nomad/nomad.go:44 | the rendering of a natural number is a non-empty run of digits with no leading zero |
| Fmt.IntToDecimal | main.go:233 | `%d` of an int starts with '-' exactly for negative values and never contains ':' |
| Fmt.HostPort | nomad/nomad.go:44 | `IP:port` starts with the IP and a colon, and the text after the colon reads back as the port |
| Fmt.IntToDecimalRoundTrip | nomad/nomad.go:44 | the `%d` rendering of any int parses back to that int |
| Fmt.IntToDecimalInjective | main.go:233 | distinct port values give distinct decimal texts |
| ReadUri.ReadRemoteUriPayload | readuri/readuri.go:13-44 | success iff the response is 200 with a readable body and, in script mode, the shell succeeds; static output is the body exactly (the empty body included); script output is the combined output; every error returns "" |
| ReadUri.FailureNamesItsStep | readuri/readuri.go:14-37 | a transport error, a non-200 status, an unreadable body and a failing script each give "" and their own message carrying the cause |
| ReadUri.StatusErrorCarriesCode | readuri/readuri.go:20-22 | the status error is the fixed prefix followed by the observed code in decimal, which reads back as that code |
| ReadUri.ShellRunsOnlyOnReadBody | readuri/readuri.go:20-41 | the shell's behaviour matters only in script mode after a 200 response whose body was read, and then only on that body |
| JobSpec.EmbeddedContentOfWebJob | nomad/nomad.go:150-155 | a job built around some content gives back exactly that content as its template |
| Nomad.CreateServiceJob | nomad/nomad.go:101-171 | on a good read, the job has the UUID as ID and the caller's name as Name; it is type "service" with one group of count 1, one dynamic port "www", service PortLabel "www", task ports ["www"], the payload unchanged as the template source at local/index.html, and CPU 50 / MemoryMB 64; on a failed read there is no job and the error is the fixed "error during remote read payload" |
| Nomad.JobEmbedsFetchedContent | nomad/nomad.go:134-155 | in static mode the job embeds the fetched body unchanged as its template source; in script mode it embeds the script's combined output |
| Nomad.FirstWwwPort | nomad/nomad.go:40-45 | returns the first port labelled "www" at or after the start, or none when no later port has that label |
| Nomad.WwwUriFromEmpty | nomad/nomad.go:39-56 | the search finds no address iff no network has both an IP and a "www" port |
| Nomad.WwwUriFromWitness | nomad/nomad.go:39-56 | a found address is `IP:port` of the first qualifying port in network order, then port order |
| Nomad.AddressWitness | nomad/nomad.go:38-45 | a non-empty URI is witnessed by an allocated network with a non-empty IP and a "www" port, and is that IP, ":" and the port value |
| Nomad.NoAddressIffNoQualifyingPort | nomad/nomad.go:38-60 | no URI iff there are no allocated resources or no network with both an IP and a "www" port; a "www" port on a network without an IP never contributes |
| Nomad.SearchWwwUri | nomad/nomad.go:37-57 | the nested loops with their two breaks and the wait branch compute the same URI as the first-match search |
| Nomad.WiredGroupResolves | nomad/nomad.go:120-131 | once the scheduler gives the built group's network an IP and its port a value, the search finds exactly that `IP:port`: the builder's label and the search's label agree |
| Nomad.FirstAllocationFrom | nomad/nomad.go:79-96 | gives the first allocation's ID of the first non-empty answer, or the first query error, with every earlier answer empty; it is still polling iff every answer is empty |
| Nomad.RegisterJobAndGetAllocationID | nomad/nomad.go:66-99 | a registration error stops at once; otherwise it gives `allocs[0].ID` of the first non-empty answer, or "failed to retrieve allocations: …" on an earlier query error; every error comes with an empty ID |
| Nomad.CreateAJobAndGetUri | nomad/nomad.go:12-64 | never panics; the error is set iff the URI is empty; it is still polling only when every stage up to registration succeeded and no answer listed an allocation |
| Nomad.FirstFailingStageIsReported | nomad/nomad.go:14-34 | the first failing stage stops the run, and its error carries that stage's prefix ("failed to create Nomad client: ", "error during service job creation: ", "failed to register job / retrieve allocation ID: ", "failed to retrieve allocation info: ") or "no URI found for service www" |
| Nomad.ProvisionedAddressIsObserved | nomad/nomad.go:25-63 | a returned address is the first qualifying "www" binding of the allocation that the first non-empty poll named and the Info query returned |
| MainProgram.CreateServiceJob | main.go:94-165 | the fixed job has ID and Name "hello-world", count 1, the same "www" label in its dynamic port, service PortLabel and task ports, and the hello template |
| MainProgram.FirstRunning | main.go:190-199 | gives the first allocation stub whose ClientStatus is "running", or none when no stub is running |
| MainProgram.GetJobUri | main.go:181-235 | never polls; every error comes with ""; it succeeds iff the first running allocation resolves: its details and its node's details are read, the node's first network has a non-empty IP and the allocation's first shared port is non-zero, and then the URI is "http://" + that IP + ":" + that port; it panics iff the node has no Resources, or the IP is found and the allocation has no AllocatedResources |
| MainProgram.EachMissingPieceHasItsError | main.go:183-229 | each failed query, no running stub, an empty first-network IP (later networks are ignored) and a zero first port (also when there is none) give their own error |
| MainProgram.JobUriReadsBack | main.go:233-234 | a success URI starts with "http://", and its text after the IP and ":" reads back as the port |
| Routing.SchemeCheck | routing/service.go:28-36 | the scheme check holds iff the URL parses with scheme "http" or "https"; a parse error gives false |
| Routing.ValidationErrors | routing/service.go:18-19 | validation passes iff url is non-empty and a URL and script is non-empty |
| Routing.ShouldBindJSON | routing/service.go:17-20 | binding succeeds iff the body decodes and passes validation, and then hands both fields on unchanged |
| Routing.InvalidUrlIsNamed | routing/service.go:18 | a non-URL url fails binding with a message naming the Url field and its `url` tag |
| Routing.ShapeResponseAsWritten | routing/service.go:57-66 | as written: status 200 always; the url is "http://" + URI with a null error iff the URI is non-empty and the error is nil; on failure the url is null and the error field is the empty JSON object |
| Routing.ShapeResponse | routing/service.go:57-66 | status 200 always; url is "http://" + URI with a null error iff the URI is non-empty and the error is nil; otherwise url is null and the error is the generic message |
| Routing.FailureHidesMessage | routing/service.go:62-66 | on failure the as-written error field differs from the intended message; on success both shapings agree |
| Routing.ServiceProvisioner | routing/service.go:38-70 | a bind failure gives 400 with a null url and the binding message; an unparseable flag exits the process; a failed run answers 200 with a null url and the error value, written `{}`; a url in the response is "http://" + the address of a successful run with the path name, the url field and the parsed flag |
| Routing.FlagSpellingIrrelevant | routing/service.go:50-55 | two flag spellings that ParseBool reads alike give the same outcome |
| Routing.ResponseUrlIsObserved | routing/service.go:55-61 | a url in the response is "http://" + the first qualifying "www" binding of the allocation the run read from the scheduler |
| Routing.HandlerRunsPipeline | routing/service.go:48-55 | a request that binds and whose flag parses runs the pipeline with the path name, the url field unchanged and the parsed flag, and answers with the as-written shaping of that run |
| Routing.OneAllocationPipelineResolves | nomad/nomad.go:12-63 | worked run of the pipeline: a static page, one empty poll, then one allocation with "www" bound to ip:port, returns `ip:port` with no error |
| Routing.OneAllocationScenario | routing/service.go:38-66 | the same run through the handler answers 200 with url "http://ip:port" and a null error (for 10.0.0.5 and 27890, "http://10.0.0.5:27890") |

## Findings

| source | as written | input that shows it | evidently intended | confidence | as-written member | corrected member |
|---|---|---|---|---|---|---|
| routing/service.go:62-66 | the failure response puts the error value `fmt.Errorf("something wrong happened during job creation")` in the JSON map; `encoding/json` writes a Go error with only unexported fields as `{}` | any pipeline failure, e.g. `CreateAJobAndGetUri` returning `("", "no URI found for service www")`, gives `{"url": null, "error": {}}` | `"error": "something wrong happened during job creation"`, as the bind-failure branch does with `err.Error()` | not executed | Routing.FailureHidesMessage | Routing.ShapeResponse |

`Routing.ShapeResponseAsWritten` is the as-written shaping, and `Routing.ServiceProvisioner` uses it, as the handler does. `Routing.ShapeResponse` is the intended shaping, with its properties proved for every input.

## Left out

- The HTTP GET, the body read and the `/bin/sh -c` run. They are foreign I/O, so the `get` and `shell` parameters carry their results.
- Nomad client creation, `Register`, `Allocations`, `Allocations().Info` and `Nodes().Info`. They are foreign calls, so `Nomad.Cluster` and the query parameters of `MainProgram.GetJobUri` carry their answers. The evaluation ID from `Register` is only printed and is dropped.
- `time.Sleep`, `uuid.New()` and `time.Now()`. They are timing and randomness. `Nomad.Generated` carries the job ID and timestamp, and the sleeps have no effect on the modelled state.
- Termination of the polling loop. The code has no bound, so the model polls over a finite answer sequence and ends in `StillPolling`.
- Console output (`fmt.Println`, `fmt.Printf`). It does not affect any result.
- routing/routing.go. It is gin wiring, the health route and validator registration. The `httpOrHttps` validator it registers is not used by any struct tag, so `Routing.IsHttpOrHttps` stands alone. routing/routing.go:23 names `ServiceProvisionner`, while routing/service.go:38 defines `ServiceProvisioner`.
- The 404 for an empty `name`. Route matching happens in gin, outside the handler.
- The `execCommand` variable (readuri/readuri.go:11). Line 33 calls `exec.Command` directly, so substituting the variable, as the tests do, changes nothing. The model follows line 33. The exported/unexported name mismatch between readuri/readuri.go:13 and its callers is plumbing.
- gin's JSON decoder, `url.Parse` and the validator's `url` tag. They are library code. The decoder's error text comes in through `Undecodable`, and the other two are parameters. The empty body reads as "EOF".
- Routing.ShouldBindJSON: the validator's message is modelled only for the failures of the two declared tags, one line per failing field. gin's other binding checks are not modelled.
- The message `log.Fatal` prints for an unparseable flag. The model records only the flag text, in `ProcessExits`.
- main.go's `main()`, its `registerJob` (main.go:167-179, only called from `main()`), the pointer helpers `stringPtr`/`intToPtr`, and all commented-out code.
- Nil elements the code does not guard against and the API does not produce: a nil entry in a `Networks` slice, and an `Info` call that returns neither an allocation nor an error.
- Job fields the code never sets. The docker `Config` map is modelled as a record of its four keys.
- Nomad's template rendering. The job embeds the payload as template source (nomad/nomad.go:150-155), and Nomad renders it before `httpd` serves it; main.go's hello template relies on that. The model stops at the embedded source. The page served is the fetched body only when the body holds no `{{…}}` directives; a byte-for-byte copy is not promised here.
- Placement by the scheduler. `JobSpec.Place` is an assumption about it, not program behaviour: the networks reported for an allocation are the group's requested networks with an IP filled in and each requested port given a value, labels kept. `Nomad.WiredGroupResolves` depends on that assumption.
- Concurrency and request scheduling. Each request is one sequential run.
