# CF API client of the cf-api-controllers, in Dafny

The cf-api-controllers keep the Cloud Foundry API's view of builds and
droplets in step with kpack resources in a Kubernetes cluster. Their
reconcilers reach the CF API through one small client, `cf.Client`
(`src/cf-api-controllers/cf/client.go`). This project models that client and
proves what its two operations do.

A `Client` is built by `NewClient` from three things: the API host, a `Rest`
transport (`Patch(url, token, body)`), and a `TokenFetcher` (`Fetch()`). Both
`UpdateBuild` and `UpdateDroplet` take the same four steps:

1. fetch a bearer token;
2. marshal the payload to JSON;
3. PATCH `{host}/v3/builds/{guid}` or `{host}/v3/droplets/{guid}` with that token;
4. succeed only when the response status is exactly 200.

The first failure ends the operation, and its error is returned.

Files:

- `fmt.dfy`, module `Fmt`: the part of Go's `fmt` the client uses. `Sprintf`
  models the formatting that `fmt.Sprintf` and `fmt.Errorf` do with `%s` and
  `%d`; `fmt.Errorf` itself is `Error(Fmt.Sprintf(...))` inside
  `Cf.StatusError`. `FormatInt` is `%d` printing of an `int`.
  `ParseNat` reads the digits back. It exists only to prove that `%d`
  printing is injective.
- `client.dfy`, module `Cf`:
  - the value types;
  - the `TokenFetcher` and `Rest` interfaces, modelled as fakes;
  - the `Client` class and its operations;
  - `Update`, a pure function giving the result and the complete call log of
    one operation;
  - lemmas about URLs, status errors and series of calls.
  
  Each fake collaborator answers from a script: a function of its call
  index, and for `Patch` also of the call's arguments. So a fake can act
  like any deterministic token source or transport. Both fakes append each
  call they receive to one shared `CallLog`, so that log records the order
  of calls across the two collaborators. The client's methods require the
  two fakes to share one log. That is a condition of the recording, not
  something Go's callers must meet.
- `scenarios.dfy`, module `CfScenarios`: complete runs that build fakes, a
  client and one or two updates, for any host, GUID, token and body.

`json.Marshal` is passed to the operations as a function
`marshal: P -> Marshalled`. Its result is either the bytes or an error. The
`model` package, which defines the payload types, is not part of this model,
so the payload type is a type parameter.

## Model

| member | source | states |
|---|---|---|
| `Cf.Client.NewClient` | src/cf-api-controllers/cf/client.go:13-21 | The client holds exactly the host, transport and token source it was given. Its fields are constants, so no operation changes them. |
| `Cf.TokenFetcher.Fetch` | src/cf-api-controllers/cf/client.go:33-35 | A `TokenFetcher` call returns its scripted token and error, and the call is appended to the log. |
| `Cf.Rest.Patch` | src/cf-api-controllers/cf/client.go:26-28 | A `Rest` call returns its scripted reply for this url, token and body, and the call with exactly those arguments is appended to the log. |
| `Cf.ResourceUrl` | src/cf-api-controllers/cf/client.go:55-56 | Evaluating the format string `"%s/v3/builds/%s"` (or its droplet twin) gives exactly `host + "/v3/builds/" + guid` (or `host + "/v3/droplets/" + guid`). |
| `Cf.UrlDeterminesTarget` | src/cf-api-controllers/cf/client.go:56 | On one host, equal PATCH URLs mean the same resource kind and the same GUID. A build URL never addresses a droplet. |
| `Cf.StatusError` | src/cf-api-controllers/cf/client.go:63-64 | The bad-status error's message is "failed to patch build, received status " (or "failed to patch droplet, …") followed by the status in decimal. |
| `Cf.StatusErrorDeterminesCode` | src/cf-api-controllers/cf/client.go:64 | The bad-status error carries its status: equal errors mean the same resource kind and the same code. |
| `Fmt.FormatIntInjective` | src/cf-api-controllers/cf/client.go:64 | Different integers print differently under `%d`. |
| `Fmt.ParseFormatNat` | src/cf-api-controllers/cf/client.go:64 | Reading back the decimal digits that `%d` prints gives back the number. |
| `Fmt.SprintfLiteral` | src/cf-api-controllers/cf/client.go:56 | Text in a format string that has no `%` is copied unchanged, and no operand is consumed. |
| `Fmt.SprintfVerb` | src/cf-api-controllers/cf/client.go:56 | A `%s` or `%d` verb consumes exactly one operand and prints it. |
| `Fmt.Sprintf` | src/cf-api-controllers/cf/client.go:56 | The formatting behind `fmt.Sprintf` and `fmt.Errorf`: a format string with no `%` prints as itself, whatever the operands. How each verb consumes its operand is stated by `Fmt.SprintfVerb` and `Fmt.SprintfLiteral`. |
| `Fmt.FormatInt` | src/cf-api-controllers/cf/client.go:64 | `%d` printing of an `int` is non-empty, starts with a minus sign exactly when the number is negative, and is otherwise made of decimal digits. |
| `Fmt.FormatNat` | src/cf-api-controllers/cf/client.go:64 | `%d` printing of a natural number gives a non-empty string of decimal digits with no leading zero; zero itself prints as the single digit `0`. |
| `Cf.Classify` | src/cf-api-controllers/cf/client.go:60-67 | The result is nil if and only if the reply is a response with status exactly 200. A transport error is returned unchanged. Any other status, including other 2xx codes, gives the bad-status error for that code. |
| `Cf.Update` | src/cf-api-controllers/cf/client.go:44-68 | One operation always makes exactly one fetch, first, and at most one PATCH. A fetch error is returned as it is, with no PATCH. A marshalling error is returned after the fetch, with no PATCH. A PATCH happens exactly when both succeed. It targets the resource URL and carries the fetched token and the marshalled bytes unchanged. The result is nil if and only if that PATCH got status 200. |
| `Cf.SeriesOfOperations` | src/cf-api-controllers/cf/client.go:44-94 | After any sequential series of operations, the log holds exactly one fetch per operation and at most one PATCH per operation. Every PATCH directly follows a fetch, so there are no retries and no batching. |
| `Cf.ConcatSnoc` | src/cf-api-controllers/cf/client.go:44-94 | One more operation appends its calls to the log of the series before it; this is how the logs of successive method calls are fed to `Cf.SeriesOfOperations`. |
| `Cf.Client.UpdateResource` | src/cf-api-controllers/cf/client.go:44-94 | The method does step by step what `Update` specifies. It returns `Update`'s result, appends `Update`'s calls to the shared log, and advances the two fakes' counters by one fetch and by the number of PATCHes made. |
| `Cf.Client.UpdateBuild` | src/cf-api-controllers/cf/client.go:44-68 | `UpdateResource` for builds: the result and the calls are `Update`'s for the `/v3/builds/` endpoint. |
| `Cf.Client.UpdateDroplet` | src/cf-api-controllers/cf/client.go:70-94 | `UpdateResource` for droplets: the result and the calls are `Update`'s for the `/v3/droplets/` endpoint. |
| `CfScenarios.BuildAccepted` | src/cf-api-controllers/cf/client.go:44-67 | A transport that answers 200 gives a nil error. The log is one fetch, then one PATCH of `{host}/v3/builds/{guid}` with the fetched token and the marshalled body. |
| `CfScenarios.OtherSuccessStatusIsAnError` | src/cf-api-controllers/cf/client.go:89-90 | A 2xx status other than 200 makes `UpdateDroplet` fail with "failed to patch droplet, received status N". |
| `CfScenarios.FetchFailureStopsTheUpdate` | src/cf-api-controllers/cf/client.go:45-48 | A failing token fetch comes back as the very same error. The log then holds only the fetch, and the transport was never called. |
| `CfScenarios.EachUpdateFetchesItsOwnToken` | src/cf-api-controllers/cf/client.go:45-57 | Two consecutive updates fetch two tokens. Each PATCH carries the token fetched just before it. |
| `CfScenarios.TwoOperations` | src/cf-api-controllers/cf/client.go:44-94 | Two operation logs one after the other hold exactly two fetches, at most two PATCHes, and each PATCH comes right after a fetch. |
| `CfScenarios.TwoUpdatesNeverRetry` | src/cf-api-controllers/cf/client.go:44-94 | A build update followed by a droplet update, whatever the token source, the transport and marshalling answer, makes exactly two fetches and at most two PATCHes, each PATCH right after its fetch. |

## Left out

- `src/cf-api-controllers/main.go` is not part of this model. It parses flags, sets up the logger, registers schemes and builds the controller manager. It configures TLS, including `InsecureSkipVerify`, and wires up the reconcilers. All of that is process bootstrap, not client logic.
- The Build, Image and PeriodicSync reconcilers are not part of this model, because their source is not part of it either. Their retry classification and sweep behaviour are left out with them.
- The backup-metadata-generator input-parsing test is not part of this model. It checks the exit codes of a separate binary.
- The real `cf.RestClient` HTTP transport and the UAA OAuth2 token exchange (`auth.NewUAAClient`) are network calls. They appear only through the interfaces the client uses. Their behaviour comes from the fakes' scripts.
- Cf.Marshalled: JSON encoding of `model.Build` and `model.Droplet` is not modelled. `json.Marshal` is an opaque, possibly failing function passed in by the caller.
- Cf.Rest.Patch: the reply is either a response or a transport error. A Go implementation that returned a nil response with a nil error would crash the client when it reads `resp.StatusCode`. That case is not modelled.
- Cf.Rest.Patch: only the status code of the response is modelled. The client reads nothing else, and it never closes the response body.
- Cf.Client.UpdateResource: `UpdateBuild` and `UpdateDroplet` are written out twice in Go. Here they share one method, parameterised by the resource kind.
- Fmt.Sprintf: only the `%s` and `%d` verbs are modelled, plus Go's markers for a missing or mistyped operand, because the client's format strings use nothing else. A `%` not followed by `s` or `d` is copied as an ordinary character. So a lone trailing `%` stays `%` where Go prints `%!(NOVERB)`, and another verb such as `%x` is copied where Go formats the operand by that verb or prints `%!x(…)`. In `%%` the first `%` is copied and the second starts a new directive: `%%` prints `%%` where Go prints `%`, and `%%s` consumes an operand where Go prints `%s`. Extra operands are dropped where Go appends `%!(EXTRA …)`.
- Cf.SeriesOfOperations: operations are modelled as sequential, one finishing before the next starts. In the program one `uaaClient` is shared by the three clients that `main.go` builds (lines 93, 105-107, 122-124, 133-135), and the manager runs their reconcilers together (line 146), so concurrent operations may interleave: the shared token source can see two fetches before either PATCH is sent (fetch, fetch, PATCH, PATCH across the two operations). Each client has its own `RestClient`. Each operation's own fetch-then-PATCH order and its token are unaffected, because the token is a local variable of the operation (client.go lines 45 and 71).
- Go's `int` is 64 bits wide. Status codes are unbounded integers here, which makes no difference to `%d` printing in the range Go can hold.
