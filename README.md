# contactkey command dispatch and NewRelic hook, in Dafny

This project models two pieces of contactkey, a deployment-orchestration CLI.

1. **Command dispatch** (`commands/command_registry.go`). A process-wide table maps the
   names `deploy`, `diff`, `list` and `rollback` to command objects.
   `makeInstance` looks a name up and fills the stored command. `fill` is a staged pipeline:
   - build the manifest path `<WorkPath>/<service>.yml`;
   - read the file;
   - load the manifest;
   - build the context;
   - call `Init` on every hook in order;
   - hand the context to the command.

   A hook whose `Init` fails while its `StopOnError()` is true aborts `fill`. A failure of any other hook is logged and the loop goes on.
2. **The NewRelic hook** (`hooks/newrelic.go`), with HTTP taken out:
   - constructor validation and field wiring;
   - the fixed `Init`, `PostDeployment` and `StopOnError` results;
   - the deployment marker and the request addresses;
   - the decisions on the status code and on the decoded application list.

Files:
- `outcomes.dfy`: `Option`, `Result` and `Outcome`. These stand for Go's `(T, error)` and `error` returns.
- `gofmt.dfy`: `%d` formatting of integers and its inverse.
- `gopath.dfy`: Go's `path.Join` and `path.Clean`, as used to build the manifest path.
- `newrelic.dfy`: module `NewRelic`.
- `command_registry.dfy`: module `Commands`.
  - `Registry` is a class whose `commands` map is set up by its constructor (Go's `init`).
  - `Command` is a class whose fields the command's `fill` updates.
  - `Fill` is a method with the staged early returns.
  - `RunHookInits` is the `Init` loop, a `while` loop with invariants. Its result and its trace are tied to the functions `FirstAbort` and `InitTrace`.

The side effects of the pipeline are recorded as a trace of `Event`s:
- the file read;
- the manifest load;
- the context construction;
- each hook `Init` call;
- each logged soft failure;
- the command's fill.

The ordering properties are proved over this trace.

## Model

| member | source | states |
|---|---|---|
| `Commands.Registry.constructor` | commands/command_registry.go:29-34 | after start-up the table holds exactly the keys deploy, diff, list, rollback, each a distinct fresh command of the matching kind, not yet filled |
| `Commands.Registry.MakeInstance` | commands/command_registry.go:14-27 | an unknown name gives `CommandNotFound(name)` with an empty trace (no read, no `Init`) and changes nothing; for a known name the result on success is the very object stored under that name, filled once; on a pipeline error that error is returned and the command is unchanged; the table never changes |
| `Commands.Fill` | commands/command_registry.go:41-70 | result and trace are those of `Pipeline`; on success the command's own fill ran exactly once with the built context and the given service and env, as the last event; on failure the command is untouched |
| `Commands.Command.Fill` | commands/command_registry.go:67 | the command now holds the context, service and env it was given, and its fill count went up by one |
| `Commands.RunHookInits` | commands/command_registry.go:58-65 | with no aborting hook the loop returns success after initialising every hook; otherwise it fails with the `Init` error of the first hook whose `Init` fails while it is stop-on-error, and the trace stops right after that hook's `Init` |
| `Commands.FirstAbort` | commands/command_registry.go:58-61 | returns none exactly when no hook both fails `Init` and is stop-on-error; otherwise it returns an aborting index with no aborting hook before it |
| `Commands.InitCallsInOrder` | commands/command_registry.go:58-59 | initialising the first n hooks calls `Init` on hooks 0 .. n-1, each once, in context order |
| `Commands.LoggedExactlySoftFailures` | commands/command_registry.go:62-64 | a failure is logged for exactly those initialised hooks whose `Init` failed while they are not stop-on-error, with that hook's error |
| `Commands.SoftFailureIsTransparent` | commands/command_registry.go:60-64 | swapping a hook that does not abort for another that does not abort leaves the loop's verdict unchanged: a soft failure counts as a success |
| `Commands.ManifestPath` | commands/command_registry.go:42 | the manifest path is the cleaned `<service>.yml` when the work path is empty, and otherwise the cleaned `<WorkPath>/<service>.yml` |
| `Commands.Pipeline` | commands/command_registry.go:41-69 | the staged pipeline always starts by reading the service's manifest path; it succeeds only when reading, loading and building the context all succeed, and then yields the context that was built |
| `Commands.EarlyFailureSkipsHooks` | commands/command_registry.go:43-56 | if reading, loading or building the context fails, no hook has `Init` called and the result is the first failing stage's error: `ReadFailed(path, cause)`, `LoadFailed(cause)` or `ContextFailed(cause)`, with that stage's cause |
| `Commands.PipelineInitOrder` | commands/command_registry.go:53-65 | once the context is built, the `Init` calls are hooks 0 .. n-1 when none aborts, and hooks 0 .. k when hook k is the first to abort |
| `Commands.PipelineSucceedsIff` | commands/command_registry.go:41-69 | the pipeline succeeds exactly when all three stages succeed and no stop-on-error hook fails its `Init`; it then yields the context that was built |
| `Commands.ManifestPathInWorkDir` | commands/command_registry.go:42 | for a work path made of plain names (no empty, `.` or `..` element), optionally rooted, and a service without a slash, the manifest path is the work path with `<service>.yml` appended as its last element (`WorkPath + "/" + service + ".yml"` when the work path has at least one name) |
| `Commands.ConfiguredNewRelicHookPasses` | hooks/newrelic.go:41-43 | a NewRelic hook built from the configuration's and the manifest's NewRelic sections neither aborts nor fails softly, and its policy is the manifest's `StopOnError` |
| `Commands.NewRelicHooksNeverAbort` | hooks/newrelic.go:41-43 | a context made only of NewRelic hooks passes the `Init` loop with nothing logged |
| `Commands.SoftThenStrict` | commands/command_registry.go:58-65 | for hooks [soft-failing, then stop-on-error and succeeding], the loop succeeds, calls both and logs the first |
| `Commands.StrictFailureFirst` | commands/command_registry.go:58-61 | when a stop-on-error hook fails first, the loop stops there and never calls the second hook |
| `Commands.Execute` | commands/command_registry.go:72-74 | returns exactly what the command's own `execute` returns on its filled state |
| `GoPath.JoinAppendsName` | commands/command_registry.go:42 | `path.Join` of a path made of plain names (no empty, `.` or `..` element), optionally rooted, and a plain name appends the name as a new last element |
| `GoFmt.ParseFormatInt` | hooks/newrelic.go:173 | reading back the `%d` rendering of an integer gives that integer |
| `GoFmt.FormatIntInjective` | hooks/newrelic.go:173 | distinct integers have distinct `%d` renderings |
| `NewRelic.NewClient` | hooks/newrelic.go:78-100 | checks the url, then the api key, then the application filter, and fails with the message of the first one that is empty; it succeeds exactly when all three are set, copying them, taking `Stop` from the manifest and leaving the application id at 0 |
| `NewRelic.Init` | hooks/newrelic.go:41-43 | always succeeds |
| `NewRelic.PostDeployment` | hooks/newrelic.go:70-72 | always succeeds |
| `NewRelic.StopOnError` | hooks/newrelic.go:74-76 | returns the client's `Stop` flag |
| `NewRelic.ConstructedClientPolicy` | hooks/newrelic.go:74-76 | a constructed client's `Init` succeeds and its `StopOnError` is the manifest's `StopOnError` |
| `NewRelic.RequestUrl` | hooks/newrelic.go:144 | the request address is the configured url, one slash, then the route, and both parts can be read back from it |
| `NewRelic.NewRequest` | hooks/newrelic.go:143-157 | a request carries the verb, the address `Url/route`, the api-key header, the content type and the body it was given |
| `NewRelic.LookupRequest` | hooks/newrelic.go:105-110 | the lookup is a GET of `Url/v2/applications.json` with the api key, a form content type and the body `filter[name]=<filter>` |
| `NewRelic.CreateRequest` | hooks/newrelic.go:173-177 | the deployment marker is a POST of `Url/v2/applications/<ApplicationId>/deployments.json`, with the id written by `%d`, the api key, the JSON content type and the marker as its body |
| `NewRelic.DeploymentUrlsDistinct` | hooks/newrelic.go:173 | deployments for different application ids are posted to different addresses `Url/v2/applications/<id>/deployments.json` |
| `NewRelic.FindApplicationId` | hooks/newrelic.go:102-141 | succeeds exactly when the answer has status 200 and decodes to a non-empty list, and then returns the first application's id; any other status is "HTTP error from NewRelic"; a body that does not decode (after status 200) is the decoding error; an empty list is "application <filter> not found"; a failure to build, send or read is that failure's error |
| `NewRelic.CreateDeployment` | hooks/newrelic.go:165-192 | succeeds exactly on an answer with status 201; any other status is "NewRelic status code: <code>"; a failure to build or send the request, and a refused redirect, is that failure's error |
| `NewRelic.StatusErrorCarriesCode` | hooks/newrelic.go:187-189 | the status code can be parsed back out of the error text |
| `NewRelic.CreateDeploymentAsWritten` | hooks/newrelic.go:179-185 | the code as written crashes exactly when `Do` fails without a response; a refused redirect, which comes with a response, returns its error; in every other case it agrees with `CreateDeployment` |
| `NewRelic.SendFailurePanics` | hooks/newrelic.go:179-185 | a refused connection crashes the code as written, where `CreateDeployment` returns the error |
| `NewRelic.NewDeployment` | hooks/newrelic.go:61-66 | the marker's revision is the pod version, its user is the user name, its changelog is empty and its description is "Deploying <service> <version> on <env>" |
| `NewRelic.DescriptionDetermines` | hooks/newrelic.go:61 | the description "Deploying <service> <version> on <env>" determines service, version and env when the first two contain no space |
| `NewRelic.PreDeployment` | hooks/newrelic.go:45-68 | a filter parse error is returned before any request. A lookup failure is returned after at most the lookup request (none when it could not be built). Otherwise the deployment marker is posted to the resolved application id and the outcome is that of the corrected `CreateDeployment`. Where the marker post fails without a response, the source crashes instead (see Findings). The caller's client value is not changed |

## Findings

| source | as written | input that shows it | evidently intended | confidence | as-written member | corrected member |
|---|---|---|---|---|---|---|
| hooks/newrelic.go:179-185 | `CreateDeployment` logs `response.StatusCode` before it checks the error returned by `HttpClient.Do` | a `Do` failure without a response, such as a refused connection, where `response` is nil and is dereferenced (a refused redirect comes with a response and does not crash) | check the error of `Do` first and return it | high; not executed | `NewRelic.CreateDeploymentAsWritten` (with `NewRelic.SendFailurePanics`) | `NewRelic.CreateDeployment`, used by `NewRelic.PreDeployment` |

## Left out

- HTTP transport is not modelled: `http.NewRequest`, `HttpClient.Do`, `ioutil.ReadAll` and response bodies. Each exchange is an input (`LookupReply`, `CreateReply`) that says at which stage it failed (for the deployment post, whether `Do` failed with or without a response), or gives the status code and, for the lookup, the decoded application list. The `http.Client` field of the client is dropped.
- JSON encoding of the deployment body and JSON decoding of the application list are library calls. The deployment is carried as a value in the request, and the decoded list is given as input. The encoder's error branch in `CreateDeployment` (hooks/newrelic.go:167-171) is dropped: encoding a record of four strings into a `bytes.Buffer` cannot fail.
- `html/template` parsing and rendering of the application filter are library calls. The filter is an input: a parse error, or the rendered text. The render error that the source ignores at hooks/newrelic.go:52-53 is not modelled. That render error happens whenever the template evaluates a `.env` action, because the field is unexported.
- Logging through logrus is not modelled. The one log record that matters to the `Init` loop, a soft `Init` failure, is kept as an `InitFailureLogged` trace event; its text is not.
- `utils.ReadFile`, `utils.LoadManifest` and `context.NewContext` are not part of this model. They are the functions of a `Collaborators` value. `Config` and `Manifest` keep only the fields the two core files read.
- Error texts of `fill` and `makeInstance` are not modelled: neither `fill`'s `%q`-quoted texts nor `makeInstance`'s `"Struct not found %s"`. They are replaced by typed `Error` values that keep the same payload: the name, the path and the cause.
- The concrete `Deploy`, `Diff`, `List` and `Rollback` commands are not part of this model. Their `fill` is modelled as storing what it is given. Their `execute` is a `Behaviour` parameter of `Commands.Execute`.
- `deployers/deployer.go` is an interface with no behaviour and is not modelled.
- Integer width: Go's `int` is 64 bits wide, but application ids and status codes are unbounded integers here. `%d` is modelled for all integers.
- `Commands.Registry.MakeInstance`: the source does not stop a command from being filled twice. A second lookup of the same name refills the same object, and the `fills` counter shows this.
- `NewRelic.PreDeployment`: uses the corrected `CreateDeployment`. When the marker post's `Do` fails without a response, the source crashes on a nil `response` (hooks/newrelic.go:67 and 181). This method returns the error instead; the crash is shown by `NewRelic.CreateDeploymentAsWritten` (see Findings).
- `NewRelic.PreDeployment`: the value receiver is modelled by the client being a datatype value. The id assignment at hooks/newrelic.go:59 changes a local copy, so the caller's client cannot change.
- `GoPath.Join` models only the two-element joins the source makes. No general property of `Clean`, such as idempotence, is proved.
