/**
 * Command dispatch: the name-to-command table filled at start-up, the lookup
 * that fills a command before handing it out, and the fill pipeline that reads
 * the service manifest, builds the context and initialises its hooks under
 * each hook's stop-on-error policy.
 */
module Commands {
  import opened Outcomes
  import GoPath
  import NewRelic

  /** The process configuration: the work directory and the hook settings. */
  datatype Config = Config(workPath: string, newRelic: NewRelic.Config)

  /** A loaded service manifest. */
  datatype Manifest = Manifest(newRelic: NewRelic.ManifestSection)

  /** A hook in a context: the NewRelic hook, or a hook whose `Init` result and policy are given. */
  datatype Hook =
    | NewRelicHook(client: NewRelic.Client)
    | OtherHook(kind: string, initResult: Outcome<string>, stop: bool)

  function HookInit(h: Hook): Outcome<string> {
    match h
    case NewRelicHook(c) => NewRelic.Init(c)
    case OtherHook(_, result, _) => result
  }

  function HookStopOnError(h: Hook): bool {
    match h
    case NewRelicHook(c) => NewRelic.StopOnError(c)
    case OtherHook(_, _, stop) => stop
  }

  /** The hook's `Init` fails and its policy says to stop. */
  predicate Aborts(h: Hook) {
    HookInit(h).Fail? && HookStopOnError(h)
  }

  /** The hook's `Init` fails and its policy says to log and go on. */
  predicate FailsSoftly(h: Hook) {
    HookInit(h).Fail? && !HookStopOnError(h)
  }

  /** The context a command is filled with: its hooks, in manifest order. */
  datatype Context = Context(hooks: seq<Hook>)

  /** The collaborators of the fill pipeline that are not modelled: file reading, manifest parsing, context construction. */
  datatype Collaborators = Collaborators(
    readFile: string -> Result<string, string>,
    loadManifest: string -> Result<Manifest, string>,
    newContext: (Config, Manifest) -> Result<Context, string>)

  /** What the pipeline does, as it happens. */
  datatype Event =
    | ReadFile(path: string)
    | LoadManifest
    | NewContext
    | InitHook(index: nat)
    | InitFailureLogged(index: nat, cause: string)
    | FillCommand(service: string, env: string)

  datatype Error =
    | CommandNotFound(name: string)
    | ReadFailed(path: string, cause: string)
    | LoadFailed(cause: string)
    | ContextFailed(cause: string)
    | InitFailed(cause: string)

  datatype Kind = Deploy | Diff | List | Rollback

  /** The command implementations' `execute`, which is not part of this model: a function of the kind and the filled state. */
  type Behaviour = (Kind, Option<Context>, string, string) -> Outcome<string>

  /** A command object: what `fill` gave it, and how many times it was filled. */
  class Command {
    const kind: Kind
    var context: Option<Context>
    var service: string
    var env: string
    var fills: nat

    constructor (kind: Kind)
      ensures this.kind == kind && context == None && service == "" && env == "" && fills == 0
    {
      this.kind := kind;
      context := None;
      service := "";
      env := "";
      fills := 0;
    }

    /** The command's own `fill`: it takes the context and the target. */
    method Fill(ctxt: Context, service: string, env: string)
      modifies this
      ensures context == Some(ctxt) && this.service == service && this.env == env
      ensures fills == old(fills) + 1
    {
      context := Some(ctxt);
      this.service := service;
      this.env := env;
      fills := fills + 1;
    }
  }

  /** The manifest of `service` lives at `<workPath>/<service>.yml`, cleaned. */
  function ManifestPath(workPath: string, service: string): (p: string)
    ensures p == if workPath == "" then GoPath.Clean(service + ".yml") else GoPath.Clean(workPath + "/" + service + ".yml")
  {
    var file := service + ".yml";
    assert file != "" && workPath + "/" + file == workPath + "/" + service + ".yml";
    GoPath.Join(workPath, file)
  }

  /** For a clean work directory and a service name without a slash, the manifest is a direct child of the directory. */
  lemma ManifestPathInWorkDir(rooted: bool, dirs: seq<string>, service: string)
    requires GoPath.AllNames(dirs) && '/' !in service
    ensures ManifestPath(GoPath.Render(rooted, dirs), service) == GoPath.Render(rooted, dirs + [service + ".yml"])
    ensures |dirs| > 0 ==> ManifestPath(GoPath.Render(rooted, dirs), service) == GoPath.Render(rooted, dirs) + "/" + service + ".yml"
  {
    var file := service + ".yml";
    assert '/' !in file by {
      forall i | 0 <= i < |file| ensures file[i] != '/' {
        if i < |service| { assert file[i] == service[i]; }
      }
    }
    assert |file| >= 4;
    GoPath.JoinAppendsName(rooted, dirs, file);
    assert GoPath.Render(rooted, dirs) + "/" + file == GoPath.Render(rooted, dirs) + "/" + service + ".yml";
  }

  /** The index of the first hook whose failure stops the loop, if any. */
  function FirstAbort(hooks: seq<Hook>): (k: Option<nat>)
    ensures k.None? <==> forall i :: 0 <= i < |hooks| ==> !Aborts(hooks[i])
    ensures k.Some? ==> k.value < |hooks| && Aborts(hooks[k.value])
                        && forall i :: 0 <= i < k.value ==> !Aborts(hooks[i])
    decreases |hooks|
  {
    if |hooks| == 0 then None
    else if Aborts(hooks[0]) then Some(0)
    else match FirstAbort(hooks[1..])
      case None => None
      case Some(j) => Some(j + 1)
  }

  /** How many hooks the `Init` loop reaches: all of them, or up to and including the first that aborts. */
  function InitLength(hooks: seq<Hook>): (n: nat)
    ensures n <= |hooks|
  {
    if FirstAbort(hooks).None? then |hooks| else FirstAbort(hooks).value + 1
  }

  /** What initialising hook `i` leaves in the trace: the call, and a log record if it failed softly. */
  function InitEvents(hooks: seq<Hook>, i: nat): seq<Event>
    requires i < |hooks|
  {
    [InitHook(i)] + if FailsSoftly(hooks[i]) then [InitFailureLogged(i, HookInit(hooks[i]).error)] else []
  }

  /** The trace of initialising the first `n` hooks. */
  function InitTrace(hooks: seq<Hook>, n: nat): seq<Event>
    requires n <= |hooks|
    decreases n
  {
    if n == 0 then [] else InitTrace(hooks, n - 1) + InitEvents(hooks, n - 1)
  }

  /** The hooks whose `Init` a trace shows called, in order. */
  function InitCalls(trace: seq<Event>): seq<nat>
    decreases |trace|
  {
    if |trace| == 0 then []
    else (if trace[0].InitHook? then [trace[0].index] else []) + InitCalls(trace[1..])
  }

  function Range(n: nat): seq<nat>
    decreases n
  {
    if n == 0 then [] else Range(n - 1) + [n - 1]
  }

  lemma {:induction false} InitCallsAppend(a: seq<Event>, b: seq<Event>)
    ensures InitCalls(a + b) == InitCalls(a) + InitCalls(b)
    decreases |a|
  {
    if |a| > 0 {
      assert (a + b)[1..] == a[1..] + b;
      InitCallsAppend(a[1..], b);
    } else {
      assert a + b == b;
    }
  }

  /** Initialising the first `n` hooks calls `Init` on hooks 0, 1, ..., n - 1, each once, in that order. */
  lemma {:induction false} InitCallsInOrder(hooks: seq<Hook>, n: nat)
    requires n <= |hooks|
    ensures InitCalls(InitTrace(hooks, n)) == Range(n)
    decreases n
  {
    if n > 0 {
      InitCallsInOrder(hooks, n - 1);
      InitCallsAppend(InitTrace(hooks, n - 1), InitEvents(hooks, n - 1));
      SingleInitCall(hooks, n - 1);
    }
  }

  lemma SingleInitCall(hooks: seq<Hook>, i: nat)
    requires i < |hooks|
    ensures InitCalls(InitEvents(hooks, i)) == [i]
  {
    var e := InitEvents(hooks, i);
    NoInitCalls(e[1..]);
    assert InitCalls(e) == [i] + InitCalls(e[1..]);
  }

  /** A trace without `Init` calls projects to nothing. */
  lemma {:induction false} NoInitCalls(trace: seq<Event>)
    requires forall j :: 0 <= j < |trace| ==> !trace[j].InitHook?
    ensures InitCalls(trace) == []
    decreases |trace|
  {
    if |trace| > 0 {
      NoInitCalls(trace[1..]);
    }
  }

  /** A failure is logged exactly for the soft-failing hooks among the first `n`, with that hook's error. */
  lemma {:induction false} LoggedExactlySoftFailures(hooks: seq<Hook>, n: nat)
    requires n <= |hooks|
    ensures forall e :: e in InitTrace(hooks, n) && e.InitFailureLogged? ==>
              e.index < n && FailsSoftly(hooks[e.index]) && e.cause == HookInit(hooks[e.index]).error
    ensures forall i :: 0 <= i < n && FailsSoftly(hooks[i]) ==>
              InitFailureLogged(i, HookInit(hooks[i]).error) in InitTrace(hooks, n)
    decreases n
  {
    if n > 0 {
      LoggedExactlySoftFailures(hooks, n - 1);
      assert InitTrace(hooks, n) == InitTrace(hooks, n - 1) + InitEvents(hooks, n - 1);
    }
  }

  /**
   * The `Init` loop of `fill`: hooks in order; the first failure of a
   * stop-on-error hook ends it with an error; other failures are logged and
   * the loop goes on.
   */
  method RunHookInits(hooks: seq<Hook>) returns (r: Outcome<Error>, trace: seq<Event>)
    ensures r.Pass? <==> FirstAbort(hooks).None?
    ensures r.Fail? ==> r.error == InitFailed(HookInit(hooks[FirstAbort(hooks).value]).error)
    ensures trace == InitTrace(hooks, InitLength(hooks))
  {
    trace := [];
    var i := 0;
    while i < |hooks|
      invariant 0 <= i <= |hooks|
      invariant forall j :: 0 <= j < i ==> !Aborts(hooks[j])
      invariant trace == InitTrace(hooks, i)
    {
      var hook := hooks[i];
      var err := HookInit(hook);
      trace := trace + [InitHook(i)];
      if HookStopOnError(hook) && err.Fail? {
        return Fail(InitFailed(err.error)), trace;
      } else if err.Fail? {
        trace := trace + [InitFailureLogged(i, err.error)];
      }
      i := i + 1;
    }
    r := Pass;
  }

  /** A run of the fill pipeline up to, and not including, the command's own `fill`. */
  datatype Run = Run(result: Result<Context, Error>, trace: seq<Event>)

  /** The staged pipeline: read, load, build the context, initialise the hooks; the first failing stage ends it. */
  function Pipeline(config: Config, service: string, io: Collaborators): (run: Run)
    ensures |run.trace| > 0 && run.trace[0] == ReadFile(ManifestPath(config.workPath, service))
    ensures run.result.Success? ==> StagesSucceed(config, service, io) && run.result.value == BuiltContext(config, service, io)
  {
    var path := ManifestPath(config.workPath, service);
    match io.readFile(path)
    case Failure(e) => Run(Failure(ReadFailed(path, e)), [ReadFile(path)])
    case Success(contents) =>
      match io.loadManifest(contents)
      case Failure(e) => Run(Failure(LoadFailed(e)), [ReadFile(path), LoadManifest])
      case Success(manifest) =>
        match io.newContext(config, manifest)
        case Failure(e) => Run(Failure(ContextFailed(e)), [ReadFile(path), LoadManifest, NewContext])
        case Success(ctxt) =>
          var trace := [ReadFile(path), LoadManifest, NewContext] + InitTrace(ctxt.hooks, InitLength(ctxt.hooks));
          match FirstAbort(ctxt.hooks)
          case None => Run(Success(ctxt), trace)
          case Some(k) => Run(Failure(InitFailed(HookInit(ctxt.hooks[k]).error)), trace)
  }

  /** Reading, loading and building the context all succeed. */
  predicate StagesSucceed(config: Config, service: string, io: Collaborators) {
    var file := io.readFile(ManifestPath(config.workPath, service));
    file.Success? && io.loadManifest(file.value).Success?
    && io.newContext(config, io.loadManifest(file.value).value).Success?
  }

  /** The context the stages build, when they succeed. */
  function BuiltContext(config: Config, service: string, io: Collaborators): Context
    requires StagesSucceed(config, service, io)
  {
    io.newContext(config, io.loadManifest(io.readFile(ManifestPath(config.workPath, service)).value).value).value
  }

  /** A failure of reading, loading or building the context is an error before any hook's `Init`. */
  lemma EarlyFailureSkipsHooks(config: Config, service: string, io: Collaborators)
    requires !StagesSucceed(config, service, io)
    ensures Pipeline(config, service, io).result.Failure?
    ensures InitCalls(Pipeline(config, service, io).trace) == []
    ensures var path := ManifestPath(config.workPath, service);
            var file := io.readFile(path);
            var result := Pipeline(config, service, io).result;
            if file.Failure? then result == Failure(ReadFailed(path, file.error))
            else if io.loadManifest(file.value).Failure? then result == Failure(LoadFailed(io.loadManifest(file.value).error))
            else result == Failure(ContextFailed(io.newContext(config, io.loadManifest(file.value).value).error))
  {
    NoInitCalls(Pipeline(config, service, io).trace);
  }

  /**
   * Once the context is built, hooks have `Init` called in context order: all of
   * them when none aborts, otherwise exactly the first aborting one and those
   * before it.
   */
  lemma PipelineInitOrder(config: Config, service: string, io: Collaborators)
    requires StagesSucceed(config, service, io)
    ensures var hooks := BuiltContext(config, service, io).hooks;
            var calls := InitCalls(Pipeline(config, service, io).trace);
            match FirstAbort(hooks)
            case None => calls == Range(|hooks|)
            case Some(k) => calls == Range(k + 1)
  {
    var path := ManifestPath(config.workPath, service);
    var hooks := BuiltContext(config, service, io).hooks;
    var before := [ReadFile(path), LoadManifest, NewContext];
    NoInitCalls(before);
    var n := InitLength(hooks);
    assert Pipeline(config, service, io).trace == before + InitTrace(hooks, n);
    InitCallsAppend(before, InitTrace(hooks, n));
    InitCallsInOrder(hooks, n);
  }

  /** The pipeline succeeds exactly when every stage does and no stop-on-error hook fails; it then yields the built context. */
  lemma PipelineSucceedsIff(config: Config, service: string, io: Collaborators)
    ensures Pipeline(config, service, io).result.Success? <==>
              StagesSucceed(config, service, io)
              && forall i :: 0 <= i < |BuiltContext(config, service, io).hooks| ==> !Aborts(BuiltContext(config, service, io).hooks[i])
    ensures Pipeline(config, service, io).result.Success? ==>
              Pipeline(config, service, io).result.value == BuiltContext(config, service, io)
  {
    if StagesSucceed(config, service, io) {
      var hooks := BuiltContext(config, service, io).hooks;
      assert Pipeline(config, service, io).result.Success? <==> FirstAbort(hooks).None?;
    }
  }

  /** Replacing a hook that does not abort by another that does not abort leaves the loop's verdict as it was. */
  lemma {:induction false} SoftFailureIsTransparent(hooks: seq<Hook>, i: nat, h: Hook)
    requires i < |hooks| && !Aborts(hooks[i]) && !Aborts(h)
    ensures FirstAbort(hooks[i := h]) == FirstAbort(hooks)
    decreases |hooks|
  {
    if i > 0 {
      assert hooks[i := h][1..] == hooks[1..][i - 1 := h];
      SoftFailureIsTransparent(hooks[1..], i - 1, h);
    }
  }

  /** NewRelic hooks never fail their `Init`, so a context of them passes the loop with nothing logged. */
  lemma NewRelicHooksNeverAbort(hooks: seq<Hook>)
    requires forall i :: 0 <= i < |hooks| ==> hooks[i].NewRelicHook?
    ensures FirstAbort(hooks) == None
    ensures forall i :: 0 <= i < |hooks| ==> !FailsSoftly(hooks[i])
  {
  }

  /**
   * A NewRelic hook built from the configuration's and the manifest's NewRelic
   * sections never stops the loop, and its policy is the manifest's.
   */
  lemma ConfiguredNewRelicHookPasses(config: Config, manifest: Manifest)
    requires NewRelic.NewClient(config.newRelic, manifest.newRelic).Success?
    ensures var h := NewRelicHook(NewRelic.NewClient(config.newRelic, manifest.newRelic).value);
            !Aborts(h) && !FailsSoftly(h) && HookStopOnError(h) == manifest.newRelic.stopOnError
  {
    NewRelic.ConstructedClientPolicy(config.newRelic, manifest.newRelic);
  }

  /** A soft failure then a succeeding stop-on-error hook: the loop succeeds after calling both and logging the first. */
  lemma SoftThenStrict()
    ensures var hooks := [OtherHook("h1", Fail("down"), false), OtherHook("h2", Pass, true)];
            FirstAbort(hooks) == None
            && InitTrace(hooks, 2) == [InitHook(0), InitFailureLogged(0, "down"), InitHook(1)]
  {
  }

  /** A failing stop-on-error hook first: the loop stops there and the second hook is never called. */
  lemma StrictFailureFirst()
    ensures var hooks := [OtherHook("h1", Fail("down"), true), OtherHook("h2", Pass, false)];
            FirstAbort(hooks) == Some(0) && InitTrace(hooks, 1) == [InitHook(0)]
  {
  }

  /** `fill`: run the pipeline and, if it succeeds, fill the command with the context, the service and the environment. */
  method Fill(cck: Command, config: Config, service: string, env: string, io: Collaborators)
    returns (r: Outcome<Error>, trace: seq<Event>)
    modifies cck
    ensures var run := Pipeline(config, service, io);
            && (run.result.Failure? ==> r == Fail(run.result.error) && trace == run.trace && unchanged(cck))
            && (run.result.Success? ==>
                  && r == Pass && trace == run.trace + [FillCommand(service, env)]
                  && cck.context == Some(run.result.value) && cck.service == service && cck.env == env
                  && cck.fills == old(cck.fills) + 1)
  {
    var filePath := ManifestPath(config.workPath, service);
    trace := [ReadFile(filePath)];
    var manifestFile := io.readFile(filePath);
    if manifestFile.Failure? {
      return Fail(ReadFailed(filePath, manifestFile.error)), trace;
    }
    trace := trace + [LoadManifest];
    var manifest := io.loadManifest(manifestFile.value);
    if manifest.Failure? {
      return Fail(LoadFailed(manifest.error)), trace;
    }
    trace := trace + [NewContext];
    var ctxt := io.newContext(config, manifest.value);
    if ctxt.Failure? {
      return Fail(ContextFailed(ctxt.error)), trace;
    }
    var initResult, initTrace := RunHookInits(ctxt.value.hooks);
    trace := trace + initTrace;
    if initResult.Fail? {
      return initResult, trace;
    }
    cck.Fill(ctxt.value, service, env);
    trace := trace + [FillCommand(service, env)];
    r := Pass;
  }

  /** `execute`: exactly what the command's own `execute` returns. */
  method Execute(cck: Command, behaviour: Behaviour) returns (r: Outcome<string>)
    ensures r == behaviour(cck.kind, cck.context, cck.service, cck.env)
  {
    r := behaviour(cck.kind, cck.context, cck.service, cck.env);
  }

  /** The registered command names. */
  const CommandNames: set<string> := {"deploy", "diff", "list", "rollback"}

  /** The process-wide command table. */
  class Registry {
    var commands: map<string, Command>

    /** `init`: one fresh, unfilled command per name. */
    constructor ()
      ensures commands.Keys == CommandNames
      ensures commands["deploy"].kind == Deploy && commands["diff"].kind == Diff
      ensures commands["list"].kind == List && commands["rollback"].kind == Rollback
      ensures forall n :: n in commands ==> fresh(commands[n]) && commands[n].context == None && commands[n].fills == 0
      ensures forall m, n :: m in commands && n in commands && m != n ==> commands[m] != commands[n]
    {
      var deploy := new Command(Deploy);
      var diff := new Command(Diff);
      var list := new Command(List);
      var rollback := new Command(Rollback);
      commands := map[];
      new;
      commands := commands["deploy" := deploy];
      commands := commands["diff" := diff];
      commands := commands["list" := list];
      commands := commands["rollback" := rollback];
    }

    /**
     * `makeInstance`: an unknown name is an error and nothing else happens;
     * otherwise the stored command itself is filled and returned.
     */
    method MakeInstance(config: Config, name: string, service: string, env: string, io: Collaborators)
      returns (r: Result<Command, Error>, trace: seq<Event>)
      modifies if name in commands then {commands[name]} else {}
      ensures commands == old(commands)
      ensures name !in commands ==> r == Failure(CommandNotFound(name)) && trace == []
      ensures name in commands ==>
                var run := Pipeline(config, service, io);
                var cck := commands[name];
                && (run.result.Failure? ==> r == Failure(run.result.error) && trace == run.trace && unchanged(cck))
                && (run.result.Success? ==>
                      && r == Success(cck) && trace == run.trace + [FillCommand(service, env)]
                      && cck.context == Some(run.result.value) && cck.service == service && cck.env == env
                      && cck.fills == old(cck.fills) + 1)
    {
      if name !in commands {
        return Failure(CommandNotFound(name)), [];
      }
      var cckCommand := commands[name];
      var err;
      err, trace := Fill(cckCommand, config, service, env, io);
      if err.Fail? {
        return Failure(err.error), trace;
      }
      r := Success(cckCommand);
    }
  }
}
