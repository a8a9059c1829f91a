/**
 * The NewRelic deployment-marker hook with the HTTP exchange taken out: every
 * answer the API (or the transport) can give is an input, and the hook's
 * decisions are functions of it.
 */
module NewRelic {
  import opened Outcomes
  import GoFmt

  /** The NewRelic section of the process configuration (`utils.NewRelicConfig`). */
  datatype Config = Config(url: string, apiKey: string)

  /** The NewRelic section of a service manifest (`utils.NewRelicManifest`). */
  datatype ManifestSection = ManifestSection(applicationFilter: string, stopOnError: bool)

  /** `NewRelicClient` without its `http.Client`. */
  datatype Client = Client(url: string, apiKey: string, applicationFilter: string, applicationId: int, stop: bool)

  /** `NewRelicDeployment`: one deployment marker. */
  datatype Deployment = Deployment(revision: string, changelog: string, description: string, user: string)

  /** One entry of the decoded application list. */
  datatype Application = Application(id: int, name: string)

  datatype Body = FilterForm(text: string) | DeploymentJson(deployment: Deployment)

  /** A request as `NewRequest` and its caller prepare it. */
  datatype Request = Request(verb: string, url: string, apiKey: string, contentType: string, body: Body)

  /** What came of the application lookup, stage by stage. */
  datatype LookupReply =
    | LookupNotBuilt(cause: string)          // http.NewRequest refused the request
    | LookupNotSent(cause: string)           // the client's Do failed
    | LookupUnreadable(cause: string)        // reading the response body failed
    | LookupAnswered(status: int, decoded: Result<seq<Application>, string>)

  /** What came of the deployment creation, stage by stage. */
  datatype CreateReply =
    | CreateNotBuilt(cause: string)                    // http.NewRequest refused the request
    | CreateNotSent(cause: string)                     // the client's Do failed with no response
    | CreateRedirectRefused(status: int, cause: string) // Do failed with a response: a redirect was refused
    | CreateAnswered(status: int)

  /** The filter template: a parse error, or the text it rendered (render errors are ignored). */
  datatype Template = ParseFailed(cause: string) | Rendered(text: string)

  const MissingUrl := "You need to define an url for newrelic in the config."
  const MissingApiKey := "You need to define an apiKey for newrelic in the config."
  const MissingFilter := "You need to define an applicationId for newrelic in the manifest."
  const HttpError := "HTTP error from NewRelic"
  const StatusOK := 200
  const StatusCreated := 201
  const ApplicationsRoute := "v2/applications.json"

  /**
   * `NewNewRelicClient`: the url, the api key and the application filter are
   * required, checked in that order; the first one missing decides the error.
   */
  function NewClient(cfg: Config, manifest: ManifestSection): (r: Result<Client, string>)
    ensures r.Success? <==> cfg.url != "" && cfg.apiKey != "" && manifest.applicationFilter != ""
    ensures cfg.url == "" ==> r == Failure(MissingUrl)
    ensures cfg.url != "" && cfg.apiKey == "" ==> r == Failure(MissingApiKey)
    ensures cfg.url != "" && cfg.apiKey != "" && manifest.applicationFilter == "" ==> r == Failure(MissingFilter)
    ensures r.Success? ==>
              && r.value.url == cfg.url && r.value.apiKey == cfg.apiKey
              && r.value.applicationFilter == manifest.applicationFilter
              && r.value.stop == manifest.stopOnError && r.value.applicationId == 0
  {
    if cfg.url == "" then Failure(MissingUrl)
    else if cfg.apiKey == "" then Failure(MissingApiKey)
    else if manifest.applicationFilter == "" then Failure(MissingFilter)
    else Success(Client(cfg.url, cfg.apiKey, manifest.applicationFilter, 0, manifest.stopOnError))
  }

  /** The hook's one-time setup does nothing and cannot fail. */
  function Init(c: Client): (r: Outcome<string>)
    ensures r == Pass
  {
    Pass
  }

  /** Nothing is recorded after a deployment. */
  function PostDeployment(c: Client, userName: string, env: string, service: string, podVersion: string): (r: Outcome<string>)
    ensures r == Pass
  {
    Pass
  }

  /** The failure policy is the one the manifest gave at construction. */
  function StopOnError(c: Client): (stop: bool)
    ensures stop <==> c.stop
  {
    c.stop
  }

  /** A client built from a configuration never fails to initialise and keeps the manifest's policy. */
  lemma ConstructedClientPolicy(cfg: Config, manifest: ManifestSection)
    requires NewClient(cfg, manifest).Success?
    ensures Init(NewClient(cfg, manifest).value) == Pass
    ensures StopOnError(NewClient(cfg, manifest).value) == manifest.stopOnError
  {
  }

  /** The address of `route` under the configured API root. */
  function RequestUrl(c: Client, route: string): (url: string)
    ensures |url| == |c.url| + 1 + |route|
    ensures url[..|c.url|] == c.url && url[|c.url|] == '/' && url[|c.url| + 1..] == route
  {
    c.url + "/" + route
  }

  /** `NewRequest` (on success): the verb, the address and the api-key header. */
  function NewRequest(c: Client, verb: string, route: string, contentType: string, body: Body): (r: Request)
    ensures r.verb == verb && r.url == RequestUrl(c, route) && r.apiKey == c.apiKey
    ensures r.contentType == contentType && r.body == body
  {
    Request(verb, RequestUrl(c, route), c.apiKey, contentType, body)
  }

  /** The request that looks the application up by name. */
  function LookupRequest(c: Client, nameFilter: string): (r: Request)
    ensures r.verb == "GET" && r.url == c.url + "/v2/applications.json" && r.apiKey == c.apiKey
    ensures r.contentType == "application/x-www-form-urlencoded" && r.body == FilterForm("filter[name]=" + nameFilter)
  {
    NewRequest(c, "GET", ApplicationsRoute, "application/x-www-form-urlencoded", FilterForm("filter[name]=" + nameFilter))
  }

  /** The route of the deployment list of application `id`, with `id` written by `%d`. */
  function DeploymentRoute(id: int): string {
    "v2/applications/" + GoFmt.FormatInt(id) + "/deployments.json"
  }

  /** The request that records deployment `d` on the client's application. */
  function CreateRequest(c: Client, d: Deployment): (r: Request)
    ensures r.verb == "POST" && r.apiKey == c.apiKey
    ensures r.url == c.url + "/v2/applications/" + GoFmt.FormatInt(c.applicationId) + "/deployments.json"
    ensures r.contentType == "application/json" && r.body == DeploymentJson(d)
  {
    NewRequest(c, "POST", DeploymentRoute(c.applicationId), "application/json", DeploymentJson(d))
  }

  /** Different application ids are posted to different addresses. */
  lemma DeploymentUrlsDistinct(c: Client, d: Deployment, i: int, j: int)
    requires i != j
    ensures CreateRequest(c.(applicationId := i), d).url != CreateRequest(c.(applicationId := j), d).url
  {
    GoFmt.ParseFormatInt(i);
    GoFmt.ParseFormatInt(j);
    MiddleDistinct(c.url + "/v2/applications/", GoFmt.FormatInt(i), GoFmt.FormatInt(j), "/deployments.json");
  }

  /** Strings that differ only between a common prefix and suffix differ. */
  lemma MiddleDistinct(pre: string, a: string, b: string, post: string)
    requires a != b
    ensures pre + a + post != pre + b + post
  {
    if |a| == |b| {
      assert a == (pre + a + post)[|pre|..|pre| + |a|];
      assert b == (pre + b + post)[|pre|..|pre| + |b|];
    }
  }

  /**
   * `findApplicationId` on what the exchange produced: any stage failure is an
   * error, then the status must be 200, then the body must decode, then the list
   * must be non-empty; the first application's id is the answer.
   */
  function FindApplicationId(nameFilter: string, reply: LookupReply): (r: Result<int, string>)
    ensures r.Success? <==> reply.LookupAnswered? && reply.status == StatusOK
                            && reply.decoded.Success? && |reply.decoded.value| > 0
    ensures r.Success? ==> r.value == reply.decoded.value[0].id
    ensures reply.LookupAnswered? && reply.status != StatusOK ==> r == Failure(HttpError)
    ensures reply.LookupAnswered? && reply.status == StatusOK && reply.decoded.Success? && |reply.decoded.value| == 0
            ==> r == Failure("application " + nameFilter + " not found")
    ensures reply.LookupNotBuilt? || reply.LookupNotSent? || reply.LookupUnreadable? ==> r == Failure(reply.cause)
    ensures reply.LookupAnswered? && reply.status == StatusOK && reply.decoded.Failure?
            ==> r == Failure(reply.decoded.error)
  {
    match reply
    case LookupNotBuilt(e) => Failure(e)
    case LookupNotSent(e) => Failure(e)
    case LookupUnreadable(e) => Failure(e)
    case LookupAnswered(status, decoded) =>
      if status != StatusOK then Failure(HttpError)
      else match decoded
        case Failure(e) => Failure(e)
        case Success(apps) =>
          if |apps| == 0 then Failure("application " + nameFilter + " not found") else Success(apps[0].id)
  }

  /** The error text for an unexpected status of the deployment creation. */
  function StatusError(status: int): string {
    "NewRelic status code: " + GoFmt.FormatInt(status)
  }

  /** The status code can be read back from the error text. */
  lemma StatusErrorCarriesCode(status: int)
    ensures var m := StatusError(status);
            var prefix := "NewRelic status code: ";
            |m| > |prefix| && m[..|prefix|] == prefix
            && GoFmt.IsDecimal(m[|prefix|..]) && GoFmt.ParseInt(m[|prefix|..]) == status
  {
    var prefix := "NewRelic status code: ";
    assert StatusError(status)[|prefix|..] == GoFmt.FormatInt(status);
    GoFmt.ParseFormatInt(status);
  }

  /**
   * `CreateDeployment` as it should behave: a failure of any stage is that
   * stage's error; an answer succeeds only with status 201, and any other
   * status is an error naming the code.
   */
  function CreateDeployment(reply: CreateReply): (r: Outcome<string>)
    ensures r == Pass <==> reply == CreateAnswered(StatusCreated)
    ensures reply.CreateAnswered? && reply.status != StatusCreated ==> r == Fail(StatusError(reply.status))
    ensures reply.CreateNotBuilt? || reply.CreateNotSent? || reply.CreateRedirectRefused? ==> r == Fail(reply.cause)
  {
    match reply
    case CreateNotBuilt(e) => Fail(e)
    case CreateNotSent(e) => Fail(e)
    case CreateRedirectRefused(_, e) => Fail(e)
    case CreateAnswered(status) => if status != StatusCreated then Fail(StatusError(status)) else Pass
  }

  /** How a call ends when the code may also crash. */
  datatype Completion = Returned(outcome: Outcome<string>) | Panicked

  /**
   * `CreateDeployment` as written: the response's status code is logged before
   * the error of `Do` is looked at, so a failed `Do` without a response (nil)
   * crashes; a refused redirect comes with a response and returns the error.
   */
  function CreateDeploymentAsWritten(reply: CreateReply): (r: Completion)
    ensures r == Panicked <==> reply.CreateNotSent?
    ensures !reply.CreateNotSent? ==> r == Returned(CreateDeployment(reply))
  {
    match reply
    case CreateNotBuilt(e) => Returned(Fail(e))
    case CreateNotSent(e) => Panicked
    case CreateRedirectRefused(_, e) => Returned(Fail(e))
    case CreateAnswered(status) => Returned(if status != StatusCreated then Fail(StatusError(status)) else Pass)
  }

  /** A refused connection crashes the code as written, where an error was meant. */
  lemma SendFailurePanics()
    ensures CreateDeploymentAsWritten(CreateNotSent("connection refused")) == Panicked
    ensures CreateDeployment(CreateNotSent("connection refused")) == Fail("connection refused")
  {
  }

  /** The deployment marker that `PreDeployment` records. */
  function NewDeployment(userName: string, env: string, service: string, podVersion: string): (d: Deployment)
    ensures d.revision == podVersion && d.user == userName && d.changelog == ""
    ensures d.description == "Deploying " + service + " " + podVersion + " on " + env
  {
    Deployment(podVersion, "", "Deploying " + service + " " + podVersion + " on " + env, userName)
  }

  /** If `a` has no space, a space after it is the first one. */
  lemma {:induction false} FirstSpaceSplits(a: string, b: string, a': string, b': string)
    requires ' ' !in a && ' ' !in a'
    requires a + " " + b == a' + " " + b'
    ensures a == a' && b == b'
  {
    var s := a + " " + b;
    var k := if |a| <= |a'| then |a| else |a'|;
    assert s[k] == (a' + " " + b')[k];
    assert |a| == |a'|;
    assert a == s[..|a|] && a' == s[..|a'|];
    assert b == s[|a| + 1..] && b' == s[|a'| + 1..];
  }

  /**
   * When the service and the version contain no space, the description names
   * them and the environment unambiguously.
   */
  lemma DescriptionDetermines(env: string, service: string, podVersion: string, env': string, service': string, podVersion': string)
    requires ' ' !in service && ' ' !in podVersion && ' ' !in service' && ' ' !in podVersion'
    requires NewDeployment("", env, service, podVersion).description == NewDeployment("", env', service', podVersion').description
    ensures service == service' && podVersion == podVersion' && env == env'
  {
    var pre := "Deploying ";
    var s := pre + service + " " + podVersion + " on " + env;
    var s' := pre + service' + " " + podVersion' + " on " + env';
    var rest := podVersion + " on " + env;
    var rest' := podVersion' + " on " + env';
    assert s == pre + (service + " " + rest);
    assert s' == pre + (service' + " " + rest');
    assert service + " " + rest == s[|pre|..] == s'[|pre|..] == service' + " " + rest';
    FirstSpaceSplits(service, rest, service', rest');
    assert rest == podVersion + " " + ("on " + env);
    assert rest' == podVersion' + " " + ("on " + env');
    FirstSpaceSplits(podVersion, "on " + env, podVersion', "on " + env');
    assert env == ("on " + env)[3..] && env' == ("on " + env')[3..];
  }

  /**
   * `PreDeployment`: render the filter, look the application up, record its id
   * in the receiver's copy, then post the deployment marker. Returns the outcome
   * and the requests it addressed to the API, in order. The client is a value:
   * the caller's client is not changed.
   */
  method PreDeployment(c: Client, userName: string, env: string, service: string, podVersion: string,
                       filter: Template, lookup: LookupReply, create: CreateReply)
    returns (r: Outcome<string>, sent: seq<Request>)
    ensures filter.ParseFailed? ==> r == Fail(filter.cause) && sent == []
    ensures filter.Rendered? ==>
      var found := FindApplicationId(filter.text, lookup);
      var lookupSent := if lookup.LookupNotBuilt? then [] else [LookupRequest(c, filter.text)];
      if found.Failure? then
        r == Fail(found.error) && sent == lookupSent
      else
        var posted := CreateRequest(c.(applicationId := found.value), NewDeployment(userName, env, service, podVersion));
        r == CreateDeployment(create)
        && sent == lookupSent + (if create.CreateNotBuilt? then [] else [posted])
  {
    sent := [];
    if filter.ParseFailed? {
      return Fail(filter.cause), sent;
    }
    var nameFilter := filter.text;
    if !lookup.LookupNotBuilt? {
      sent := sent + [LookupRequest(c, nameFilter)];
    }
    var appId := FindApplicationId(nameFilter, lookup);
    if appId.Failure? {
      return Fail(appId.error), sent;
    }
    var local := c.(applicationId := appId.value);
    var d := NewDeployment(userName, env, service, podVersion);
    if !create.CreateNotBuilt? {
      sent := sent + [CreateRequest(local, d)];
    }
    r := CreateDeployment(create);
  }
}
