/** `CustomServeBuilder`: start a Stubby server from the stub configuration,
    then hand off to the dev-server target with watch mode forced on, with one
    error boundary that turns any failure into a single `{success: false}`.

    The collaborators (`require`, Stubby, the Architect, `normalize` and
    `resolve`) are inputs, given as a `Context` of functions from the arguments
    of each call to its outcome. Each run records the calls it makes, in order,
    as a trace; the observable's emissions are a sequence of build events. */
module Serve {
  import opened Wrappers
  import opened Paths
  import opened Stubs
  import opened TargetSpecifier

  datatype BuildEvent = BuildEvent(success: bool)

  /** Stubby's port and TLS settings, passed through to Stubby untouched. */
  datatype Tuning = Tuning(
    stubs: Option<int>, admin: Option<int>, tls: Option<int>,
    key: Option<string>, cert: Option<string>, pfx: Option<string>,
    httpsOptions: Option<Json>)

  /** `CustomServeBuilderOptions`, plus the `project` field that `run` sets. */
  datatype ServeOptions = ServeOptions(
    devServerTarget: Option<string>,
    stubsConfigFile: Option<string>,
    watch: Option<bool>,
    location: Option<string>,
    project: Option<string>,
    tuning: Tuning)

  /** The part of the builder's own configuration that `run` reads. */
  datatype BuilderConfiguration = BuilderConfiguration(root: string, options: ServeOptions)

  /** The object handed to `stubsServer.start`: the caller's options with four
      fields forced. */
  datatype StubbyOptions = StubbyOptions(
    devServerTarget: Option<string>,
    stubsConfigFile: Option<string>,
    project: Option<string>,
    tuning: Tuning,
    quiet: bool,
    watch: string,
    location: string,
    data: seq<NormalizedStub>)

  /** Handles produced by the Architect; this model only passes them along. */
  datatype DevServerConfig = DevServerConfig(id: nat)
  datatype Description = Description(name: string)
  datatype Builder = Builder(name: string)

  /** What Stubby does when asked to start: invoke the start callback (whatever
      it passes to it, the builder ignores), throw, or never call back. */
  datatype StartOutcome = CallsBack | Throws(error: Error) | Silent

  /** What the delegated builder's `run` emits: some events, then possibly an error. */
  datatype Emission = Emission(events: seq<BuildEvent>, error: Option<Error>)

  /** The Architect calls that the builder makes. */
  datatype Architect = Architect(
    getBuilderConfiguration: TargetSpec -> Result<DevServerConfig>,
    getBuilderDescription: DevServerConfig -> Result<Description>,
    validateBuilderOptions: (DevServerConfig, Description) -> Result<DevServerConfig>,
    getBuilder: Description -> Result<Builder>,
    run: (Builder, DevServerConfig) -> Emission)

  /** The builder's context: the workspace root and its collaborators. */
  datatype Context = Context(
    workspaceRoot: string,
    paths: PathOps,
    require: string -> Result<StubsConfig>,
    stubby: StubbyOptions -> StartOutcome,
    architect: Architect)

  /** An external call made during a run, or Stubby's start callback firing. */
  datatype Call =
    | RequireConfig(path: string)
    | NewStubby
    | StartStubby(options: StubbyOptions)
    | StubbyReady
    | GetBuilderConfiguration(spec: TargetSpec)
    | GetBuilderDescription(config: DevServerConfig)
    | ValidateBuilderOptions(config: DevServerConfig, description: Description)
    | GetBuilder(description: Description)
    | RunBuilder(builder: Builder, config: DevServerConfig)
  {
    /** The place of this call in the one order in which a run makes them. */
    function Step(): nat
    {
      match this
      case RequireConfig(_) => 0
      case NewStubby => 1
      case StartStubby(_) => 2
      case StubbyReady => 3
      case GetBuilderConfiguration(_) => 4
      case GetBuilderDescription(_) => 5
      case ValidateBuilderOptions(_, _) => 6
      case GetBuilder(_) => 7
      case RunBuilder(_, _) => 8
    }

    predicate IsArchitectCall()
    {
      Step() >= 4
    }
  }

  /** The trace follows the fixed order from step `first` on, with no step
      skipped or repeated; it may stop early. */
  predicate InFixedOrder(trace: seq<Call>, first: nat)
  {
    forall i | 0 <= i < |trace| :: trace[i].Step() == first + i
  }

  /** `normalize(this.context.workspace.root)`. */
  function WorkspaceRoot(ctx: Context): string
  {
    ctx.paths.normalize(ctx.workspaceRoot)
  }

  /** `resolve(root, normalize(options.stubsConfigFile))`. */
  function ConfigFullPath(ctx: Context, file: string): string
  {
    ctx.paths.resolve(WorkspaceRoot(ctx), ctx.paths.normalize(file))
  }

  /** What `runStubs` promises about the options Stubby is started with: the
      caller's fields are kept, except that output is not quiet, the config
      file itself is watched, the server binds to localhost, and the data is
      the loaded stub list with its response files rewritten. */
  predicate StartedAsPromised(ctx: Context, options: ServeOptions, started: StubbyOptions)
  {
    Truthy(options.stubsConfigFile) &&
    var fullPath := ConfigFullPath(ctx, options.stubsConfigFile.value);
    var loaded := ctx.require(ReplacePathForWindows(fullPath));
    started.quiet == false && started.watch == fullPath && started.location == "localhost" &&
    started.devServerTarget == options.devServerTarget &&
    started.stubsConfigFile == options.stubsConfigFile &&
    started.project == options.project &&
    started.tuning == options.tuning &&
    loaded.Ok? && loaded.value.StubList? &&
    NormalizeResponseFilePaths(loaded.value.entries, WorkspaceRoot(ctx), ctx.paths) == Ok(started.data)
  }

  /** How the stub phase ends: the server signalled ready, the phase threw, or
      the start callback has not fired (and the run waits). */
  datatype StubsOutcome = Ready | StubsFailed(error: Error) | Waiting

  datatype StubsRun = StubsRun(outcome: StubsOutcome, trace: seq<Call>)

  /** The observable returned by `runStubs`. */
  function StubsPhase(ctx: Context, options: ServeOptions): (r: StubsRun)
    ensures InFixedOrder(r.trace, 0) && |r.trace| <= 4
    ensures r.trace == [] <==> !Truthy(options.stubsConfigFile)
    ensures !Truthy(options.stubsConfigFile) ==> r.outcome == StubsFailed(MissingStubsConfigFile)
    ensures Truthy(options.stubsConfigFile) ==>
      r.trace[0] == RequireConfig(ReplacePathForWindows(ConfigFullPath(ctx, options.stubsConfigFile.value)))
    ensures |r.trace| == 1 ==> ctx.require(r.trace[0].path).Err? && r.outcome == StubsFailed(ctx.require(r.trace[0].path).error)
    ensures |r.trace| >= 2 ==> ctx.require(r.trace[0].path).Ok?
    ensures |r.trace| == 2 ==>
      var loaded := ctx.require(r.trace[0].path).value;
      if loaded.NotAList? then r.outcome == StubsFailed(NotAnArray)
      else
        var normalized := NormalizeResponseFilePaths(loaded.entries, WorkspaceRoot(ctx), ctx.paths);
        normalized.Err? && r.outcome == StubsFailed(normalized.error)
    ensures |r.trace| >= 3 ==> StartedAsPromised(ctx, options, r.trace[2].options)
    ensures |r.trace| >= 3 ==> (r.outcome == Ready <==> ctx.stubby(r.trace[2].options) == CallsBack)
    ensures |r.trace| >= 3 ==> (r.outcome == Waiting <==> ctx.stubby(r.trace[2].options) == Silent)
    ensures |r.trace| >= 3 && ctx.stubby(r.trace[2].options).Throws? ==>
      r.outcome == StubsFailed(ctx.stubby(r.trace[2].options).error)
    ensures r.outcome == Ready <==> |r.trace| == 4
  {
    if !Truthy(options.stubsConfigFile) then
      StubsRun(StubsFailed(MissingStubsConfigFile), [])
    else
      var root := WorkspaceRoot(ctx);
      var fullPath := ConfigFullPath(ctx, options.stubsConfigFile.value);
      var required := [RequireConfig(ReplacePathForWindows(fullPath))];
      match ctx.require(ReplacePathForWindows(fullPath))
      case Err(e) => StubsRun(StubsFailed(e), required)
      case Ok(NotAList(_)) => StubsRun(StubsFailed(NotAnArray), required + [NewStubby])
      case Ok(StubList(data)) =>
        match NormalizeResponseFilePaths(data, root, ctx.paths)
        case Err(e) => StubsRun(StubsFailed(e), required + [NewStubby])
        case Ok(stubs) =>
          var started := StubbyOptions(
            options.devServerTarget, options.stubsConfigFile, options.project, options.tuning,
            false, fullPath, "localhost", stubs);
          var calls := required + [NewStubby, StartStubby(started)];
          match ctx.stubby(started)
          case CallsBack => StubsRun(Ready, calls + [StubbyReady])
          case Throws(e) => StubsRun(StubsFailed(e), calls)
          case Silent => StubsRun(Waiting, calls)
  }

  datatype ServerRun = ServerRun(events: seq<BuildEvent>, error: Option<Error>, trace: seq<Call>)

  /** The observable returned by `startServer`. Each Architect call is made only
      when the one before it succeeded, and takes its arguments from the
      results before it: the builder runs with the configuration that
      `getBuilderConfiguration` returned and the description that
      `getBuilderDescription` emitted. */
  function DevServerPhase(ctx: Context, options: ServeOptions): (r: ServerRun)
    ensures InFixedOrder(r.trace, 4) && |r.trace| <= 5
    ensures options.devServerTarget.None? <==> r.trace == []
    ensures options.devServerTarget.None? ==> r.error == Some(DevServerTargetUndefined)
    ensures options.devServerTarget.Some? ==> r.trace[0] == GetBuilderConfiguration(ParseTargetSpec(options.devServerTarget.value))
    ensures |r.trace| == 1 ==> var c := ctx.architect.getBuilderConfiguration(r.trace[0].spec);
      c.Err? && r.error == Some(c.error)
    ensures |r.trace| >= 2 ==> var c := ctx.architect.getBuilderConfiguration(r.trace[0].spec);
      c.Ok? && r.trace[1] == GetBuilderDescription(c.value)
    ensures |r.trace| == 2 ==> var d := ctx.architect.getBuilderDescription(r.trace[1].config);
      d.Err? && r.error == Some(d.error)
    ensures |r.trace| >= 3 ==> var d := ctx.architect.getBuilderDescription(r.trace[1].config);
      d.Ok? && r.trace[2] == ValidateBuilderOptions(r.trace[1].config, d.value)
    ensures |r.trace| == 3 ==> var v := ctx.architect.validateBuilderOptions(r.trace[2].config, r.trace[2].description);
      v.Err? && r.error == Some(v.error)
    ensures |r.trace| >= 4 ==>
      ctx.architect.validateBuilderOptions(r.trace[2].config, r.trace[2].description).Ok? &&
      r.trace[3] == GetBuilder(r.trace[2].description)
    ensures |r.trace| == 4 ==> var b := ctx.architect.getBuilder(r.trace[3].description);
      b.Err? && r.error == Some(b.error)
    ensures |r.trace| == 5 ==> var b := ctx.architect.getBuilder(r.trace[3].description);
      b.Ok? && r.trace[4] == RunBuilder(b.value, r.trace[1].config) &&
      r.events == ctx.architect.run(b.value, r.trace[1].config).events &&
      r.error == ctx.architect.run(b.value, r.trace[1].config).error
    ensures |r.trace| < 5 ==> r.events == [] && r.error.Some?
  {
    if options.devServerTarget.None? then
      ServerRun([], Some(DevServerTargetUndefined), [])
    else
      var architect := ctx.architect;
      var targetSpec := ParseTargetSpec(options.devServerTarget.value);
      var t0 := [GetBuilderConfiguration(targetSpec)];
      match architect.getBuilderConfiguration(targetSpec)
      case Err(e) => ServerRun([], Some(e), t0)
      case Ok(builderConfig) =>
        var t1 := t0 + [GetBuilderDescription(builderConfig)];
        match architect.getBuilderDescription(builderConfig)
        case Err(e) => ServerRun([], Some(e), t1)
        case Ok(description) =>
          var t2 := t1 + [ValidateBuilderOptions(builderConfig, description)];
          match architect.validateBuilderOptions(builderConfig, description)
          case Err(e) => ServerRun([], Some(e), t2)
          case Ok(_) =>
            var t3 := t2 + [GetBuilder(description)];
            match architect.getBuilder(description)
            case Err(e) => ServerRun([], Some(e), t3)
            case Ok(builder) =>
              var emitted := architect.run(builder, builderConfig);
              ServerRun(emitted.events, emitted.error, t3 + [RunBuilder(builder, builderConfig)])
  }

  datatype RunResult = RunResult(events: seq<BuildEvent>, caught: Option<Error>, trace: seq<Call>)

  /** The events that the delegated builder emitted in a run, if it was run. */
  function Forwarded(ctx: Context, trace: seq<Call>): seq<BuildEvent>
  {
    if |trace| == 9 && trace[8].RunBuilder? then ctx.architect.run(trace[8].builder, trace[8].config).events else []
  }

  /** The observable returned by `run`: the stub phase, then (through
      `concatMap`, so only once the stub server signalled ready) the dev-server
      phase, both with the caller's options and `project` set to the builder's
      root, under one `catchError`. The output is exactly what the delegated
      builder emitted, followed by one `{success: false}` when an error was
      caught; a missing stub configuration starts no server at all. */
  function Pipeline(ctx: Context, builderConfig: BuilderConfiguration): (r: RunResult)
    ensures InFixedOrder(r.trace, 0)
    ensures |r.trace| > 4 ==> r.trace[3] == StubbyReady
    ensures r.caught.Some? ==> r.events == Forwarded(ctx, r.trace) + [BuildEvent(false)]
    ensures r.caught.None? ==> r.events == Forwarded(ctx, r.trace)
    ensures r.caught.None? && |r.trace| < 9 ==>
      |r.trace| == 3 && ctx.stubby(r.trace[2].options) == Silent && r.events == []
    ensures |r.trace| == 9 ==> r.caught == ctx.architect.run(r.trace[8].builder, r.trace[8].config).error
    ensures !Truthy(builderConfig.options.stubsConfigFile) ==> r.trace == [] && r.events == [BuildEvent(false)]
    ensures |r.trace| >= 3 ==>
      StartedAsPromised(ctx, builderConfig.options.(project := Some(builderConfig.root)), r.trace[2].options) &&
      r.trace[2].options.project == Some(builderConfig.root)
    ensures |r.trace| >= 5 ==>
      builderConfig.options.devServerTarget.Some? &&
      r.trace[4] == GetBuilderConfiguration(ParseTargetSpec(builderConfig.options.devServerTarget.value))
    ensures |r.trace| >= 4 ==> ctx.stubby(r.trace[2].options) == CallsBack
    ensures var stubs := StubsPhase(ctx, builderConfig.options.(project := Some(builderConfig.root)));
      |stubs.trace| <= |r.trace| && r.trace[..|stubs.trace|] == stubs.trace &&
      (stubs.outcome.StubsFailed? ==> r.trace == stubs.trace && r.caught == Some(stubs.outcome.error)) &&
      (stubs.outcome.Waiting? ==> r.trace == stubs.trace && r.caught.None?)
    ensures var options := builderConfig.options.(project := Some(builderConfig.root));
      var server := DevServerPhase(ctx, options);
      StubsPhase(ctx, options).outcome == Ready ==>
        |r.trace| >= 4 && r.trace[4..] == server.trace && r.caught == server.error
  {
    var options := builderConfig.options.(project := Some(builderConfig.root));
    var stubs := StubsPhase(ctx, options);
    match stubs.outcome
    case StubsFailed(e) => RunResult([BuildEvent(false)], Some(e), stubs.trace)
    case Waiting => RunResult([], None, stubs.trace)
    case Ready =>
      var server := DevServerPhase(ctx, options);
      var trace := stubs.trace + server.trace;
      assert |stubs.trace| == 4 && trace[..4] == stubs.trace && trace[4..] == server.trace;
      RunResult(server.events + (if server.error.Some? then [BuildEvent(false)] else []), server.error, trace)
  }

  /** No Architect call is made before Stubby's start callback has fired. */
  lemma ArchitectOnlyAfterStubbyReady(ctx: Context, builderConfig: BuilderConfiguration)
    ensures var r := Pipeline(ctx, builderConfig);
      forall i | 0 <= i < |r.trace| && r.trace[i].IsArchitectCall() :: 3 < i && r.trace[3] == StubbyReady
  {
  }

  /** While Stubby does not call back, the dev-server target is never touched
      and, unless the stub phase threw, nothing is emitted. */
  lemma SilentStubbyNeverDelegates(ctx: Context, builderConfig: BuilderConfiguration)
    requires forall o :: ctx.stubby(o) == Silent
    ensures var r := Pipeline(ctx, builderConfig);
      (forall i | 0 <= i < |r.trace| :: !r.trace[i].IsArchitectCall()) &&
      (r.caught.None? ==> r.events == [])
  {
  }

  /** `project:target:configuration` reaches the Architect as those three parts
      with `watch: true`. */
  lemma ThreeSegmentTargetReachesArchitect(ctx: Context, builderConfig: BuilderConfiguration,
                                           project: string, target: string, configuration: string)
    requires ':' !in project && ':' !in target && ':' !in configuration
    requires builderConfig.options.devServerTarget == Some(project + ":" + target + ":" + configuration)
    requires StubsPhase(ctx, builderConfig.options.(project := Some(builderConfig.root))).outcome == Ready
    ensures |Pipeline(ctx, builderConfig).trace| >= 5
    ensures Pipeline(ctx, builderConfig).trace[4]
      == GetBuilderConfiguration(TargetSpec(project, Some(target), Some(configuration), Overrides(true)))
  {
    ParseThreeSegments(project, target, configuration);
  }

  /** `project:target` reaches the Architect too, with no configuration. */
  lemma TwoSegmentTargetReachesArchitect(ctx: Context, builderConfig: BuilderConfiguration,
                                         project: string, target: string)
    requires ':' !in project && ':' !in target
    requires builderConfig.options.devServerTarget == Some(project + ":" + target)
    requires StubsPhase(ctx, builderConfig.options.(project := Some(builderConfig.root))).outcome == Ready
    ensures |Pipeline(ctx, builderConfig).trace| >= 5
    ensures Pipeline(ctx, builderConfig).trace[4]
      == GetBuilderConfiguration(TargetSpec(project, Some(target), None, Overrides(true)))
  {
    ParseTwoSegments(project, target);
  }

  /** The specifier is not validated: one without any `:` still reaches the
      Architect, with the target name undefined. */
  lemma UnsplitTargetReachesArchitect(ctx: Context, builderConfig: BuilderConfiguration, name: string)
    requires ':' !in name
    requires builderConfig.options.devServerTarget == Some(name)
    requires StubsPhase(ctx, builderConfig.options.(project := Some(builderConfig.root))).outcome == Ready
    ensures |Pipeline(ctx, builderConfig).trace| >= 5
    ensures Pipeline(ctx, builderConfig).trace[4]
      == GetBuilderConfiguration(TargetSpec(name, None, None, Overrides(true)))
  {
    SplitWithoutSeparator(name, ':');
  }

  /** The caller's `watch` and `location` have no effect on a run: Stubby is
      always given the config path and `localhost` instead. */
  lemma CallerWatchAndLocationIgnored(ctx: Context, b1: BuilderConfiguration, b2: BuilderConfiguration)
    requires b1.root == b2.root
    requires b1.options.(watch := None, location := None) == b2.options.(watch := None, location := None)
    ensures Pipeline(ctx, b1) == Pipeline(ctx, b2)
  {
  }

  /** The builder, as an object holding its Architect context. Its methods do
      the steps of `runStubs`, `startServer` and `run` one after another and
      are proved to produce the phases above. */
  class CustomServeBuilder {
    const context: Context

    constructor (context: Context)
      ensures this.context == context
    {
      this.context := context;
    }

    method RunStubs(options: ServeOptions) returns (outcome: StubsOutcome, trace: seq<Call>)
      ensures StubsRun(outcome, trace) == StubsPhase(context, options)
    {
      trace := [];
      if !Truthy(options.stubsConfigFile) {
        outcome := StubsFailed(MissingStubsConfigFile);
        return;
      }
      var root := WorkspaceRoot(context);
      var stubsConfigFullPath := ConfigFullPath(context, options.stubsConfigFile.value);
      var configPath := ReplacePathForWindows(stubsConfigFullPath);
      trace := trace + [RequireConfig(configPath)];
      var data := context.require(configPath);
      if data.Err? {
        outcome := StubsFailed(data.error);
        return;
      }
      trace := trace + [NewStubby];
      if data.value.NotAList? {
        outcome := StubsFailed(NotAnArray);
        return;
      }
      var normalized := NormalizeResponseFilePaths(data.value.entries, root, context.paths);
      if normalized.Err? {
        outcome := StubsFailed(normalized.error);
        return;
      }
      var startOptions := StubbyOptions(
        options.devServerTarget, options.stubsConfigFile, options.project, options.tuning,
        false, stubsConfigFullPath, "localhost", normalized.value);
      trace := trace + [StartStubby(startOptions)];
      var started := context.stubby(startOptions);
      match started {
        case CallsBack =>
          trace := trace + [StubbyReady];
          outcome := Ready;
        case Throws(e) =>
          outcome := StubsFailed(e);
        case Silent =>
          outcome := Waiting;
      }
    }

    method StartServer(options: ServeOptions) returns (events: seq<BuildEvent>, error: Option<Error>, trace: seq<Call>)
      ensures ServerRun(events, error, trace) == DevServerPhase(context, options)
    {
      events, error, trace := [], None, [];
      if options.devServerTarget.None? {
        error := Some(DevServerTargetUndefined);
        return;
      }
      var architect := context.architect;
      var targetSpec := ParseTargetSpec(options.devServerTarget.value);
      trace := trace + [GetBuilderConfiguration(targetSpec)];
      var builderConfig := architect.getBuilderConfiguration(targetSpec);
      if builderConfig.Err? {
        error := Some(builderConfig.error);
        return;
      }
      trace := trace + [GetBuilderDescription(builderConfig.value)];
      var description := architect.getBuilderDescription(builderConfig.value);
      if description.Err? {
        error := Some(description.error);
        return;
      }
      var devServerDescription := description.value;
      trace := trace + [ValidateBuilderOptions(builderConfig.value, devServerDescription)];
      var validated := architect.validateBuilderOptions(builderConfig.value, devServerDescription);
      if validated.Err? {
        error := Some(validated.error);
        return;
      }
      trace := trace + [GetBuilder(devServerDescription)];
      var builder := architect.getBuilder(devServerDescription);
      if builder.Err? {
        error := Some(builder.error);
        return;
      }
      trace := trace + [RunBuilder(builder.value, builderConfig.value)];
      var emitted := architect.run(builder.value, builderConfig.value);
      events, error := emitted.events, emitted.error;
    }

    method Run(builderConfig: BuilderConfiguration) returns (events: seq<BuildEvent>, caught: Option<Error>, trace: seq<Call>)
      ensures RunResult(events, caught, trace) == Pipeline(context, builderConfig)
    {
      var options := builderConfig.options.(project := Some(builderConfig.root));
      var stubs;
      stubs, trace := RunStubs(options);
      match stubs {
        case StubsFailed(e) =>
          events, caught := [BuildEvent(false)], Some(e);
        case Waiting =>
          events, caught := [], None;
        case Ready =>
          var served, error, serverTrace := StartServer(options);
          trace := trace + serverTrace;
          caught := error;
          events := if error.Some? then served + [BuildEvent(false)] else served;
      }
    }
  }
}
