/** The stack lifecycle entry points: each resolves the stack directory,
    creates the compose project, reads the application configuration when
    it needs image references, builds the command options and hands them to
    the compose engine, stopping at the first failure. The engine is a fake
    that records every invocation; the other collaborators are answers
    supplied by a `Host`. */
module Compose {
  import opened Errors
  import Services

  /** Name of the compose definition file inside the stack directory. */
  const SnapshotDefinitionFile: string := "snapshot.yml"

  /** Compose project name; declared in another file of the stack package,
      so its value is left open here. */
  const DockerComposeProjectName: string

  const LocatingFailed: string := "locating stack directory failed"
  const ProjectFailed: string := "could not create docker compose project"
  const ConfigFailed: string := "can't read application configuration"
  const CommandFailed: string := "running command failed"

  /** Flag that detaches `up` from the terminal. */
  const DetachFlag: string := "-d"

  newtype Byte = b: int | 0 <= b < 256

  /** `compose.CommandOptions`. */
  datatype CommandOptions = CommandOptions(env: map<string, string>, extraArgs: seq<string>, services: seq<string>)

  /** The zero `compose.CommandOptions{}`. */
  const EmptyOptions: CommandOptions := CommandOptions(map[], [], [])

  /** The fields of the stack package's `Options` that these entry points read. */
  datatype Options = Options(daemonMode: bool, services: seq<string>, stackVersion: string)

  /** The application configuration; how it turns a stack version into the
      image-reference environment is not shown, so it is an opaque function. */
  datatype AppConfig = AppConfig(stackImageRefsEnv: string -> map<string, string>)

  /** What the collaborators answer during one call: the stack directory (or
      why it could not be located), the error `compose.NewProject` reports if
      any, and the application configuration (or why it could not be read). */
  datatype Host = Host(stackDir: Result<string>, projectError: Option<Error>, configuration: Result<AppConfig>)

  /** The compose project a call operates on: its name and the definition
      file `definitionFile` inside `stackDir`. */
  datatype ProjectRef = ProjectRef(name: string, stackDir: string, definitionFile: string)

  datatype Op = BuildOp | PullOp | UpOp | DownOp | LogsOp

  /** One call the engine received. */
  datatype Invocation = Invocation(op: Op, project: ProjectRef, opts: CommandOptions)

  /** A fake compose engine: it records what it is asked to do and answers
      with the failure configured for that operation, if any. */
  class Engine {
    var invocations: seq<Invocation>
    const failures: map<Op, Error>
    const logOutput: seq<Byte>

    constructor (failures: map<Op, Error>, logOutput: seq<Byte>)
      ensures invocations == [] && this.failures == failures && this.logOutput == logOutput
    {
      invocations := [];
      this.failures := failures;
      this.logOutput := logOutput;
    }

    /** `Build`, `Pull`, `Up` or `Down` on a project. */
    method Run(op: Op, project: ProjectRef, opts: CommandOptions) returns (err: Option<Error>)
      requires op != LogsOp
      modifies this`invocations
      ensures invocations == old(invocations) + [Invocation(op, project, opts)]
      ensures err == (if op in failures then Some(failures[op]) else None)
    {
      invocations := invocations + [Invocation(op, project, opts)];
      err := if op in failures then Some(failures[op]) else None;
    }

    /** `Logs` on a project. */
    method Logs(project: ProjectRef, opts: CommandOptions) returns (out: seq<Byte>, err: Option<Error>)
      modifies this`invocations
      ensures invocations == old(invocations) + [Invocation(LogsOp, project, opts)]
      ensures err == (if LogsOp in failures then Some(failures[LogsOp]) else None)
      ensures err.None? ==> out == logOutput
    {
      invocations := invocations + [Invocation(LogsOp, project, opts)];
      if LogsOp in failures {
        out, err := [], Some(failures[LogsOp]);
      } else {
        out, err := logOutput, None;
      }
    }
  }

  /** The project every entry point creates once the stack directory is known. */
  function ProjectFor(stackDir: string): ProjectRef {
    ProjectRef(DockerComposeProjectName, stackDir, SnapshotDefinitionFile)
  }

  /** The error an entry point returns before reaching the engine, if any:
      location first, then project creation, then (for Pull and Up) the
      configuration, each wrapped with its own context. */
  function SetupFailure(host: Host, readsConfig: bool): Option<Error> {
    if host.stackDir.Failure? then Some(Wrapped(LocatingFailed, host.stackDir.error))
    else if host.projectError.Some? then Some(Wrapped(ProjectFailed, host.projectError.value))
    else if readsConfig && host.configuration.Failure? then Some(Wrapped(ConfigFailed, host.configuration.error))
    else None
  }

  /** The error an entry point returns once the engine answered. */
  function CommandResult(failures: map<Op, Error>, op: Op): Option<Error> {
    if op in failures then Some(Wrapped(CommandFailed, failures[op])) else None
  }

  /** Every invocation recorded from index `from` on selects the whole stack. */
  predicate AllSelected(invocations: seq<Invocation>, from: nat) {
    forall i :: from <= i < |invocations| ==> invocations[i].opts.services == []
  }

  /** Resolves the location and creates the project, the two steps every
      entry point starts with. */
  method OpenProject(host: Host) returns (project: ProjectRef, err: Option<Error>)
    ensures err == SetupFailure(host, false)
    ensures err.None? ==> project == ProjectFor(host.stackDir.value)
  {
    project := ProjectRef(DockerComposeProjectName, "", SnapshotDefinitionFile);
    if host.stackDir.Failure? {
      return project, Some(Wrapped(LocatingFailed, host.stackDir.error));
    }
    var stackDir := host.stackDir.value;
    if host.projectError.Some? {
      return project, Some(Wrapped(ProjectFailed, host.projectError.value));
    }
    return ProjectFor(stackDir), None;
  }

  /** Reads the application configuration after the project was created. */
  method ReadConfiguration(host: Host) returns (config: AppConfig, err: Option<Error>)
    ensures host.configuration.Failure? ==> err == Some(Wrapped(ConfigFailed, host.configuration.error))
    ensures host.configuration.Success? ==> err.None? && config == host.configuration.value
  {
    config := AppConfig(_ => map[]);
    if host.configuration.Failure? {
      return config, Some(Wrapped(ConfigFailed, host.configuration.error));
    }
    return host.configuration.value, None;
  }

  /** `dockerComposeBuild`: builds the selected units, with no environment. */
  method DockerComposeBuild(host: Host, engine: Engine, options: Options) returns (err: Option<Error>)
    modifies engine`invocations
    ensures SetupFailure(host, false).Some? ==>
      err == SetupFailure(host, false) && engine.invocations == old(engine.invocations)
    ensures SetupFailure(host, false).None? ==>
      engine.invocations == old(engine.invocations) +
        [Invocation(BuildOp, ProjectFor(host.stackDir.value), CommandOptions(map[], [], Services.SelectUnits(options.services)))] &&
      err == CommandResult(engine.failures, BuildOp)
    ensures Services.OrchestratorService in options.services ==> AllSelected(engine.invocations, |old(engine.invocations)|)
  {
    var c, setupErr := OpenProject(host);
    if setupErr.Some? {
      return setupErr;
    }
    var dependent := Services.WithDependentServices(options.services);
    var selected := Services.WithIsReadyServices(dependent);
    var opts := CommandOptions(map[], [], selected);
    var runErr := engine.Run(BuildOp, c, opts);
    if runErr.Some? {
      return Some(Wrapped(CommandFailed, runErr.value));
    }
    return None;
  }

  /** `dockerComposePull`: pulls the selected units with the image-reference
      environment of the requested stack version. */
  method DockerComposePull(host: Host, engine: Engine, options: Options) returns (err: Option<Error>)
    modifies engine`invocations
    ensures SetupFailure(host, true).Some? ==>
      err == SetupFailure(host, true) && engine.invocations == old(engine.invocations)
    ensures SetupFailure(host, true).None? ==>
      engine.invocations == old(engine.invocations) +
        [Invocation(PullOp, ProjectFor(host.stackDir.value),
                    CommandOptions(host.configuration.value.stackImageRefsEnv(options.stackVersion), [],
                                   Services.SelectUnits(options.services)))] &&
      err == CommandResult(engine.failures, PullOp)
    ensures Services.OrchestratorService in options.services ==> AllSelected(engine.invocations, |old(engine.invocations)|)
  {
    var c, setupErr := OpenProject(host);
    if setupErr.Some? {
      return setupErr;
    }
    var appConfig, configErr := ReadConfiguration(host);
    if configErr.Some? {
      return configErr;
    }
    var dependent := Services.WithDependentServices(options.services);
    var selected := Services.WithIsReadyServices(dependent);
    var opts := CommandOptions(appConfig.stackImageRefsEnv(options.stackVersion), [], selected);
    var runErr := engine.Run(PullOp, c, opts);
    if runErr.Some? {
      return Some(Wrapped(CommandFailed, runErr.value));
    }
    return None;
  }

  /** `dockerComposeUp`: starts the selected units with the image-reference
      environment, detached exactly when daemon mode is requested. */
  method DockerComposeUp(host: Host, engine: Engine, options: Options) returns (err: Option<Error>)
    modifies engine`invocations
    ensures SetupFailure(host, true).Some? ==>
      err == SetupFailure(host, true) && engine.invocations == old(engine.invocations)
    ensures SetupFailure(host, true).None? ==>
      engine.invocations == old(engine.invocations) +
        [Invocation(UpOp, ProjectFor(host.stackDir.value),
                    CommandOptions(host.configuration.value.stackImageRefsEnv(options.stackVersion),
                                   if options.daemonMode then [DetachFlag] else [],
                                   Services.SelectUnits(options.services)))] &&
      err == CommandResult(engine.failures, UpOp)
    ensures Services.OrchestratorService in options.services ==> AllSelected(engine.invocations, |old(engine.invocations)|)
  {
    var c, setupErr := OpenProject(host);
    if setupErr.Some? {
      return setupErr;
    }
    var args: seq<string> := [];
    if options.daemonMode {
      args := args + [DetachFlag];
    }
    assert args == if options.daemonMode then [DetachFlag] else [];
    var appConfig, configErr := ReadConfiguration(host);
    if configErr.Some? {
      return configErr;
    }
    var dependent := Services.WithDependentServices(options.services);
    var selected := Services.WithIsReadyServices(dependent);
    var opts := CommandOptions(appConfig.stackImageRefsEnv(options.stackVersion), args, selected);
    var runErr := engine.Run(UpOp, c, opts);
    if runErr.Some? {
      return Some(Wrapped(CommandFailed, runErr.value));
    }
    return None;
  }

  /** `dockerComposeDown`: tears the whole project down; it takes no
      selection and passes empty options. */
  method DockerComposeDown(host: Host, engine: Engine) returns (err: Option<Error>)
    modifies engine`invocations
    ensures SetupFailure(host, false).Some? ==>
      err == SetupFailure(host, false) && engine.invocations == old(engine.invocations)
    ensures SetupFailure(host, false).None? ==>
      engine.invocations == old(engine.invocations) + [Invocation(DownOp, ProjectFor(host.stackDir.value), EmptyOptions)] &&
      err == CommandResult(engine.failures, DownOp)
  {
    var c, setupErr := OpenProject(host);
    if setupErr.Some? {
      return setupErr;
    }
    var runErr := engine.Run(DownOp, c, EmptyOptions);
    if runErr.Some? {
      return Some(Wrapped(CommandFailed, runErr.value));
    }
    return None;
  }

  /** `dockerComposeLogs`: fetches the logs of exactly the named service,
      without escalation or sidecars, and returns no output on failure. */
  method DockerComposeLogs(host: Host, engine: Engine, serviceName: string) returns (out: seq<Byte>, err: Option<Error>)
    modifies engine`invocations
    ensures SetupFailure(host, false).Some? ==>
      err == SetupFailure(host, false) && out == [] && engine.invocations == old(engine.invocations)
    ensures SetupFailure(host, false).None? ==>
      engine.invocations == old(engine.invocations) +
        [Invocation(LogsOp, ProjectFor(host.stackDir.value), CommandOptions(map[], [], [serviceName]))] &&
      err == CommandResult(engine.failures, LogsOp)
    ensures err.Some? ==> out == []
    ensures err.None? ==> out == engine.logOutput
  {
    var c, setupErr := OpenProject(host);
    if setupErr.Some? {
      return [], setupErr;
    }
    var opts := CommandOptions(map[], [], [serviceName]);
    var logs, logsErr := engine.Logs(c, opts);
    if logsErr.Some? {
      return [], Some(Wrapped(CommandFailed, logsErr.value));
    }
    return logs, None;
  }
}
