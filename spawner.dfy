/**
 * The haibu Spawner: its configuration, the bootstrap/init sequence that
 * prepares a repository, the launch options for the process monitor, and the
 * per-attempt state that turns monitor and hook events into one answer.
 */
module SpawnerCore {
  import opened Wrappers
  import opened Text
  import opened Plugins
  import opened AttemptModel

  /** The options a Spawner is built with; `None` is an option left undefined. */
  datatype SpawnerOptions = SpawnerOptions(
    maxRestart: Option<int>,
    silent: Option<bool>,
    appsDir: Option<string>,
    packageDir: Option<string>,
    host: Option<string>,
    minUptime: Option<int>)

  const NoOptions: SpawnerOptions := SpawnerOptions(None, None, None, None, None, None)
  const DefaultHost: string := "127.0.0.1"
  const DefaultMinUptime: int := 2000

  /**
   * The carapace launcher inside the installed haibu-carapace package. Its real
   * value comes from module resolution, which is not modelled.
   */
  const CarapaceCommand: string := "haibu-carapace/bin/carapace"

  /** A string option is truthy when it is defined and not empty. */
  predicate Truthy(v: Option<string>)
  {
    v.Some? && v.value != ""
  }

  /** JavaScript's `given || fallback` on a string option. */
  function OrElse(given: Option<string>, fallback: string): string
  {
    if Truthy(given) then given.value else fallback
  }

  datatype Scripts = Scripts(start: string)
  /** An application descriptor (its package.json): name, owner, environment and declared start script. */
  datatype App = App(name: string, user: string, env: map<string, string>, scripts: Scripts)
  /** A prepared repository: the application, its working directory and the resolved start-script path. */
  datatype Repository = Repository(app: App, homeDir: string, startScript: string)

  /** What `trySpawn` and `spawn` are handed: a Repository instance, or a bare application descriptor. */
  datatype Target = RepositoryInstance(repo: Repository) | AppDescriptor(app: App)

  /** The options handed to the process monitor. `max` is `None` when the key is never set. */
  datatype ForeverOptions = ForeverOptions(
    silent: bool,
    cwd: string,
    env: map<string, string>,
    minUptime: int,
    command: string,
    options: seq<string>,
    forever: bool,
    max: Option<int>)

  datatype RepoError = RepoError(message: string)
  /** What the repository's `bootstrap` reports: an error, or whether the source already existed on disk. */
  datatype BootstrapResult = BootstrapFailed(err: RepoError) | Bootstrapped(existed: bool)
  /** What the repository's `init` reports. */
  datatype InitResult = InitFailed(err: RepoError) | Initialized

  /** The calls `trySpawn` makes, in order: to the repository factory, the repository, `spawn`, or the callback. */
  datatype Action = CreateRepository(app: App) | Bootstrap | Init | CallSpawn(target: Target) | Respond(err: RepoError)

  /** The call that passes the attempt on: to `spawn`, or back to the caller. */
  predicate IsHandOff(a: Action)
  {
    a.CallSpawn? || a.Respond?
  }

  /**
   * `trySpawn`: bootstrap the repository (created from the descriptor when not
   * given one), initialise it only when it did not exist yet, and hand over to
   * `spawn` unless a repository step failed.
   */
  function TrySpawn(target: Target, created: Repository, bootstrap: BootstrapResult, init: InitResult): (actions: seq<Action>)
    ensures |actions| >= 2
    ensures actions[0] == (if target.AppDescriptor? then CreateRepository(target.app) else Bootstrap)
    ensures IsHandOff(actions[|actions| - 1])
    ensures forall i :: 0 <= i < |actions| - 1 ==> !IsHandOff(actions[i])
    ensures actions[|actions| - 1].CallSpawn? <==> bootstrap.Bootstrapped? && (bootstrap.existed || init.Initialized?)
    ensures actions[|actions| - 1].CallSpawn? ==>
              actions[|actions| - 1].target == RepositoryInstance(if target.RepositoryInstance? then target.repo else created)
    ensures bootstrap.BootstrapFailed? ==> actions[|actions| - 1] == Respond(bootstrap.err)
    ensures bootstrap == Bootstrapped(false) && init.InitFailed? ==> actions[|actions| - 1] == Respond(init.err)
  {
    var spawn := CallSpawn(RepositoryInstance(if target.RepositoryInstance? then target.repo else created));
    var start := if target.RepositoryInstance? then [Bootstrap] else [CreateRepository(target.app), Bootstrap];
    start + Callbacks(spawn, bootstrap, init)
  }

  /** The actions of `trySpawn` after the repository exists: one or two, neither a bootstrap nor a repository creation, `init` only first. */
  function Callbacks(spawn: Action, bootstrap: BootstrapResult, init: InitResult): (rest: seq<Action>)
    requires spawn.CallSpawn?
    ensures 1 <= |rest| <= 2 && Bootstrap !in rest
    ensures forall i :: 0 <= i < |rest| ==> !rest[i].CreateRepository?
    ensures forall i :: 0 <= i < |rest| && rest[i] == Init ==> i == 0
    ensures multiset(rest)[Init] == (if bootstrap == Bootstrapped(false) then 1 else 0)
  {
    if bootstrap.BootstrapFailed? then [Respond(bootstrap.err)]
    else if bootstrap.existed then [spawn]
    else if init.InitFailed? then [Init, Respond(init.err)]
    else [Init, spawn]
  }

  /**
   * `trySpawn` bootstraps exactly once: first when given a repository, right
   * after creating it from a descriptor otherwise, and the repository is
   * created at most that once.
   */
  lemma TrySpawnBootstrapsOnce(target: Target, created: Repository, bootstrap: BootstrapResult, init: InitResult)
    ensures var actions := TrySpawn(target, created, bootstrap, init);
      var b := if target.AppDescriptor? then 1 else 0;
      && b < |actions| && actions[b] == Bootstrap
      && actions[..b] == (if target.AppDescriptor? then [CreateRepository(target.app)] else [])
      && multiset(actions)[Bootstrap] == 1
      && (forall i :: b < i < |actions| ==> !actions[i].CreateRepository?)
  {
    var spawn := CallSpawn(RepositoryInstance(if target.RepositoryInstance? then target.repo else created));
    var rest := Callbacks(spawn, bootstrap, init);
    if target.RepositoryInstance? {
      assert TrySpawn(target, created, bootstrap, init) == [Bootstrap] + rest;
    } else {
      assert TrySpawn(target, created, bootstrap, init) == [CreateRepository(target.app), Bootstrap] + rest;
    }
  }

  /**
   * `init` can only run from the bootstrap callback, so it comes right after
   * bootstrap: once when the source did not exist yet, never otherwise.
   */
  lemma TrySpawnInitsOnlyNewSource(target: Target, created: Repository, bootstrap: BootstrapResult, init: InitResult)
    ensures var actions := TrySpawn(target, created, bootstrap, init);
      var b := if target.AppDescriptor? then 1 else 0;
      && (forall i :: 0 <= i < |actions| && actions[i] == Init ==> i == b + 1)
      && multiset(actions)[Init] == (if bootstrap == Bootstrapped(false) then 1 else 0)
  {
    var spawn := CallSpawn(RepositoryInstance(if target.RepositoryInstance? then target.repo else created));
    var rest := Callbacks(spawn, bootstrap, init);
    if target.RepositoryInstance? {
      assert TrySpawn(target, created, bootstrap, init) == [Bootstrap] + rest;
    } else {
      assert TrySpawn(target, created, bootstrap, init) == [CreateRepository(target.app), Bootstrap] + rest;
    }
  }

  class Spawner {
    const maxRestart: Option<int>
    const silent: bool
    const appsDir: string
    const packageDir: string
    const host: string
    const minUptime: int

    /**
     * Missing options fall back to defaults: a missing or empty host to the
     * loopback address, an undefined minimum uptime (but not an explicit 0) to
     * 2000; the maximum restart count is kept as given, undefined included.
     */
    constructor (options: Option<SpawnerOptions>, configuredApps: string, configuredPackages: string)
      ensures var o := if options.Some? then options.value else NoOptions;
        && maxRestart == o.maxRestart
        && (silent <==> o.silent == Some(true))
        && host != ""
        && (Truthy(o.host) ==> host == o.host.value)
        && (!Truthy(o.host) ==> host == DefaultHost)
        && (o.minUptime.Some? ==> minUptime == o.minUptime.value)
        && (o.minUptime.None? ==> minUptime == DefaultMinUptime)
        && appsDir == (if Truthy(o.appsDir) then o.appsDir.value else configuredApps)
        && packageDir == (if Truthy(o.packageDir) then o.packageDir.value else configuredPackages)
    {
      var o := if options.Some? then options.value else NoOptions;
      maxRestart := o.maxRestart;
      silent := o.silent == Some(true);
      appsDir := OrElse(o.appsDir, configuredApps);
      packageDir := OrElse(o.packageDir, configuredPackages);
      host := OrElse(o.host, DefaultHost);
      minUptime := if o.minUptime.Some? then o.minUptime.value else DefaultMinUptime;
    }

    /**
     * The monitor's script and options for `repo`: the fixed base options, the
     * plugin contributions folded in plugin order, and an unlimited restart
     * policy exactly when no maximum restart count was configured.
     */
    ghost predicate LaunchesWith(repo: Repository, plugins: seq<Plugin>, script: string, opts: ForeverOptions)
    {
      && script == LaunchScript(plugins, repo.startScript)
      && opts.options == Contributed(plugins)
      && opts.silent && opts.cwd == repo.homeDir && opts.env == repo.app.env
      && opts.minUptime == minUptime && opts.command == CarapaceCommand
      && (opts.forever <==> maxRestart.None?)
      && (opts.max.Some? <==> maxRestart.Some?)
      && (maxRestart.Some? ==> opts.max.value == maxRestart.value)
    }

    /** Builds the monitor's options, visiting the plugins one by one. */
    method LaunchConfig(repo: Repository, plugins: seq<Plugin>) returns (script: string, opts: ForeverOptions)
      ensures LaunchesWith(repo, plugins, script, opts)
    {
      opts := ForeverOptions(true, repo.homeDir, repo.app.env, minUptime, CarapaceCommand, [], false, None);
      script := repo.startScript;
      var i := 0;
      while i < |plugins|
        invariant 0 <= i <= |plugins|
        invariant script == LaunchScript(plugins[..i], repo.startScript)
        invariant opts == ForeverOptions(true, repo.homeDir, repo.app.env, minUptime, CarapaceCommand,
                                         Contributed(plugins[..i]), false, None)
      {
        assert plugins[..i + 1][..i] == plugins[..i];
        var plugin := plugins[i];
        if plugin.argv.Some? {
          var spawn := plugin.argv.value;
          if spawn.script.Some? && spawn.script.value != "" {
            script := spawn.script.value;
          }
          if spawn.argv.Some? {
            opts := opts.(options := opts.options + spawn.argv.value);
          }
        }
        i := i + 1;
      }
      assert plugins[..i] == plugins;
      opts := opts.(forever := maxRestart.None?);
      if maxRestart.Some? {
        opts := opts.(max := maxRestart);
      }
    }

    /**
     * `spawn` up to the stat of the start script: only a Repository instance
     * can be spawned; the new attempt waits for the stat with nothing armed.
     */
    method Spawn(target: Target, plugins: seq<Plugin>) returns (attempt: Attempt)
      requires target.RepositoryInstance?
      ensures fresh(attempt) && attempt.Valid() && attempt.State() == Initial()
      ensures attempt.spawner == this
      ensures attempt.declaredStart == target.repo.app.scripts.start
      ensures attempt.startScript == target.repo.startScript
      ensures LaunchesWith(target.repo, plugins, attempt.script, attempt.launch)
    {
      var repo := target.repo;
      var script, opts := LaunchConfig(repo, plugins);
      attempt := new Attempt(this, repo.app.scripts.start, repo.startScript, script, opts);
    }
  }

  /**
   * The closure state of one `spawn` call: the fields the handlers share, the
   * listeners still armed on the monitor and on the hook, the drone output sent
   * to the log, and every call made to the caller's callback.
   */
  class Attempt {
    const spawner: Spawner
    const declaredStart: string
    /** The repository's own start script: the path that is stat'd, whatever a plugin chose to run. */
    const startScript: string
    const script: string
    const launch: ForeverOptions

    var phase: Phase
    var responded: bool
    var stderr: seq<string>
    var result: Option<StartRecord>
    var drone: set<DroneEvent>
    var hook: set<string>
    var forwarded: seq<Output>
    var deliveries: seq<Outcome>

    function State(): AttemptState
      reads this
    {
      AttemptState(phase, responded, stderr, result, drone, hook, forwarded, deliveries)
    }

    ghost predicate Valid()
      reads this
    {
      Consistent(State())
    }

    constructor (spawner: Spawner, declaredStart: string, startScript: string, script: string, launch: ForeverOptions)
      ensures this.spawner == spawner && this.declaredStart == declaredStart && this.startScript == startScript
      ensures this.script == script && this.launch == launch
      ensures State() == Initial() && Valid()
    {
      this.spawner := spawner;
      this.declaredStart := declaredStart;
      this.startScript := startScript;
      this.script := script;
      this.launch := launch;
      phase, responded, stderr, result := Checking, false, [], None;
      drone, hook, forwarded, deliveries := {}, {}, [], [];
    }

    /**
     * The stat of the repository's start script, against the paths that exist
     * (`script`, which a plugin may have replaced, is not what is stat'd). A
     * missing start script is reported with the declared script name and nothing
     * is built; otherwise the monitor is built from `script` and `launch`, all
     * listeners are armed and the monitor is started.
     */
    method OnStat(existing: set<string>)
      requires Valid() && phase == Checking
      modifies this
      ensures State() == StatChecked(old(State()), startScript in existing, declaredStart) && Valid()
      ensures phase == Running <==> startScript in existing
    {
      if startScript !in existing {
        deliveries := deliveries + [Failure(ScriptNotFound(ScriptMissingPrefix + declaredStart))];
        phase := ScriptMissing;
        return;
      }
      phase := Running;
      drone := drone + {StdoutEvent};
      drone := drone + {StderrEvent};
      drone := drone + {ExitEvent};
      drone := drone + {ErrorEvent};
      drone := drone + {StartEvent};
      hook := hook + {PortTopic};
    }

    // The handlers below are the closures `spawn` registers; they are reached only
    // through `Emit`, which removes a `once` listener before running its handler.

    method OnStdout(data: string)
      modifies this
      ensures State() == HandleStdout(old(State()), data)
    {
      forwarded := forwarded + [Info(data)];
    }

    method OnStderr(data: string)
      modifies this
      ensures State() == HandleStderr(old(State()), data)
    {
      forwarded := forwarded + [ErrorLevel(data)];
      if !responded {
        stderr := stderr + Lines(data);
      }
    }

    method OnError(fault: Fault)
      modifies this
      ensures State() == HandleError(old(State()), fault)
    {
      if !responded {
        responded := true;
        deliveries := deliveries + [Failure(MonitorFailed(fault))];
        drone := drone - {ExitEvent};
        hook := hook - {PortTopic};
      }
    }

    method OnCarapacePort(port: int)
      requires responded || result.Some?
      modifies this
      ensures State() == HandlePort(old(State()), spawner.host, port)
    {
      if !responded {
        responded := true;
        deliveries := deliveries + [Success(result.value, Socket(spawner.host, port))];
        drone := drone - {ExitEvent};
        drone := drone - {ErrorEvent};
      }
    }

    method OnStart(monitor: Monitor, meta: DroneData)
      modifies this
      ensures State() == HandleStart(old(State()), monitor, meta)
    {
      result := Some(StartRecord(monitor, monitor.child, meta));
    }

    method OnExit()
      modifies this
      ensures State() == HandleExit(old(State()))
    {
      if !responded {
        responded := true;
        var error := PrematureExit(PrematureExitMessage, Join(stderr, '\n'));
        deliveries := deliveries + [Failure(error)];
        drone := drone - {ErrorEvent};
        hook := hook - {PortTopic};
      }
    }

    /**
     * The monitor or the hook emitting `e`: it reaches the attempt only through
     * a listener that is still armed, and a `once` listener is removed first.
     */
    method Emit(e: Event)
      requires Valid() && CanDispatch(State(), e)
      modifies this
      ensures State() == Dispatch(old(State()), spawner.host, e) && Valid()
    {
      DispatchKeepsConsistent(State(), spawner.host, e);
      match e
      case Stdout(data) =>
        if StdoutEvent in drone { OnStdout(data); }
      case Stderr(data) =>
        if StderrEvent in drone { OnStderr(data); }
      case MonitorError(fault) =>
        if ErrorEvent in drone { drone := drone - {ErrorEvent}; OnError(fault); }
      case Start(monitor, meta) =>
        if StartEvent in drone { drone := drone - {StartEvent}; OnStart(monitor, meta); }
      case Exit =>
        if ExitEvent in drone { drone := drone - {ExitEvent}; OnExit(); }
      case CarapacePort(port) =>
        if PortTopic in hook { hook := hook - {PortTopic}; OnCarapacePort(port); }
    }
  }
}
