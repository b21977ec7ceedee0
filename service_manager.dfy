/** The supervisor of service_manager.py: one optional process handle per backend, starting a
    backend and waiting for it to answer, stopping it, reporting status, one pass of the
    health-check monitor, and the process-wide singleton. Processes, probes and the file system
    are oracle values handed to each step; time is counted in loop iterations. */
module ServiceManager {
  import opened Wrappers
  import Config

  type Backend = Config.Backend

  /** The other backend. */
  function Other(b: Backend): Backend
  {
    if b == Config.ComfyUI then Config.WebUI else Config.ComfyUI
  }

  /** A call that returned a value, or raised out of the method. */
  datatype Call<T> = Returned(value: T) | Raised

  /** A `subprocess.Popen` handle. */
  datatype Handle = Handle(pid: int)

  // ---------------------------------------------------------------------------------------
  // _check_service_health

  /** One `requests.get` of the backend's root URL: a status code, or an exception. */
  datatype ProbeResult = Responded(status: int) | ProbeRaised

  /** `_check_service_health`: a 2xx status is healthy; any exception counts as unhealthy. */
  predicate CheckServiceHealth(probe: ProbeResult)
  {
    probe.Responded? && 200 <= probe.status < 300
  }

  /** Exactly the 2xx statuses are healthy: 199 and 300 are not, and a probe that raised never
      is; a backend reported running has always answered with a healthy status. */
  lemma CheckServiceHealthSpec(probe: ProbeResult, handle: Option<Handle>, alive: bool)
    ensures CheckServiceHealth(probe) <==> probe.Responded? && 200 <= probe.status <= 299
    ensures CheckServiceHealth(Responded(200)) && CheckServiceHealth(Responded(299))
    ensures !CheckServiceHealth(Responded(199)) && !CheckServiceHealth(Responded(300)) && !CheckServiceHealth(ProbeRaised)
    ensures Running(handle, Liveness(alive, probe)) ==> CheckServiceHealth(probe) && handle.Some? && alive
  {
  }

  // ---------------------------------------------------------------------------------------
  // start_comfyui / start_webui

  /** `Path.exists()`: true, false, or an exception such as a denied permission. */
  datatype PathCheck = Exists | Missing | CheckRaises

  /** Creating the log directory, opening the log and `Popen`: an exception, or a new handle. */
  datatype Launch = LaunchRaised | Launched(handle: Handle)

  /** One iteration of the startup wait: the probe result, then whether `poll()` reports that
      the new process has ended. */
  datatype Observation = Observation(probe: ProbeResult, exited: bool)

  /** Everything a start consults: whether the current handle is alive (`poll() is None`), the
      two existence checks, the launch, and the observation of each wait iteration. */
  datatype StartOracle = StartOracle(handleAlive: bool, pathCheck: PathCheck, entryCheck: PathCheck, launch: Launch,
                                     startup: nat -> Observation)

  /** How the startup wait ended. */
  datatype StartupResult = BecameHealthy(iteration: nat) | ExitedEarly(iteration: nat) | TimedOut

  /** How a start ended. */
  datatype StartOutcome =
    | AlreadyRunning
    | PathNotSet
    | PathNotFound
    | EntryNotFound
    | CheckRaised
    | LaunchFailed
    | Started(handle: Handle, startup: StartupResult)

  /** The entry script each backend is started from. */
  function EntryScript(b: Backend): string
  {
    if b == Config.ComfyUI then "main.py" else "webui.py"
  }

  /** `max_wait` of the startup wait, in seconds. */
  function MaxWait(b: Backend): nat
  {
    if b == Config.ComfyUI then 60 else 120
  }

  /** The sleep between two startup probes, in seconds. */
  function WaitStep(b: Backend): nat
  {
    if b == Config.ComfyUI then 1 else 2
  }

  /** The number of iterations of `while wait_time < max_wait: ...; wait_time += step` when
      `remaining = max_wait - wait_time`. */
  function Iterations(remaining: int, step: nat): nat
    requires step > 0
    decreases remaining
  {
    if remaining <= 0 then 0 else 1 + Iterations(remaining - step, step)
  }

  lemma {:induction false} IterationsOfMultiple(step: nat, k: nat)
    requires step > 0
    ensures Iterations(step * k, step) == k
  {
    if k > 0 {
      IterationsOfMultiple(step, k - 1);
      assert step * k - step == step * (k - 1);
    }
  }

  /** Both backends get at most 60 probes: 60 steps of 1 second, or 60 steps of 2 seconds. */
  lemma StartupBudget(b: Backend)
    ensures Iterations(MaxWait(b), WaitStep(b)) == 60
  {
    IterationsOfMultiple(WaitStep(b), 60);
  }

  /** The end of the startup wait from iteration `from` on, with `n` iterations in all: the
      probe is consulted before the exit check in every iteration. */
  function StartupOutcome(obs: nat -> Observation, from: nat, n: nat): StartupResult
    decreases n - from
  {
    if from >= n then TimedOut
    else if CheckServiceHealth(obs(from).probe) then BecameHealthy(from)
    else if obs(from).exited then ExitedEarly(from)
    else StartupOutcome(obs, from + 1, n)
  }

  /** No earlier iteration ended the wait. */
  predicate Undecided(obs: nat -> Observation, from: nat, k: nat)
  {
    forall j :: from <= j < k ==> !CheckServiceHealth(obs(j).probe) && !obs(j).exited
  }

  /** The wait reports healthy exactly when some iteration's probe succeeds before any earlier
      iteration saw the process exit; it reports an exit exactly when an iteration sees the
      exit before any probe succeeded; and it times out only when no iteration decided. */
  lemma {:induction false} StartupOutcomeSpec(obs: nat -> Observation, from: nat, n: nat)
    ensures StartupOutcome(obs, from, n).BecameHealthy? <==>
      exists k :: from <= k < n && CheckServiceHealth(obs(k).probe) && Undecided(obs, from, k)
    ensures StartupOutcome(obs, from, n).BecameHealthy? ==>
      var k := StartupOutcome(obs, from, n).iteration;
      from <= k < n && CheckServiceHealth(obs(k).probe) && Undecided(obs, from, k)
    ensures StartupOutcome(obs, from, n).ExitedEarly? ==>
      var k := StartupOutcome(obs, from, n).iteration;
      from <= k < n && !CheckServiceHealth(obs(k).probe) && obs(k).exited && Undecided(obs, from, k)
    ensures StartupOutcome(obs, from, n).TimedOut? <==> Undecided(obs, from, n)
    decreases n - from
  {
    if from < n && !CheckServiceHealth(obs(from).probe) && !obs(from).exited {
      StartupOutcomeSpec(obs, from + 1, n);
      if StartupOutcome(obs, from, n).BecameHealthy? {
        var k := StartupOutcome(obs, from, n).iteration;
        assert Undecided(obs, from, k);
      }
    } else if from < n {
      assert Undecided(obs, from, from);
      if StartupOutcome(obs, from, n).BecameHealthy? {
      } else {
        forall k | from <= k < n && CheckServiceHealth(obs(k).probe) ensures !Undecided(obs, from, k) {
          if k > from {
            assert !(!CheckServiceHealth(obs(from).probe) && !obs(from).exited);
          }
        }
      }
    }
  }

  /** The startup wait: probe, then check for an early exit, then sleep `step` seconds. */
  method AwaitStartup(maxWait: nat, step: nat, obs: nat -> Observation) returns (result: StartupResult)
    requires step > 0
    ensures result == StartupOutcome(obs, 0, Iterations(maxWait, step))
  {
    ghost var n := Iterations(maxWait, step);
    var waitTime: nat := 0;
    var i: nat := 0;
    while waitTime < maxWait
      invariant i + Iterations(maxWait - waitTime, step) == n
      invariant StartupOutcome(obs, i, n) == StartupOutcome(obs, 0, n)
      decreases maxWait - waitTime
    {
      assert Iterations(maxWait - waitTime, step) == 1 + Iterations(maxWait - waitTime - step, step);
      if CheckServiceHealth(obs(i).probe) {
        return BecameHealthy(i);
      }
      if obs(i).exited {
        return ExitedEarly(i);
      }
      waitTime := waitTime + step;
      i := i + 1;
    }
    result := TimedOut;
  }

  /** What `start_<backend>()` does with the current handle and installation path. */
  function StartSpec(b: Backend, handle: Option<Handle>, path: Option<string>, o: StartOracle): StartOutcome
  {
    if handle.Some? && o.handleAlive then AlreadyRunning
    else if path.None? then PathNotSet
    else if o.pathCheck == CheckRaises then CheckRaised
    else if o.pathCheck == Missing then PathNotFound
    else if o.entryCheck == CheckRaises then CheckRaised
    else if o.entryCheck == Missing then EntryNotFound
    else match o.launch
      case LaunchRaised => LaunchFailed
      case Launched(h) => Started(h, StartupOutcome(o.startup, 0, Iterations(MaxWait(b), WaitStep(b))))
  }

  /** What a start returns: true when the backend was already running or answered in time. */
  function StartReturns(o: StartOutcome): Call<bool>
  {
    match o
    case AlreadyRunning => Returned(true)
    case CheckRaised => Raised
    case Started(_, startup) => Returned(startup.BecameHealthy?)
    case _ => Returned(false)
  }

  /** The handle after a start: the new process once launched, else the old handle. */
  function HandleAfterStart(handle: Option<Handle>, o: StartOutcome): Option<Handle>
  {
    if o.Started? then Some(o.handle) else handle
  }

  /** A start never launches a second process over a live one; it launches exactly when the
      handle is not live and the path is set, the directory and the entry script exist and the
      launch succeeds; only then does the handle change; it returns true exactly when the old
      process was live or the new one answered within 60 probes; it raises exactly when an
      existence check raises. */
  lemma StartSpecFacts(b: Backend, handle: Option<Handle>, path: Option<string>, o: StartOracle)
    ensures var out := StartSpec(b, handle, path, o);
      (handle.Some? && o.handleAlive ==> out == AlreadyRunning && StartReturns(out) == Returned(true) && HandleAfterStart(handle, out) == handle) &&
      (out.Started? <==> !(handle.Some? && o.handleAlive) && path.Some? && o.pathCheck == Exists && o.entryCheck == Exists && o.launch.Launched?) &&
      (!out.Started? ==> HandleAfterStart(handle, out) == handle) &&
      (out.Started? ==> HandleAfterStart(handle, out) == Some(o.launch.handle)) &&
      (StartReturns(out) == Returned(true) <==>
        ((handle.Some? && o.handleAlive) ||
         (out.Started? && exists k :: 0 <= k < 60 && CheckServiceHealth(o.startup(k).probe) && Undecided(o.startup, 0, k)))) &&
      (StartReturns(out) == Raised <==> out == CheckRaised)
  {
    StartupBudget(b);
    StartupOutcomeSpec(o.startup, 0, 60);
  }

  /** The refusals come in source order: unset path, missing directory, missing entry script,
      each leaving the handle as it was and returning false. */
  lemma StartRefusalOrder(b: Backend, handle: Option<Handle>, path: Option<string>, o: StartOracle)
    requires !(handle.Some? && o.handleAlive)
    ensures path.None? ==> StartSpec(b, handle, path, o) == PathNotSet
    ensures path.Some? && o.pathCheck == Missing ==> StartSpec(b, handle, path, o) == PathNotFound
    ensures path.Some? && o.pathCheck == Exists && o.entryCheck == Missing ==> StartSpec(b, handle, path, o) == EntryNotFound
    ensures var out := StartSpec(b, handle, path, o);
      out in {PathNotSet, PathNotFound, EntryNotFound, LaunchFailed} ==> StartReturns(out) == Returned(false) && HandleAfterStart(handle, out) == handle
  {
  }

  /** A launched process that never answers within the budget is reported as a failed start,
      but its handle stays set. */
  lemma StartTimeoutKeepsHandle(b: Backend, handle: Option<Handle>, path: Option<string>, o: StartOracle)
    requires StartSpec(b, handle, path, o).Started? && StartSpec(b, handle, path, o).startup.TimedOut?
    ensures StartReturns(StartSpec(b, handle, path, o)) == Returned(false)
    ensures HandleAfterStart(handle, StartSpec(b, handle, path, o)) == Some(o.launch.handle)
    ensures forall k :: 0 <= k < 60 ==> !CheckServiceHealth(o.startup(k).probe) && !o.startup(k).exited
  {
    StartupBudget(b);
    StartupOutcomeSpec(o.startup, 0, 60);
  }

  // ---------------------------------------------------------------------------------------
  // stop_comfyui / stop_webui

  /** Everything a stop consults: whether the process is alive, whether signalling or waiting
      raises, and how many seconds after `SIGTERM` it exits (`None`: not at all on its own). */
  datatype StopOracle = StopOracle(alive: bool, raises: bool, exitsAfter: Option<nat>)

  datatype StopOutcome = NothingToStop | AlreadyExited | Terminated | Killed | StopFailed

  /** The `wait(timeout=...)` grace period before `SIGKILL`, in seconds. */
  function Grace(b: Backend): nat
  {
    if b == Config.ComfyUI then 10 else 15
  }

  function StopSpec(b: Backend, handle: Option<Handle>, o: StopOracle): StopOutcome
  {
    if handle.None? then NothingToStop
    else if !o.alive then AlreadyExited
    else if o.raises then StopFailed
    else if o.exitsAfter.Some? && o.exitsAfter.value <= Grace(b) then Terminated
    else Killed
  }

  /** A stop does nothing exactly without a handle; a live process that exits within the grace
      period (10 seconds for ComfyUI, 15 for WebUI) is terminated, one that does not is killed. */
  lemma StopSpecFacts(b: Backend, handle: Option<Handle>, o: StopOracle)
    ensures StopSpec(b, handle, o) == NothingToStop <==> handle.None?
    ensures Grace(Config.ComfyUI) == 10 && Grace(Config.WebUI) == 15
    ensures handle.Some? && o.alive && !o.raises ==>
      (StopSpec(b, handle, o) == Terminated <==> o.exitsAfter.Some? && o.exitsAfter.value <= Grace(b)) &&
      (StopSpec(b, handle, o) == Killed <==> !(o.exitsAfter.Some? && o.exitsAfter.value <= Grace(b)))
    ensures StopSpec(b, handle, o) in {Terminated, Killed, StopFailed} ==> handle.Some? && o.alive
  {
  }

  // ---------------------------------------------------------------------------------------
  // get_status

  /** What a status query sees of one backend: `poll() is None`, and the probe result. */
  datatype Liveness = Liveness(alive: bool, probe: ProbeResult)

  datatype ServiceStatus = ServiceStatus(running: bool, port: int, url: string)

  datatype Status = Status(comfyui: ServiceStatus, webui: ServiceStatus)

  /** `process is not None and process.poll() is None and _check_service_health(...)`. */
  predicate Running(handle: Option<Handle>, l: Liveness)
  {
    handle.Some? && l.alive && CheckServiceHealth(l.probe)
  }

  // ---------------------------------------------------------------------------------------
  // _health_check_loop

  /** Everything one backend's part of a monitor pass consults. */
  datatype ServiceOracle = ServiceOracle(live: Liveness, stop: StopOracle, start: StartOracle)

  /** What the monitor did for one backend in a pass. */
  datatype MonitorAction =
    | Idle
    | Restart(stopped: StopOutcome, started: StartOutcome)
    | FreshStart(started: StartOutcome)
    | Skipped

  /** The monitor's decision for one backend: act only when it is not running and auto-start
      is on; restart a live but unresponsive process; start ComfyUI when it has no handle. */
  function ServicePass(b: Backend, autoStart: bool, handle: Option<Handle>, path: Option<string>, o: ServiceOracle): MonitorAction
  {
    if Running(handle, o.live) || !autoStart then Idle
    else if handle.Some? && o.live.alive then Restart(StopSpec(b, handle, o.stop), StartSpec(b, None, path, o.start))
    else if handle.None? && b == Config.ComfyUI then FreshStart(StartSpec(b, None, path, o.start))
    else Idle
  }

  /** The action raised out of the backend's part of the pass. */
  predicate ActionRaised(a: MonitorAction)
  {
    (a.Restart? || a.FreshStart?) && a.started == CheckRaised
  }

  /** The handle after the action. */
  function HandleAfterAction(handle: Option<Handle>, a: MonitorAction): Option<Handle>
  {
    match a
    case Restart(_, started) => HandleAfterStart(None, started)
    case FreshStart(started) => HandleAfterStart(handle, started)
    case _ => handle
  }

  /** One pass over both backends. A single `try` covers the pass, so when ComfyUI's start
      raises the WebUI part is skipped. */
  function PassSpec(autoStart: bool, comfyHandle: Option<Handle>, comfyPath: Option<string>, webHandle: Option<Handle>,
                    webPath: Option<string>, oc: ServiceOracle, ow: ServiceOracle): (MonitorAction, MonitorAction)
  {
    var comfy := ServicePass(Config.ComfyUI, autoStart, comfyHandle, comfyPath, oc);
    if ActionRaised(comfy) then (comfy, Skipped)
    else (comfy, ServicePass(Config.WebUI, autoStart, webHandle, webPath, ow))
  }

  /** The monitor acts only on a backend that is down while auto-start is on; it restarts
      exactly a live but unresponsive process, freshly starts exactly a ComfyUI without a
      handle, and leaves a dead handle and a WebUI without a handle alone. */
  lemma ServicePassCases(b: Backend, autoStart: bool, handle: Option<Handle>, path: Option<string>, o: ServiceOracle)
    ensures var a := ServicePass(b, autoStart, handle, path, o);
      (a != Idle ==> !Running(handle, o.live) && autoStart) &&
      (a.Restart? <==> !Running(handle, o.live) && autoStart && handle.Some? && o.live.alive) &&
      (a.FreshStart? <==> autoStart && handle.None? && b == Config.ComfyUI) &&
      (handle.Some? && !o.live.alive ==> a == Idle) &&
      (b == Config.WebUI && handle.None? ==> a == Idle) &&
      !a.Skipped?
  {
  }

  /** A pass changes a handle only through a restart or a fresh start that launched a
      process; a restart that did not launch leaves no handle. */
  lemma HandleAfterActionFacts(handle: Option<Handle>, a: MonitorAction)
    ensures HandleAfterAction(handle, a) != handle ==> a.Restart? || (a.FreshStart? && a.started.Started?)
    ensures a.Restart? ==> (HandleAfterAction(handle, a).Some? <==> a.started.Started?)
    ensures a.Idle? || a.Skipped? ==> HandleAfterAction(handle, a) == handle
  {
  }

  /** WebUI is skipped exactly when ComfyUI's start raised, and otherwise gets its own decision. */
  lemma PassSpecFacts(autoStart: bool, comfyHandle: Option<Handle>, comfyPath: Option<string>, webHandle: Option<Handle>,
                      webPath: Option<string>, oc: ServiceOracle, ow: ServiceOracle)
    ensures var (comfy, web) := PassSpec(autoStart, comfyHandle, comfyPath, webHandle, webPath, oc, ow);
      comfy == ServicePass(Config.ComfyUI, autoStart, comfyHandle, comfyPath, oc) &&
      (web.Skipped? <==> ActionRaised(comfy)) &&
      (!web.Skipped? ==> web == ServicePass(Config.WebUI, autoStart, webHandle, webPath, ow)) &&
      (!autoStart ==> comfy == Idle && web == Idle)
  {
  }

  // ---------------------------------------------------------------------------------------
  // start_all

  /** `start_all()`: ComfyUI's start is not guarded, so its exception propagates; an exception
      from WebUI's start reads as false. */
  function StartAllResults(comfy: StartOutcome, web: StartOutcome): (r: Call<map<string, bool>>)
    ensures r == Raised <==> StartReturns(comfy) == Raised
    ensures r.Returned? ==> r.value.Keys == {"comfyui", "webui"}
    ensures r.Returned? ==> r.value["comfyui"] == StartReturns(comfy).value
    ensures r.Returned? ==> (r.value["webui"] <==> StartReturns(web) == Returned(true))
  {
    match StartReturns(comfy)
    case Raised => Raised
    case Returned(c) =>
      var w := match StartReturns(web) case Returned(v) => v case Raised => false;
      Returned(map["comfyui" := c, "webui" := w])
  }

  // ---------------------------------------------------------------------------------------
  // construction

  /** The keyword arguments of `ServiceManager(...)`. */
  datatype ManagerArgs = ManagerArgs(
    comfyuiPath: Option<string>,
    webuiPath: Option<string>,
    comfyuiPort: Option<int>,
    webuiPort: Option<int>,
    autoStart: Option<bool>,
    healthCheckInterval: Option<int>)

  /** The settings a manager runs with. */
  datatype ManagerSettings = ManagerSettings(
    comfyuiPath: Option<string>,
    webuiPath: Option<string>,
    comfyuiPort: int,
    webuiPort: int,
    autoStart: bool,
    healthCheckInterval: int)

  /** `__init__` raised: `_setup_environment` computes `path / "venv"` with a `None` path. */
  datatype InitError = NoInstallPath(backend: Backend)

  /** A path argument wins when truthy, then a truthy configured path, else none. */
  function ChoosePath(arg: Option<string>, configured: Option<string>): Option<string>
  {
    if Config.Configured(arg) then arg else if Config.Configured(configured) then configured else None
  }

  /** `x if x is not None else configured`. */
  function Either<T>(arg: Option<T>, configured: T): T
  {
    if arg.Some? then arg.value else configured
  }

  /** The settings `__init__` arrives at, or the error it raises: ComfyUI's path is needed
      first, then WebUI's; non-path arguments override the configuration whenever given. */
  function ResolveSettings(args: ManagerArgs, cfg: Config.Settings): (r: Result<ManagerSettings, InitError>)
    ensures r.Success? <==> ChoosePath(args.comfyuiPath, cfg.comfyuiPath).Some? && ChoosePath(args.webuiPath, cfg.webuiPath).Some?
    ensures r.Failure? ==> r.error == NoInstallPath(if ChoosePath(args.comfyuiPath, cfg.comfyuiPath).None? then Config.ComfyUI else Config.WebUI)
    ensures r.Success? ==> r.value.comfyuiPath.Some? && r.value.webuiPath.Some?
    ensures r.Success? ==> r.value.comfyuiPath.value != "" && r.value.webuiPath.value != ""
    ensures r.Success? ==> r.value.comfyuiPath == (if Config.Configured(args.comfyuiPath) then args.comfyuiPath else cfg.comfyuiPath)
    ensures r.Success? ==> r.value.webuiPath == (if Config.Configured(args.webuiPath) then args.webuiPath else cfg.webuiPath)
    ensures r.Success? && args.comfyuiPort.Some? ==> r.value.comfyuiPort == args.comfyuiPort.value
    ensures r.Success? && args.comfyuiPort.None? ==> r.value.comfyuiPort == cfg.comfyuiPort
    ensures r.Success? && args.webuiPort.Some? ==> r.value.webuiPort == args.webuiPort.value
    ensures r.Success? && args.webuiPort.None? ==> r.value.webuiPort == cfg.webuiPort
    ensures r.Success? && args.autoStart.Some? ==> r.value.autoStart == args.autoStart.value
    ensures r.Success? && args.autoStart.None? ==> r.value.autoStart == cfg.autoStartServices
    ensures r.Success? && args.healthCheckInterval.Some? ==> r.value.healthCheckInterval == args.healthCheckInterval.value
    ensures r.Success? && args.healthCheckInterval.None? ==> r.value.healthCheckInterval == cfg.healthCheckInterval
  {
    var comfyuiPath := ChoosePath(args.comfyuiPath, cfg.comfyuiPath);
    var webuiPath := ChoosePath(args.webuiPath, cfg.webuiPath);
    if comfyuiPath.None? then Failure(NoInstallPath(Config.ComfyUI))
    else if webuiPath.None? then Failure(NoInstallPath(Config.WebUI))
    else Success(ManagerSettings(
      comfyuiPath, webuiPath,
      Either(args.comfyuiPort, cfg.comfyuiPort),
      Either(args.webuiPort, cfg.webuiPort),
      Either(args.autoStart, cfg.autoStartServices),
      Either(args.healthCheckInterval, cfg.healthCheckInterval)))
  }

  /** An empty path argument counts as absent, while a port argument of 0 still overrides. */
  lemma EmptyPathArgumentIgnored(args: ManagerArgs, cfg: Config.Settings)
    ensures ResolveSettings(args.(comfyuiPath := Some("")), cfg) == ResolveSettings(args.(comfyuiPath := None), cfg)
    ensures ResolveSettings(args.(webuiPath := Some("")), cfg) == ResolveSettings(args.(webuiPath := None), cfg)
    ensures var r := ResolveSettings(args.(comfyuiPort := Some(0)), cfg); r.Success? ==> r.value.comfyuiPort == 0
  {
  }

  // ---------------------------------------------------------------------------------------
  // the manager

  /** The daemon thread running `_health_check_loop`. */
  class HealthCheckThread {
    constructor ()
    {
    }
  }

  class ServiceManager {
    const comfyuiPath: Option<string>
    const webuiPath: Option<string>
    const comfyuiPort: int
    const webuiPort: int
    const autoStart: bool
    const healthCheckInterval: int
    var comfyuiProcess: Option<Handle>
    var webuiProcess: Option<Handle>
    var running: bool
    var healthCheckThread: HealthCheckThread?

    /** `__init__` once the settings are resolved: no processes, monitor off. */
    constructor (s: ManagerSettings)
      ensures comfyuiPath == s.comfyuiPath && webuiPath == s.webuiPath
      ensures comfyuiPort == s.comfyuiPort && webuiPort == s.webuiPort
      ensures autoStart == s.autoStart && healthCheckInterval == s.healthCheckInterval
      ensures comfyuiProcess.None? && webuiProcess.None?
      ensures !running && healthCheckThread == null
    {
      comfyuiPath := s.comfyuiPath;
      webuiPath := s.webuiPath;
      comfyuiPort := s.comfyuiPort;
      webuiPort := s.webuiPort;
      autoStart := s.autoStart;
      healthCheckInterval := s.healthCheckInterval;
      comfyuiProcess := None;
      webuiProcess := None;
      running := false;
      healthCheckThread := null;
    }

    /** `ServiceManager(**kwargs)`: fails when an installation path is missing. */
    static method Create(args: ManagerArgs, cfg: Config.Settings) returns (r: Result<ServiceManager, InitError>)
      ensures ResolveSettings(args, cfg).Failure? ==> r == Failure(ResolveSettings(args, cfg).error)
      ensures ResolveSettings(args, cfg).Success? ==> r.Success? && fresh(r.value)
      ensures r.Success? ==> r.value.Settings() == ResolveSettings(args, cfg).value && r.value.AtRest()
    {
      var s := ResolveSettings(args, cfg);
      if s.Failure? {
        return Failure(s.error);
      }
      var m := new ServiceManager(s.value);
      r := Success(m);
    }

    /** The settings the manager was built with. */
    function Settings(): ManagerSettings
    {
      ManagerSettings(comfyuiPath, webuiPath, comfyuiPort, webuiPort, autoStart, healthCheckInterval)
    }

    /** No processes and the monitor off, as right after construction. */
    predicate AtRest()
      reads this
    {
      comfyuiProcess.None? && webuiProcess.None? && !running && healthCheckThread == null
    }

    function PathOf(b: Backend): Option<string>
    {
      if b == Config.ComfyUI then comfyuiPath else webuiPath
    }

    function PortOf(b: Backend): int
    {
      if b == Config.ComfyUI then comfyuiPort else webuiPort
    }

    function HandleOf(b: Backend): Option<Handle>
      reads this
    {
      if b == Config.ComfyUI then comfyuiProcess else webuiProcess
    }

    method SetHandle(b: Backend, h: Option<Handle>)
      modifies this
      ensures HandleOf(b) == h && HandleOf(Other(b)) == old(HandleOf(Other(b)))
      ensures running == old(running) && healthCheckThread == old(healthCheckThread)
    {
      if b == Config.ComfyUI {
        comfyuiProcess := h;
      } else {
        webuiProcess := h;
      }
    }

    /** `start_comfyui()` and `start_webui()`, which differ only in the entry script and the
        startup budget. */
    method StartService(b: Backend, o: StartOracle) returns (r: Call<bool>)
      modifies this
      ensures r == StartReturns(StartSpec(b, old(HandleOf(b)), PathOf(b), o))
      ensures HandleOf(b) == HandleAfterStart(old(HandleOf(b)), StartSpec(b, old(HandleOf(b)), PathOf(b), o))
      ensures HandleOf(Other(b)) == old(HandleOf(Other(b)))
      ensures running == old(running) && healthCheckThread == old(healthCheckThread)
    {
      var handle := HandleOf(b);
      if handle.Some? && o.handleAlive {
        return Returned(true);
      }
      var path := PathOf(b);
      if path.None? {
        return Returned(false);
      }
      if o.pathCheck == CheckRaises {
        return Raised;
      }
      if o.pathCheck == Missing {
        return Returned(false);
      }
      if o.entryCheck == CheckRaises {
        return Raised;
      }
      if o.entryCheck == Missing {
        return Returned(false);
      }
      match o.launch {
        case LaunchRaised =>
          return Returned(false);
        case Launched(h) =>
          SetHandle(b, Some(h));
          var startup := AwaitStartup(MaxWait(b), WaitStep(b), o.startup);
          return Returned(startup.BecameHealthy?);
      }
    }

    method StartComfyUI(o: StartOracle) returns (r: Call<bool>)
      modifies this
      ensures r == StartReturns(StartSpec(Config.ComfyUI, old(comfyuiProcess), comfyuiPath, o))
      ensures comfyuiProcess == HandleAfterStart(old(comfyuiProcess), StartSpec(Config.ComfyUI, old(comfyuiProcess), comfyuiPath, o))
      ensures webuiProcess == old(webuiProcess) && running == old(running) && healthCheckThread == old(healthCheckThread)
    {
      r := StartService(Config.ComfyUI, o);
    }

    method StartWebUI(o: StartOracle) returns (r: Call<bool>)
      modifies this
      ensures r == StartReturns(StartSpec(Config.WebUI, old(webuiProcess), webuiPath, o))
      ensures webuiProcess == HandleAfterStart(old(webuiProcess), StartSpec(Config.WebUI, old(webuiProcess), webuiPath, o))
      ensures comfyuiProcess == old(comfyuiProcess) && running == old(running) && healthCheckThread == old(healthCheckThread)
    {
      r := StartService(Config.WebUI, o);
    }

    /** `stop_comfyui()` and `stop_webui()`: whatever happens, `finally` clears the handle. */
    method StopService(b: Backend, o: StopOracle) returns (outcome: StopOutcome)
      modifies this
      ensures outcome == StopSpec(b, old(HandleOf(b)), o)
      ensures HandleOf(b).None?
      ensures HandleOf(Other(b)) == old(HandleOf(Other(b)))
      ensures running == old(running) && healthCheckThread == old(healthCheckThread)
    {
      var handle := HandleOf(b);
      if handle.None? {
        return NothingToStop;
      }
      if !o.alive {
        outcome := AlreadyExited;
      } else if o.raises {
        outcome := StopFailed;
      } else if o.exitsAfter.Some? && o.exitsAfter.value <= Grace(b) {
        outcome := Terminated;
      } else {
        outcome := Killed;
      }
      SetHandle(b, None);
    }

    method StopComfyUI(o: StopOracle) returns (outcome: StopOutcome)
      modifies this
      ensures outcome == StopSpec(Config.ComfyUI, old(comfyuiProcess), o)
      ensures comfyuiProcess.None?
      ensures webuiProcess == old(webuiProcess) && running == old(running) && healthCheckThread == old(healthCheckThread)
    {
      outcome := StopService(Config.ComfyUI, o);
    }

    method StopWebUI(o: StopOracle) returns (outcome: StopOutcome)
      modifies this
      ensures outcome == StopSpec(Config.WebUI, old(webuiProcess), o)
      ensures webuiProcess.None?
      ensures comfyuiProcess == old(comfyuiProcess) && running == old(running) && healthCheckThread == old(healthCheckThread)
    {
      outcome := StopService(Config.WebUI, o);
    }

    /** `start_all()`. */
    method StartAll(oc: StartOracle, ow: StartOracle) returns (r: Call<map<string, bool>>)
      modifies this
      ensures var comfy := StartSpec(Config.ComfyUI, old(comfyuiProcess), comfyuiPath, oc);
        var web := StartSpec(Config.WebUI, old(webuiProcess), webuiPath, ow);
        r == StartAllResults(comfy, web) &&
        comfyuiProcess == HandleAfterStart(old(comfyuiProcess), comfy) &&
        webuiProcess == (if StartReturns(comfy) == Raised then old(webuiProcess) else HandleAfterStart(old(webuiProcess), web))
      ensures running == old(running) && healthCheckThread == old(healthCheckThread)
    {
      var comfy := StartComfyUI(oc);
      if comfy.Raised? {
        return Raised;
      }
      var web := StartWebUI(ow);
      var webStarted := if web.Raised? then false else web.value;
      r := Returned(map["comfyui" := comfy.value, "webui" := webStarted]);
    }

    /** `stop_all()`: both handles end up cleared. */
    method StopAll(oc: StopOracle, ow: StopOracle) returns (comfy: StopOutcome, web: StopOutcome)
      modifies this
      ensures comfy == StopSpec(Config.ComfyUI, old(comfyuiProcess), oc)
      ensures web == StopSpec(Config.WebUI, old(webuiProcess), ow)
      ensures comfyuiProcess.None? && webuiProcess.None?
      ensures running == old(running) && healthCheckThread == old(healthCheckThread)
    {
      comfy := StopComfyUI(oc);
      web := StopWebUI(ow);
    }

    /** `get_status()`: running means a live handle whose probe answered 2xx; the port and the
        loopback URL echo the configured port. */
    function GetStatus(comfy: Liveness, web: Liveness): (s: Status)
      reads this
      ensures s.comfyui.running <==> comfyuiProcess.Some? && comfy.alive && comfy.probe.Responded? && 200 <= comfy.probe.status < 300
      ensures s.webui.running <==> webuiProcess.Some? && web.alive && web.probe.Responded? && 200 <= web.probe.status < 300
      ensures s.comfyui.port == comfyuiPort && s.webui.port == webuiPort
      ensures s.comfyui.url == Config.LoopbackUrl(comfyuiPort) && s.webui.url == Config.LoopbackUrl(webuiPort)
    {
      Status(
        ServiceStatus(Running(comfyuiProcess, comfy), comfyuiPort, Config.LoopbackUrl(comfyuiPort)),
        ServiceStatus(Running(webuiProcess, web), webuiPort, Config.LoopbackUrl(webuiPort)))
    }

    /** One iteration of `_health_check_loop`, without its final sleep. */
    method HealthCheckPass(oc: ServiceOracle, ow: ServiceOracle) returns (comfyAction: MonitorAction, webAction: MonitorAction)
      modifies this
      ensures (comfyAction, webAction) == PassSpec(autoStart, old(comfyuiProcess), comfyuiPath, old(webuiProcess), webuiPath, oc, ow)
      ensures comfyuiProcess == HandleAfterAction(old(comfyuiProcess), comfyAction)
      ensures webuiProcess == HandleAfterAction(old(webuiProcess), webAction)
      ensures running == old(running) && healthCheckThread == old(healthCheckThread)
    {
      var status := GetStatus(oc.live, ow.live);
      comfyAction, webAction := Idle, Idle;
      if !status.comfyui.running && autoStart {
        var processRunning := comfyuiProcess.Some? && oc.live.alive;
        if processRunning {
          var stopped := StopService(Config.ComfyUI, oc.stop);
          var started := StartSpec(Config.ComfyUI, None, comfyuiPath, oc.start);
          var r := StartService(Config.ComfyUI, oc.start);
          comfyAction := Restart(stopped, started);
          if r.Raised? {
            return comfyAction, Skipped;
          }
        } else if comfyuiProcess.None? {
          var started := StartSpec(Config.ComfyUI, None, comfyuiPath, oc.start);
          var r := StartService(Config.ComfyUI, oc.start);
          comfyAction := FreshStart(started);
          if r.Raised? {
            return comfyAction, Skipped;
          }
        }
      }
      if !status.webui.running && autoStart {
        var processRunning := webuiProcess.Some? && ow.live.alive;
        if processRunning {
          var stopped := StopService(Config.WebUI, ow.stop);
          var started := StartSpec(Config.WebUI, None, webuiPath, ow.start);
          // Nothing follows `start_webui()` in the pass, so its result and a raise are both dropped.
          var _ := StartService(Config.WebUI, ow.start);
          webAction := Restart(stopped, started);
        }
      }
    }

    /** `start_health_check()`: starts the monitor thread only when it is not running. */
    method StartHealthCheck()
      modifies this
      ensures running
      ensures old(running) ==> healthCheckThread == old(healthCheckThread)
      ensures !old(running) ==> healthCheckThread != null && fresh(healthCheckThread)
      ensures comfyuiProcess == old(comfyuiProcess) && webuiProcess == old(webuiProcess)
    {
      if !running {
        running := true;
        healthCheckThread := new HealthCheckThread();
      }
    }

    /** `stop_health_check()`: clears the flag the loop tests; the thread object stays. */
    method StopHealthCheck()
      modifies this
      ensures !running
      ensures healthCheckThread == old(healthCheckThread)
      ensures comfyuiProcess == old(comfyuiProcess) && webuiProcess == old(webuiProcess)
    {
      running := false;
    }

    /** `__enter__`: start both backends, then the monitor; an exception from ComfyUI's start
        leaves the monitor off. */
    method Enter(oc: StartOracle, ow: StartOracle) returns (r: Call<ServiceManager>)
      modifies this
      ensures var comfy := StartSpec(Config.ComfyUI, old(comfyuiProcess), comfyuiPath, oc);
        var web := StartSpec(Config.WebUI, old(webuiProcess), webuiPath, ow);
        (r == Raised <==> StartReturns(comfy) == Raised) &&
        comfyuiProcess == HandleAfterStart(old(comfyuiProcess), comfy) &&
        webuiProcess == (if StartReturns(comfy) == Raised then old(webuiProcess) else HandleAfterStart(old(webuiProcess), web))
      ensures r.Returned? ==> r.value == this && running
      ensures r.Returned? && !old(running) ==> fresh(healthCheckThread)
      ensures r.Returned? && old(running) ==> healthCheckThread == old(healthCheckThread)
      ensures r.Raised? ==> running == old(running) && healthCheckThread == old(healthCheckThread)
    {
      var results := StartAll(oc, ow);
      if results.Raised? {
        return Raised;
      }
      StartHealthCheck();
      r := Returned(this);
    }

    /** `__exit__`: stop the monitor, then both backends. */
    method Exit(oc: StopOracle, ow: StopOracle)
      modifies this
      ensures !running && healthCheckThread == old(healthCheckThread)
      ensures comfyuiProcess.None? && webuiProcess.None?
    {
      StopHealthCheck();
      var comfy, web := StopAll(oc, ow);
    }
  }

  // ---------------------------------------------------------------------------------------
  // get_service_manager

  /** The module-level `_service_manager`. */
  class Registry {
    var instance: ServiceManager?

    constructor ()
      ensures instance == null
    {
      instance := null;
    }

    /** `get_service_manager(**kwargs)`: builds the manager on the first successful call and
        returns that same instance ever after, ignoring later arguments. */
    method GetServiceManager(args: ManagerArgs, cfg: Config.Settings) returns (r: Result<ServiceManager, InitError>)
      modifies this
      ensures old(instance) != null ==> r == Success(old(instance)) && instance == old(instance)
      ensures old(instance) == null && r.Success? ==> fresh(r.value) && instance == r.value && r.value.AtRest()
      ensures old(instance) == null ==> (r.Success? <==> ResolveSettings(args, cfg).Success?)
      ensures old(instance) == null && r.Success? ==> ResolveSettings(args, cfg).Success? && r.value.Settings() == ResolveSettings(args, cfg).value
      ensures old(instance) == null && r.Failure? ==> ResolveSettings(args, cfg).Failure? && instance == null && r.error == ResolveSettings(args, cfg).error
    {
      if instance == null {
        var created := ServiceManager.Create(args, cfg);
        if created.Failure? {
          return created;
        }
        instance := created.value;
      }
      r := Success(instance);
    }
  }
}
