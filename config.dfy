/** The settings read from the environment at import time (app/core/config.py) and their
    validation. */
module Config {
  import opened Wrappers
  import Strings

  /** The two inference backends the application supervises. */
  datatype Backend = ComfyUI | WebUI

  /** The process environment after `.env` loading. */
  type Env = map<string, string>

  /** `os.getenv(key, default)`. */
  function GetEnv(env: Env, key: string, default: string): string
  {
    if key in env then env[key] else default
  }

  /** The module-level constants of the configuration. */
  datatype Settings = Settings(
    comfyuiPath: Option<string>,
    comfyuiPort: int,
    comfyuiUrl: string,
    webuiPath: Option<string>,
    webuiPort: int,
    webuiUrl: string,
    autoStartServices: bool,
    healthCheckInterval: int,
    apiPort: int,
    defaultMode: string)

  /** `int(...)` raised `ValueError` while the module was imported. */
  datatype LoadError = NotAnInteger(variable: string, value: string)

  const LoopbackPrefix: string := "http://127.0.0.1:"

  /** `f"http://127.0.0.1:{port}"`. */
  function LoopbackUrl(port: int): string
  {
    LoopbackPrefix + Strings.IntToString(port)
  }

  /** The port can be read back from the loopback URL built from it. */
  lemma LoopbackUrlPort(port: int)
    ensures |LoopbackUrl(port)| > |LoopbackPrefix|
    ensures LoopbackUrl(port)[..|LoopbackPrefix|] == LoopbackPrefix
    ensures Strings.ParseInt(LoopbackUrl(port)[|LoopbackPrefix|..]) == Some(port)
  {
    Strings.ParseIntToString(port);
    Strings.NatToStringDigits(if port < 0 then -port else port);
    assert LoopbackUrl(port)[|LoopbackPrefix|..] == Strings.IntToString(port);
  }

  /** `os.getenv(key) or (str(root / dir) if (root / dir).exists() else None)`: an empty
      variable counts as unset, and the result is never the empty string. */
  function InstallPath(env: Env, key: string, projectRoot: string, dir: string, pathExists: string -> bool): (r: Option<string>)
    ensures r.Some? ==> r.value != ""
    ensures key in env && env[key] != "" ==> r == Some(env[key])
    ensures (key !in env || env[key] == "") && !pathExists(projectRoot + "/" + dir) ==> r.None?
    ensures (key !in env || env[key] == "") && pathExists(projectRoot + "/" + dir) ==> r == Some(projectRoot + "/" + dir)
  {
    if key in env && env[key] != "" then Some(env[key])
    else
      var candidate := projectRoot + "/" + dir;
      if pathExists(candidate) then Some(candidate) else None
  }

  /** `int(os.getenv(key, default))`. */
  function IntSetting(env: Env, key: string, default: string): Result<int, LoadError>
  {
    var text := GetEnv(env, key, default);
    match Strings.ParseInt(text)
    case Some(n) => Success(n)
    case None => Failure(NotAnInteger(key, text))
  }

  /** An integer setting parses the variable, or its default when unset; it fails exactly when
      that text is not an integer, naming the variable and the text; an unset variable with a
      printed default yields that default. */
  lemma IntSettingSpec(env: Env, key: string, default: int)
    ensures var text := GetEnv(env, key, Strings.IntToString(default));
      var r := IntSetting(env, key, Strings.IntToString(default));
      (r.Success? <==> Strings.ParseInt(text).Some?) &&
      (r.Success? ==> r.value == Strings.ParseInt(text).value) &&
      (r.Failure? ==> r.error == NotAnInteger(key, text))
    ensures key !in env ==> IntSetting(env, key, Strings.IntToString(default)) == Success(default)
  {
    Strings.ParseIntToString(default);
  }

  /** `os.getenv("AUTO_START_SERVICES", "true").lower() == "true"`. */
  predicate AutoStartServices(env: Env)
  {
    Strings.AsciiLower(GetEnv(env, "AUTO_START_SERVICES", "true")) == "true"
  }

  /** Auto-start is on exactly when the variable spells `true` in any mix of letter cases, and
      also when it is unset. */
  lemma AutoStartIff(env: Env)
    ensures var v := GetEnv(env, "AUTO_START_SERVICES", "true");
      AutoStartServices(env) <==> |v| == 4 && forall i :: 0 <= i < 4 ==> v[i] == "true"[i] || v[i] == "TRUE"[i]
    ensures "AUTO_START_SERVICES" !in env ==> AutoStartServices(env)
  {
    var v := GetEnv(env, "AUTO_START_SERVICES", "true");
    var l := Strings.AsciiLower(v);
    if AutoStartServices(env) {
      forall i | 0 <= i < 4 ensures v[i] == "true"[i] || v[i] == "TRUE"[i] {
        assert Strings.LowerChar(v[i]) == "true"[i];
      }
    }
    if |v| == 4 && forall i :: 0 <= i < 4 ==> v[i] == "true"[i] || v[i] == "TRUE"[i] {
      assert l == "true" by {
        forall i | 0 <= i < 4 ensures l[i] == "true"[i] {
          assert v[i] == "true"[i] || v[i] == "TRUE"[i];
        }
      }
    }
  }

  /** Importing app/core/config.py: the integer settings are parsed in file order and the first
      one that is not an integer makes the import raise. */
  function LoadConfig(env: Env, projectRoot: string, pathExists: string -> bool): Result<Settings, LoadError>
  {
    var comfyuiPort :- IntSetting(env, "COMFYUI_PORT", "8188");
    var webuiPort :- IntSetting(env, "WEBUI_PORT", "7860");
    var interval :- IntSetting(env, "HEALTH_CHECK_INTERVAL", "10");
    var apiPort :- IntSetting(env, "API_PORT", "8000");
    Success(Settings(
      InstallPath(env, "COMFYUI_PATH", projectRoot, "ComfyUI", pathExists),
      comfyuiPort,
      GetEnv(env, "COMFYUI_URL", LoopbackUrl(comfyuiPort)),
      InstallPath(env, "WEBUI_PATH", projectRoot, "stable-diffusion-webui", pathExists),
      webuiPort,
      GetEnv(env, "WEBUI_URL", LoopbackUrl(webuiPort)),
      AutoStartServices(env),
      interval,
      apiPort,
      GetEnv(env, "DEFAULT_MODE", "high_quality")))
  }

  /** The import fails with the error of the first integer variable, in file order, that does
      not parse. Otherwise every setting is the variable's value or its default: the ports, the
      interval and the API port parsed, the URLs defaulting to the loopback URL of the port, the
      paths from `InstallPath`, auto-start from the variable, and the default mode. */
  lemma LoadConfigSpec(env: Env, projectRoot: string, pathExists: string -> bool, r: Result<Settings, LoadError>)
    requires r == LoadConfig(env, projectRoot, pathExists)
    ensures r.Success? <==>
      IntSetting(env, "COMFYUI_PORT", "8188").Success? && IntSetting(env, "WEBUI_PORT", "7860").Success? &&
      IntSetting(env, "HEALTH_CHECK_INTERVAL", "10").Success? && IntSetting(env, "API_PORT", "8000").Success?
    ensures IntSetting(env, "COMFYUI_PORT", "8188").Failure? ==> r == Failure(IntSetting(env, "COMFYUI_PORT", "8188").error)
    ensures IntSetting(env, "COMFYUI_PORT", "8188").Success? && IntSetting(env, "WEBUI_PORT", "7860").Failure? ==>
      r == Failure(IntSetting(env, "WEBUI_PORT", "7860").error)
    ensures (IntSetting(env, "COMFYUI_PORT", "8188").Success? && IntSetting(env, "WEBUI_PORT", "7860").Success? &&
             IntSetting(env, "HEALTH_CHECK_INTERVAL", "10").Failure?) ==>
      r == Failure(IntSetting(env, "HEALTH_CHECK_INTERVAL", "10").error)
    ensures (IntSetting(env, "COMFYUI_PORT", "8188").Success? && IntSetting(env, "WEBUI_PORT", "7860").Success? &&
             IntSetting(env, "HEALTH_CHECK_INTERVAL", "10").Success? && IntSetting(env, "API_PORT", "8000").Failure?) ==>
      r == Failure(IntSetting(env, "API_PORT", "8000").error)
    ensures r.Success? ==> r.value.comfyuiPort == IntSetting(env, "COMFYUI_PORT", "8188").value
    ensures r.Success? ==> r.value.webuiPort == IntSetting(env, "WEBUI_PORT", "7860").value
    ensures r.Success? ==> r.value.healthCheckInterval == IntSetting(env, "HEALTH_CHECK_INTERVAL", "10").value
    ensures r.Success? ==> r.value.apiPort == IntSetting(env, "API_PORT", "8000").value
    ensures r.Success? ==> r.value.comfyuiUrl == GetEnv(env, "COMFYUI_URL", LoopbackUrl(r.value.comfyuiPort))
    ensures r.Success? ==> r.value.webuiUrl == GetEnv(env, "WEBUI_URL", LoopbackUrl(r.value.webuiPort))
    ensures r.Success? && "COMFYUI_URL" !in env ==> r.value.comfyuiUrl == LoopbackUrl(r.value.comfyuiPort)
    ensures r.Success? && "WEBUI_URL" !in env ==> r.value.webuiUrl == LoopbackUrl(r.value.webuiPort)
    ensures r.Success? ==> r.value.comfyuiPath == InstallPath(env, "COMFYUI_PATH", projectRoot, "ComfyUI", pathExists)
    ensures r.Success? ==> r.value.webuiPath == InstallPath(env, "WEBUI_PATH", projectRoot, "stable-diffusion-webui", pathExists)
    ensures r.Success? ==> r.value.defaultMode == GetEnv(env, "DEFAULT_MODE", "high_quality")
    ensures r.Success? ==> r.value.autoStartServices == AutoStartServices(env)
    ensures r.Success? ==> (r.value.comfyuiPath.Some? ==> r.value.comfyuiPath.value != "")
    ensures r.Success? ==> (r.value.webuiPath.Some? ==> r.value.webuiPath.value != "")
  {
  }

  /** The default texts of the integer settings are the printed default values. */
  lemma PrintedDefaults()
    ensures Strings.IntToString(8188) == "8188" && Strings.IntToString(7860) == "7860"
    ensures Strings.IntToString(10) == "10" && Strings.IntToString(8000) == "8000"
  {
    assert Strings.NatToString(8) == "8";
    assert Strings.NatToString(81) == "81";
    assert Strings.NatToString(818) == "818";
    assert Strings.NatToString(7) == "7";
    assert Strings.NatToString(78) == "78";
    assert Strings.NatToString(786) == "786";
    assert Strings.NatToString(1) == "1";
    assert Strings.NatToString(80) == "80";
    assert Strings.NatToString(800) == "800";
  }

  /** With an empty environment the defaults are the documented ports and URLs. */
  lemma LoadConfigDefaults(projectRoot: string, pathExists: string -> bool)
    ensures var r := LoadConfig(map[], projectRoot, pathExists);
      r.Success? && r.value.comfyuiPort == 8188 && r.value.webuiPort == 7860 &&
      r.value.comfyuiUrl == "http://127.0.0.1:8188" && r.value.webuiUrl == "http://127.0.0.1:7860" &&
      r.value.autoStartServices && r.value.healthCheckInterval == 10 && r.value.defaultMode == "high_quality"
  {
    PrintedDefaults();
    IntSettingSpec(map[], "COMFYUI_PORT", 8188);
    IntSettingSpec(map[], "WEBUI_PORT", 7860);
    IntSettingSpec(map[], "HEALTH_CHECK_INTERVAL", 10);
    IntSettingSpec(map[], "API_PORT", 8000);
    AutoStartIff(map[]);
    LoadConfigSpec(map[], projectRoot, pathExists, LoadConfig(map[], projectRoot, pathExists));
  }

  // ---------------------------------------------------------------------------------------
  // validate_config

  const ValidModes: seq<string> := ["fast", "balanced", "high_quality"]

  /** One finding of `validate_config`; the same finding is an error or a warning depending on
      `strict`. */
  datatype Problem =
    | PathNotFound(backend: Backend, path: string)
    | PathNotSet(backend: Backend)
    | PortsEqual(port: int)
    | PortInvalid(backend: Backend, port: int)
    | ModeInvalid(mode: string)

  /** Python truthiness of an optional path: `None` and `""` are both false. */
  predicate Configured(p: Option<string>)
  {
    p.Some? && p.value != ""
  }

  function PathOf(s: Settings, b: Backend): Option<string>
  {
    if b == ComfyUI then s.comfyuiPath else s.webuiPath
  }

  function PortOf(s: Settings, b: Backend): int
  {
    if b == ComfyUI then s.comfyuiPort else s.webuiPort
  }

  predicate PortInRange(port: int)
  {
    1024 <= port <= 65535
  }

  /** Position of a finding in the order the checks run. */
  function Rank(p: Problem): nat
  {
    match p
    case PathNotFound(b, _) => if b == ComfyUI then 0 else 1
    case PathNotSet(b) => if b == ComfyUI then 0 else 1
    case PortsEqual(_) => 2
    case PortInvalid(b, _) => if b == ComfyUI then 3 else 4
    case ModeInvalid(_) => 5
  }

  predicate InCheckOrder(ps: seq<Problem>)
  {
    forall i, j :: 0 <= i < j < |ps| ==> Rank(ps[i]) < Rank(ps[j])
  }

  /** A configured path that does not exist. */
  predicate PathMissing(s: Settings, b: Backend, path: string, pathExists: string -> bool)
  {
    Configured(PathOf(s, b)) && PathOf(s, b).value == path && !pathExists(path)
  }

  /** The errors `validate_config` must report. */
  predicate IsError(s: Settings, strict: bool, pathExists: string -> bool, p: Problem)
  {
    match p
    case PathNotFound(b, path) => strict && PathMissing(s, b, path, pathExists)
    case PathNotSet(_) => false
    case PortsEqual(port) => s.comfyuiPort == s.webuiPort && port == s.comfyuiPort
    case PortInvalid(b, port) => port == PortOf(s, b) && !PortInRange(port)
    case ModeInvalid(mode) => mode == s.defaultMode && mode !in ValidModes
  }

  /** The warnings `validate_config` must log. */
  predicate IsWarning(s: Settings, strict: bool, pathExists: string -> bool, p: Problem)
  {
    match p
    case PathNotFound(b, path) => !strict && PathMissing(s, b, path, pathExists)
    case PathNotSet(b) => !Configured(PathOf(s, b))
    case _ => false
  }

  /** The error check number `k` reports, if any (checks 0 to 5, in source order). */
  function ErrorAt(s: Settings, strict: bool, pathExists: string -> bool, k: nat): Option<Problem>
  {
    if k <= 1 then
      var b := if k == 0 then ComfyUI else WebUI;
      if strict && Configured(PathOf(s, b)) && !pathExists(PathOf(s, b).value)
      then Some(PathNotFound(b, PathOf(s, b).value)) else None
    else if k == 2 then (if s.comfyuiPort == s.webuiPort then Some(PortsEqual(s.comfyuiPort)) else None)
    else if k == 3 then (if PortInRange(s.comfyuiPort) then None else Some(PortInvalid(ComfyUI, s.comfyuiPort)))
    else if k == 4 then (if PortInRange(s.webuiPort) then None else Some(PortInvalid(WebUI, s.webuiPort)))
    else if k == 5 then (if s.defaultMode in ValidModes then None else Some(ModeInvalid(s.defaultMode)))
    else None
  }

  /** The warning check number `k` logs, if any (only the two path checks warn). */
  function WarningAt(s: Settings, strict: bool, pathExists: string -> bool, k: nat): Option<Problem>
  {
    if k <= 1 then
      var b := if k == 0 then ComfyUI else WebUI;
      if !Configured(PathOf(s, b)) then Some(PathNotSet(b))
      else if !strict && !pathExists(PathOf(s, b).value) then Some(PathNotFound(b, PathOf(s, b).value))
      else None
    else None
  }

  lemma ErrorAtIff(s: Settings, strict: bool, pathExists: string -> bool, p: Problem)
    ensures IsError(s, strict, pathExists, p) <==> ErrorAt(s, strict, pathExists, Rank(p)) == Some(p)
  {
  }

  lemma WarningAtIff(s: Settings, strict: bool, pathExists: string -> bool, p: Problem)
    ensures IsWarning(s, strict, pathExists, p) <==> WarningAt(s, strict, pathExists, Rank(p)) == Some(p)
  {
  }

  /** The finding of one check as the list it appends. */
  function Listed(o: Option<Problem>): seq<Problem>
  {
    if o.Some? then [o.value] else []
  }

  /** Appending the finding of check `k` to findings of earlier checks keeps check order. */
  lemma ExtendInOrder(prev: seq<Problem>, o: Option<Problem>, k: nat)
    requires InCheckOrder(prev)
    requires forall p :: p in prev ==> Rank(p) < k
    requires o.Some? ==> Rank(o.value) == k
    ensures InCheckOrder(prev + Listed(o))
    ensures forall p :: p in prev + Listed(o) <==> p in prev || o == Some(p)
  {
    if o.Some? {
      forall i, j | 0 <= i < j < |prev + Listed(o)| ensures Rank((prev + Listed(o))[i]) < Rank((prev + Listed(o))[j]) {
        if j == |prev| {
          assert prev[i] in prev;
        }
      }
    }
  }

  /** The errors of checks `0 .. k - 1`, in order. */
  function ErrorsUpTo(s: Settings, strict: bool, pathExists: string -> bool, k: nat): seq<Problem>
  {
    if k == 0 then []
    else
      ErrorsUpTo(s, strict, pathExists, k - 1) + Listed(ErrorAt(s, strict, pathExists, k - 1))
  }

  /** The warnings of checks `0 .. k - 1`, in order. */
  function WarningsUpTo(s: Settings, strict: bool, pathExists: string -> bool, k: nat): seq<Problem>
  {
    if k == 0 then []
    else
      WarningsUpTo(s, strict, pathExists, k - 1) + Listed(WarningAt(s, strict, pathExists, k - 1))
  }

  lemma {:induction false} ErrorsUpToSpec(s: Settings, strict: bool, pathExists: string -> bool, k: nat)
    ensures InCheckOrder(ErrorsUpTo(s, strict, pathExists, k))
    ensures forall p :: p in ErrorsUpTo(s, strict, pathExists, k) <==> Rank(p) < k && IsError(s, strict, pathExists, p)
  {
    if k > 0 {
      var prev, o := ErrorsUpTo(s, strict, pathExists, k - 1), ErrorAt(s, strict, pathExists, k - 1);
      ErrorsUpToSpec(s, strict, pathExists, k - 1);
      assert o.Some? ==> Rank(o.value) == k - 1;
      ExtendInOrder(prev, o, k - 1);
      forall p ensures p in prev + Listed(o) <==> Rank(p) < k && IsError(s, strict, pathExists, p) {
        ErrorAtIff(s, strict, pathExists, p);
        assert o == Some(p) <==> Rank(p) == k - 1 && IsError(s, strict, pathExists, p);
      }
    }
  }

  lemma {:induction false} WarningsUpToSpec(s: Settings, strict: bool, pathExists: string -> bool, k: nat)
    ensures InCheckOrder(WarningsUpTo(s, strict, pathExists, k))
    ensures forall p :: p in WarningsUpTo(s, strict, pathExists, k) <==> Rank(p) < k && IsWarning(s, strict, pathExists, p)
  {
    if k > 0 {
      var prev, o := WarningsUpTo(s, strict, pathExists, k - 1), WarningAt(s, strict, pathExists, k - 1);
      WarningsUpToSpec(s, strict, pathExists, k - 1);
      assert o.Some? ==> Rank(o.value) == k - 1;
      ExtendInOrder(prev, o, k - 1);
      forall p ensures p in prev + Listed(o) <==> Rank(p) < k && IsWarning(s, strict, pathExists, p) {
        WarningAtIff(s, strict, pathExists, p);
        assert o == Some(p) <==> Rank(p) == k - 1 && IsWarning(s, strict, pathExists, p);
      }
    }
  }

  /** All six checks report every error; the two path checks log every warning. */
  lemma AllChecksRun(s: Settings, strict: bool, pathExists: string -> bool)
    ensures var errors := ErrorsUpTo(s, strict, pathExists, 6);
      InCheckOrder(errors) && forall p :: p in errors <==> IsError(s, strict, pathExists, p)
    ensures var warnings := WarningsUpTo(s, strict, pathExists, 2);
      InCheckOrder(warnings) && forall p :: p in warnings <==> IsWarning(s, strict, pathExists, p)
  {
    ErrorsUpToSpec(s, strict, pathExists, 6);
    WarningsUpToSpec(s, strict, pathExists, 2);
    forall p | IsWarning(s, strict, pathExists, p) ensures Rank(p) < 2 {}
  }

  /** What `validate_config(strict)` computes: the verdict (true, or the failure carrying every
      failed check) and the logged warnings. */
  function Validation(s: Settings, strict: bool, pathExists: string -> bool): (Result<bool, seq<Problem>>, seq<Problem>)
  {
    var errors := ErrorsUpTo(s, strict, pathExists, 6);
    (if errors != [] then Failure(errors) else Success(true), WarningsUpTo(s, strict, pathExists, 2))
  }

  /** It returns true exactly when no check fails, otherwise fails with every failed check in
      check order; warnings are every path warning, in order, and never make it fail. */
  lemma ValidationSpec(s: Settings, strict: bool, pathExists: string -> bool)
    ensures var (r, _) := Validation(s, strict, pathExists); r.Success? ==> r.value
    ensures var (r, _) := Validation(s, strict, pathExists); r.Success? <==> forall p :: !IsError(s, strict, pathExists, p)
    ensures var (r, _) := Validation(s, strict, pathExists); r.Failure? ==> r.error != [] && InCheckOrder(r.error)
    ensures var (r, _) := Validation(s, strict, pathExists); r.Failure? ==> forall p :: p in r.error <==> IsError(s, strict, pathExists, p)
    ensures var (_, w) := Validation(s, strict, pathExists); InCheckOrder(w) && forall p :: p in w <==> IsWarning(s, strict, pathExists, p)
  {
    AllChecksRun(s, strict, pathExists);
    var errors := ErrorsUpTo(s, strict, pathExists, 6);
    if errors != [] {
      assert IsError(s, strict, pathExists, errors[0]);
    }
  }

  /** One of the two path checks of `validate_config`: an unset path is a warning, a missing one
      an error under `strict` and a warning otherwise. */
  method CheckPath(s: Settings, b: Backend, strict: bool, pathExists: string -> bool, errors: seq<Problem>, warnings: seq<Problem>)
    returns (errors': seq<Problem>, warnings': seq<Problem>)
    ensures errors' == errors + Listed(ErrorAt(s, strict, pathExists, Rank(PathNotSet(b))))
    ensures warnings' == warnings + Listed(WarningAt(s, strict, pathExists, Rank(PathNotSet(b))))
  {
    errors', warnings' := errors, warnings;
    var path := if b == ComfyUI then s.comfyuiPath else s.webuiPath;
    if Configured(path) {
      if !pathExists(path.value) {
        var msg := PathNotFound(b, path.value);
        if strict { errors' := errors' + [msg]; } else { warnings' := warnings' + [msg]; }
      }
    } else {
      warnings' := warnings' + [PathNotSet(b)];
    }
  }

  /** `validate_config(strict)`, check by check in source order. */
  method ValidateConfig(s: Settings, strict: bool, pathExists: string -> bool) returns (r: Result<bool, seq<Problem>>, warnings: seq<Problem>)
    ensures r == Validation(s, strict, pathExists).0
    ensures warnings == Validation(s, strict, pathExists).1
  {
    var errors: seq<Problem> := [];
    warnings := [];
    errors, warnings := CheckPath(s, ComfyUI, strict, pathExists, errors, warnings);
    assert errors == ErrorsUpTo(s, strict, pathExists, 1) && warnings == WarningsUpTo(s, strict, pathExists, 1);
    errors, warnings := CheckPath(s, WebUI, strict, pathExists, errors, warnings);
    assert errors == ErrorsUpTo(s, strict, pathExists, 2) && warnings == WarningsUpTo(s, strict, pathExists, 2);

    if s.comfyuiPort == s.webuiPort {
      errors := errors + [PortsEqual(s.comfyuiPort)];
    }
    assert errors == ErrorsUpTo(s, strict, pathExists, 3);

    if s.comfyuiPort < 1024 || s.comfyuiPort > 65535 {
      errors := errors + [PortInvalid(ComfyUI, s.comfyuiPort)];
    }
    assert errors == ErrorsUpTo(s, strict, pathExists, 4);

    if s.webuiPort < 1024 || s.webuiPort > 65535 {
      errors := errors + [PortInvalid(WebUI, s.webuiPort)];
    }
    assert errors == ErrorsUpTo(s, strict, pathExists, 5);

    if s.defaultMode !in ValidModes {
      errors := errors + [ModeInvalid(s.defaultMode)];
    }
    assert errors == ErrorsUpTo(s, strict, pathExists, 6);

    if errors != [] {
      r := Failure(errors);
    } else {
      r := Success(true);
    }
  }
}
