# ComfyUI-Agent core in Dafny

A model of the core of ComfyUI-Agent, a Python service that supervises two local image
inference servers (ComfyUI and the Stable Diffusion WebUI) and drives ComfyUI to generate
product images. The model covers four parts:

- `config.dfy` (`Config`): the settings read from the environment when `app/core/config.py`
  is imported, and `validate_config`, which splits its findings into errors and warnings.
- `model_checker.dfy` (`ModelChecker`): the checkpoint listing, lookup, size rounding and
  file validation of `ModelChecker`.
- `image_generation.dfy` (`ImageGeneration`): the mode table, model auto-selection, model
  validation at construction, the prompt style suffix, the ComfyUI workflow graph, submission,
  polling, download, the refinement loop and the product-image entry point.
- `service_manager.dfy` (`ServiceManager`): the `ServiceManager` class. It starts a backend
  and waits for it to answer, stops it, reports status, runs one pass of the health-check
  monitor, and handles construction, the context manager and the process-wide singleton.

Three support modules sit beside them:

- wrappers.dfy: `Option`, `Result` and `Outcome`.
- strings.dfy: ASCII lower-casing, substring search, and decimal formatting and parsing.
- lists.dfy: filtering and insertion sort over strings.

Everything outside the program is an oracle value handed to the operation that consults it:

- the environment, as a map;
- `Path.exists()`, as a predicate on path strings;
- the checkpoint directory, as its glob listing plus a map from name to `stat` entry;
- HTTP replies, as datatypes;
- the answer of each poll, as a function of the poll's index;
- child processes, as what `poll()`, `wait()` and `Popen` report.

Time is counted in loop iterations: 1200 polls of 0.25 s for a job, and 60 startup probes
for either backend.

The Python objects whose fields change are classes:

- `ImageGenerationService`, whose refiner validation may drop;
- `ServiceManager`, with its two process handles, the `running` flag and the thread;
- the singleton `Registry`.

`ModelChecker` has no mutable state and is a datatype. Operations that loop in the source are
methods with loop invariants, each proved equal to a specification function. The properties
the source promises are lemmas about those functions.

Where the code and its description differ, the model follows the code:

- The monitor restarts a process that is alive but does not answer, and also starts a ComfyUI
  that has no handle. A dead handle is never restarted, and a WebUI with no handle is never
  started.
- One `try` covers a whole monitor pass, so an exception from ComfyUI's start skips WebUI
  for that pass.
- `ServiceManager.__init__` raises a `TypeError` when either path resolves to `None`, because
  `_setup_environment` computes `None / "venv"`. As a result, the "path not set" refusal of a
  start is unreachable for a manager that was constructed.
- Constructing `ImageGenerationService` without any checkpoint on disk raises. The refiner is
  optional, but only after the base checkpoint has been found and is large enough.
- `_refine_loop` with `rounds <= 0` raises `UnboundLocalError`, since `images` is never bound.
  It is modelled as the `NoRounds` error.

Python default arguments become explicit parameters: `strict` (default `False`) of `validate_config` in `Config.ValidateConfig`, and `mode` (default `high_quality`) and `prefix` (default `hyperwise`) of `_generate_image` in `ImageGeneration.ImageGenerationService.GenerateImage`. Callers that use the defaults pass those values: `RefineLoop` passes `DefaultPrefix`. Some contracts read like their definitions, such as `ServiceManager.ServiceManager.GetStatus` and `Config.LoadConfigSpec`. There the source promises nothing beyond what the definition computes: a status dictionary, or the module-level settings.

## Model

| member | source | states |
|---|---|---|
| Config.LoopbackUrlPort | app/core/config.py:26 | the default URL `http://127.0.0.1:<port>` starts with the loopback prefix and its remainder parses back to the port |
| Config.InstallPath | app/core/config.py:21-23 | a non-empty variable wins; an empty one counts as unset; an unset or empty variable gives the project sub-directory when that exists, else none; never the empty string |
| Config.AutoStartIff | app/core/config.py:41 | auto-start is on exactly when the variable spells `true` in any letter case, and when it is unset |
| Config.IntSettingSpec | app/core/config.py:25-48 | `IntSetting`: an integer setting succeeds exactly when the variable (or the default text) parses, with the parsed value, and otherwise names the key and the text; an unset variable gives the default |
| Config.LoadConfigSpec | app/core/config.py:21-59 | `LoadConfig`: the import succeeds exactly when all four integer variables parse, and otherwise fails on the first failing one in file order (ComfyUI port, WebUI port, interval, API port); ports, interval and API port are the parsed values; each URL is the variable or else the loopback URL of its port; the paths are the resolved install paths and never empty; mode defaults to `high_quality`; auto-start follows the variable |
| Config.LoadConfigDefaults | app/core/config.py:25-59 | with an empty environment: ports 8188 and 7860, their loopback URLs, auto-start on, interval 10, mode `high_quality` |
| Config.ErrorAtIff | app/core/config.py:84-114 | a finding is an error exactly when the check at its position reports it as one |
| Config.WarningAtIff | app/core/config.py:84-102 | a finding is a warning exactly when the check at its position reports it as one |
| Config.ErrorsUpToSpec | app/core/config.py:84-114 | after the first k checks the error list is in check order and holds exactly the errors of those checks |
| Config.WarningsUpToSpec | app/core/config.py:84-102 | after the first k checks the warning list is in check order and holds exactly the warnings of those checks |
| Config.AllChecksRun | app/core/config.py:84-114 | the six checks cover every possible error and the two path checks every possible warning |
| Config.ValidationSpec | app/core/config.py:74-127 | `Validation`: returns true exactly when no error applies; otherwise it raises with the non-empty list of all errors in check order; the warnings are exactly those that apply, in check order |
| Config.CheckPath | app/core/config.py:84-102 | one path check appends to the errors or the warnings exactly the finding of that check |
| Config.ValidateConfig | app/core/config.py:74-127 | the imperative validation returns exactly the result and warnings of the specification |
| Strings.NatToStringDigits | app/core/config.py:26 | a formatted natural number is a non-empty, unsigned string of digits whose value is the number |
| Strings.ParseIntToString | app/core/config.py:25 | `int(str(n)) == n` for every integer |
| Strings.ContainsChar | app/services/image_generation.py:70 | a string containing a substring contains each of its characters |
| Lists.FilterMembers | app/services/image_generation.py:70 | a list comprehension keeps exactly the members that satisfy the condition, no more often than they occur |
| Lists.FilterFirst | app/services/image_generation.py:71-72 | the first element of the filtered list is the first element of the list satisfying the condition |
| Lists.FilterSnoc | app/services/model_checker.py:33-36 | filtering a list extended by one element extends the filtered list by that element exactly when it qualifies |
| Lists.SortCorrect | app/services/model_checker.py:38 | `sorted` returns an ordered permutation of its argument |
| ModelChecker.NewChecker | app/services/model_checker.py:14-16 | the installation path is kept exactly when it is configured and non-empty |
| ModelChecker.GlobsDisjoint | app/services/model_checker.py:33-36 | no file name matches both `*.safetensors` and `*.ckpt` |
| ModelChecker.TwoGlobsListCheckpoints | app/services/model_checker.py:33-36 | the two globs together list each checkpoint name as often as it is enumerated |
| ModelChecker.AvailableModelsSpec | app/services/model_checker.py:18-38 | `AvailableModels`: no models without a path or a checkpoint directory; otherwise a sorted list holding exactly the checkpoint names found, each as often as enumerated |
| ModelChecker.GetAvailableModels | app/services/model_checker.py:18-38 | the two glob loops followed by `sorted` compute the specified list |
| ModelChecker.CheckModelExists | app/services/model_checker.py:40-56 | true exactly when a path is set and the name is a regular file of the checkpoint directory |
| ModelChecker.SizeCentiMbNearest | app/services/model_checker.py:81 | `SizeCentiMb`: the rounded size in MiB is within half a hundredth of the exact size |
| ModelChecker.SizeBelowThreshold | app/services/model_checker.py:81-110 | `SizeCentiMb`: a file rounds to less than 100 MiB exactly when it has at most 104852357 bytes |
| ModelChecker.GetModelInfo | app/services/model_checker.py:58-83 | info exists exactly when something exists under the name, and carries that name, its size, its rounded size and its modification time |
| ModelChecker.ModelValidation | app/services/model_checker.py:85-115 | a missing file yields exactly the not-found result; an existing one carries its info and is valid exactly when larger than 104852357 bytes, else too small |
| ModelChecker.ValidateModelFile | app/services/model_checker.py:85-115 | the step-by-step validation returns exactly the specified result |
| ImageGeneration.ModesTable | app/services/image_generation.py:15-43 | the mode names are exactly the valid modes; only `high_quality` upscales; all modes use the same sampler |
| ImageGeneration.SelectModel | app/services/image_generation.py:64-85 | an explicit name wins; otherwise the first available candidate is chosen; with no candidate, the default |
| ImageGeneration.DefaultBaseIsNoRefiner | app/services/image_generation.py:74 | the default base name does not mention `refiner` |
| ImageGeneration.DefaultRefinerIsRefiner | app/services/image_generation.py:85 | the default refiner name mentions `refiner` |
| ImageGeneration.AutoSelectionDistinct | app/services/image_generation.py:63-85 | auto-selection never picks the same checkpoint as base and as refiner |
| ImageGeneration.ApplyStyle | app/services/image_generation.py:138-145 | the styled prompt is the prompt followed by the style suffix |
| ImageGeneration.StripApplyStyle | app/services/image_generation.py:138-145 | stripping the suffix from a styled prompt recovers the prompt |
| ImageGeneration.ApplyStyleInjective | app/services/image_generation.py:138-145 | different prompts give different styled prompts |
| ImageGeneration.ApplyStripStyle | app/services/image_generation.py:138-145 | a string from which the suffix can be stripped is the styling of what remains |
| ImageGeneration.DropNone | app/services/image_generation.py:287 | the graph keeps exactly the nodes that are not `None`, unchanged |
| ImageGeneration.BuildGraphNodes | app/services/image_generation.py:225-287 | `RawGraph` and `BuildGraph`: the graph has the seven core nodes, plus `upscale` exactly when the mode upscales |
| ImageGeneration.BuildGraphInputs | app/services/image_generation.py:225-283 | `BuildGraph`: the loader loads the base checkpoint; the latent has the mode's size; the sampler uses the mode's steps and sampler; the positive text is the prompt and the negative the fixed text; the save node uses the prefix |
| ImageGeneration.BuildGraphLinks | app/services/image_generation.py:225-287 | `BuildGraph`: every link points to an existing node of an earlier stage, so the graph is acyclic |
| ImageGeneration.ReadySpec | app/services/image_generation.py:163-167 | `Ready`: a history reply is ready exactly when it carries the job with every saved image named, and then lists those names in order |
| ImageGeneration.FirstReadySpec | app/services/image_generation.py:152-192 | `FirstReady`: the wait returns the files of the first ready poll, and finds none exactly when no poll within the budget is ready |
| ImageGeneration.FirstReadyBounded | app/services/image_generation.py:149-152 | polls after the budget do not affect the wait |
| ImageGeneration.WaitOutcomeSpec | app/services/image_generation.py:147-192 | `WaitOutcome`: the wait succeeds exactly when one of the 1200 polls is ready, then with the files of the first ready poll, all earlier polls not ready; otherwise it times out naming the prompt id |
| ImageGeneration.WaitForImages | app/services/image_generation.py:147-192 | the polling loop returns the files of the first ready poll among 1200, else times out |
| ImageGeneration.DownloadAllSpec | app/services/image_generation.py:194-219 | `DownloadAll`: downloading succeeds exactly when every file downloads completely, keeping the order; otherwise it reports the first incomplete file, every earlier file having downloaded |
| ImageGeneration.GenerationSpec | app/services/image_generation.py:221-311 | `Generation`: an unknown mode fails first; a success returns, in order, the downloads of the files of the first ready poll for the prompt id the submission returned; a timeout names that prompt id and no poll for it was ready |
| ImageGeneration.GenerationReplyErrors | app/services/image_generation.py:289-306 | for a known mode, a raised request is a communication error, a blank reply an empty-response error, a non-JSON reply a parse error, a reply without a prompt id a ComfyUI error, and a job that is never ready a timeout for its id |
| ImageGeneration.FirstFive | app/services/image_generation.py:99 | the error lists exactly the first min(5, n) of the n available models |
| ImageGeneration.ModelsVerdictSpec | app/services/image_generation.py:90-116 | `ModelsVerdict`: construction raises exactly when the base checkpoint is invalid, and then keeps the refiner; otherwise the refiner is kept exactly when it is valid |
| ImageGeneration.ImageGenerationService.constructor | app/services/image_generation.py:49-86 | the base and refiner chosen by selection over the available models |
| ImageGeneration.ImageGenerationService.ValidateModels | app/services/image_generation.py:90-116 | validation raises or keeps or drops the refiner exactly as the verdict says |
| ImageGeneration.ImageGenerationService.Create | app/services/image_generation.py:49-88 | construction succeeds exactly when the verdict on the selected models passes, and the new service holds the selected base and the kept refiner |
| ImageGeneration.ImageGenerationService.GenerateImage | app/services/image_generation.py:221-311 | generation returns exactly the specified result |
| ImageGeneration.ImageGenerationService.RefineLoop | app/services/image_generation.py:346-358 | no rounds raises; otherwise each completed round feeds the next prompt, success runs all rounds and returns the last round's images, and a failure happens in the last round reached; the language-model callbacks are total and never fail |
| ImageGeneration.ImageGenerationService.GenerateProductImage | app/services/image_generation.py:360-373 | one round on the styled prompt: with language-model callbacks that never fail, it succeeds exactly when that generation yields at least one image, and returns those images |
| ServiceManager.IterationsOfMultiple | service_manager.py:196-218 | a wait of `step * k` seconds in steps of `step` runs exactly k iterations |
| ServiceManager.StartupBudget | service_manager.py:196-293 | both backends get exactly 60 startup probes |
| ServiceManager.CheckServiceHealthSpec | service_manager.py:137-148 | `CheckServiceHealth`: healthy exactly when the probe answered with a status from 200 to 299 (so 200 and 299 are, 199 and 300 are not); a probe that raised is never healthy; a backend reported running answered healthy |
| ServiceManager.StartupOutcomeSpec | service_manager.py:198-218 | `StartupOutcome`: the wait reports healthy exactly when a probe answers before an exit is seen, reports the first exit otherwise, and times out exactly when nothing decided |
| ServiceManager.AwaitStartup | service_manager.py:196-221 | the startup loop returns exactly the specified outcome |
| ServiceManager.StartSpecFacts | service_manager.py:150-225 | `StartSpec`: never launches over a live process; launches exactly when the handle is not live and the path, directory and entry script exist; only a launch changes the handle; returns true exactly when already live or healthy within 60 probes; raises exactly when an existence check raises |
| ServiceManager.StartRefusalOrder | service_manager.py:156-167 | the refusals come in source order and each returns false leaving the handle unchanged |
| ServiceManager.StartTimeoutKeepsHandle | service_manager.py:220-221 | a launched server that never answers gives false but stays recorded |
| ServiceManager.StopSpecFacts | service_manager.py:302-386 | `StopSpec`: a stop does nothing exactly without a handle; a live process is terminated when it exits within 10 s (ComfyUI) or 15 s (WebUI), else killed |
| ServiceManager.ServicePassCases | service_manager.py:443-477 | `ServicePass`: the monitor acts only on a backend that is down while auto-start is on; it restarts exactly a live unresponsive process, freshly starts exactly a ComfyUI without handle, and never touches a dead handle or an absent WebUI |
| ServiceManager.HandleAfterActionFacts | service_manager.py:450-459 | a handle changes only through a restart or a fresh start that launched; a restart leaves a handle exactly when it launched |
| ServiceManager.PassSpecFacts | service_manager.py:439-480 | `PassSpec`: WebUI is skipped exactly when ComfyUI's start raised; without auto-start nothing happens |
| ServiceManager.StartAllResults | service_manager.py:388-402 | raises exactly when ComfyUI's start raises; otherwise the keys are exactly `comfyui` and `webui`, and `webui` is true exactly when its start returned true |
| ServiceManager.ResolveSettings | service_manager.py:76-108 | construction fails exactly when a path resolves to none (ComfyUI's first); each path is the argument when it is truthy, else the configured value, and is never empty; other settings use the argument whenever given |
| ServiceManager.EmptyPathArgumentIgnored | service_manager.py:76-93 | an empty path argument acts as absent, while a port argument of 0 still overrides |
| ServiceManager.ServiceManager.constructor | service_manager.py:90-101 | the settings are stored, and there are no processes and no monitor |
| ServiceManager.ServiceManager.Create | service_manager.py:30-112 | construction fails exactly as the resolved settings say, else yields a fresh idle manager with those settings |
| ServiceManager.ServiceManager.SetHandle | service_manager.py:185 | sets one backend's handle and nothing else |
| ServiceManager.ServiceManager.StartService | service_manager.py:150-300 | a start returns and records exactly what the specification says, touching only that backend's handle |
| ServiceManager.ServiceManager.StartComfyUI | service_manager.py:150-225 | `start_comfyui` follows the specification for ComfyUI |
| ServiceManager.ServiceManager.StartWebUI | service_manager.py:227-300 | `start_webui` follows the specification for WebUI |
| ServiceManager.ServiceManager.StopService | service_manager.py:302-386 | a stop reports the specified outcome and always clears the handle, touching nothing else |
| ServiceManager.ServiceManager.StopComfyUI | service_manager.py:302-343 | `stop_comfyui` clears the ComfyUI handle |
| ServiceManager.ServiceManager.StopWebUI | service_manager.py:345-386 | `stop_webui` clears the WebUI handle |
| ServiceManager.ServiceManager.StartAll | service_manager.py:388-402 | the results are as specified; WebUI's handle is untouched when ComfyUI's start raised |
| ServiceManager.ServiceManager.StopAll | service_manager.py:404-407 | both handles end up cleared |
| ServiceManager.ServiceManager.GetStatus | service_manager.py:409-434 | a backend is running exactly when its handle is live and its probe answers 2xx; the port and loopback URL are the configured port's |
| ServiceManager.ServiceManager.HealthCheckPass | service_manager.py:436-482 | one monitor pass takes exactly the specified actions and leaves the handles they imply |
| ServiceManager.ServiceManager.StartHealthCheck | service_manager.py:484-490 | sets the flag, and creates a thread only when the monitor was not running |
| ServiceManager.ServiceManager.StopHealthCheck | service_manager.py:492-497 | clears the flag and keeps the thread object |
| ServiceManager.ServiceManager.Enter | service_manager.py:499-503 | starts both backends and records their handles; raises exactly when ComfyUI's start raises, leaving the monitor as it was; otherwise returns the manager with the monitor running, on a new thread only when it was not running before |
| ServiceManager.ServiceManager.Exit | service_manager.py:505-508 | stops the monitor and clears both handles |
| ServiceManager.Registry.constructor | service_manager.py:512 | there is no manager yet |
| ServiceManager.Registry.GetServiceManager | service_manager.py:515-520 | the first successful call builds the manager from its arguments; every later call returns that same manager and ignores its arguments |

## Left out

I/O and external processes:

- File contents, logging, log-tail reading, `time.sleep` and `Thread.join` are not modelled. They change no state the model tracks.
- HTTP request details (URLs, timeouts, headers, JSON bodies) are not modelled. Each request is an oracle reply.
- The wording of messages is not modelled. Errors are datatypes carrying the values the messages show.
- The platform split between `terminate()` and `os.killpg` and the fallbacks to `kill()` are not modelled. A stop observes only whether the process is alive, whether signalling raises, and when it exits.
- The virtual-environment interpreter choice of `_setup_environment` is not modelled beyond the `TypeError` on a missing path. It only picks an executable name.
- The Ollama calls `_llama_call`, `_build_prompt`, `_evaluate_image` and `_improve_prompt` are function parameters, not models. They are calls into a language model. The 20 retries of `_evaluate_image` while the file grows are part of that oracle.
- ImageGeneration.ImageGenerationService.RefineLoop: the `evaluate` and `improve` callbacks are total functions, so they are assumed never to raise. In Python, an Ollama error or a failure to open the downloaded file in `_evaluate_image` or `_improve_prompt` (app/services/image_generation.py:313-344) makes the loop raise between rounds. The model's only failures are the generation errors, a round without an image to evaluate, and no rounds.
- ImageGeneration.ImageGenerationService.GenerateProductImage: `buildPrompt` and the evaluation callback are assumed never to raise. In Python, a failing `_build_prompt` (app/services/image_generation.py:129-136) raises before the first round, and a failing evaluation raises after it. The success condition holds only under that assumption.
- app/services/service_control.py, the web routes and the command-line entry point are not part of this model.

Monitor and concurrency:

- The `while self.running` loop of `_health_check_loop` is modelled as one pass (`HealthCheckPass`). The thread is not modelled, so there is no model of concurrency between the monitor and callers, and the code has no locks.
- ServiceManager.HealthCheckPass: the status query and the pass's own `poll()` see the same liveness value. This misses a process that dies between the two calls.
- ServiceManager.AwaitStartup: `poll()` of the new process is assumed not to raise. An exception there would make the start return false.
- The `health_check_interval is None` fallback in `__init__` is not modelled. It is dead code, because the value comes from an integer setting or a given argument.

Configuration:

- The import-fallback chain of `ServiceManager.__init__` (legacy `config` module, hard-coded defaults) is not modelled. The manager is built from the settings of app/core/config.py.
- `.env` loading is not modelled. The environment map is the state after loading.
- Config.AutoStartIff: `str.lower()` is modelled for ASCII letters only.
- Strings.ParseInt: `int()` is modelled for ASCII digits only. The model does not accept the surrounding whitespace, the digit-group underscores or the non-ASCII Unicode decimal digits (such as Arabic-Indic digits) that `int()` also accepts.
- `COMFYUI_URL` is not modelled as separate state in `ModelChecker`, and `DOWNLOAD_DIR` is not modelled as separate state in the service. Each is only used in requests.

Checkpoints:

- ModelChecker.SizeCentiMb: assumes sizes whose scaled quotient is exact in double precision (below 2^53 bytes). Python's `round` on a float rounds the binary value, not a decimal one.
- Path traversal in checkpoint names (`..`, `/`) is not modelled. A name is looked up as a single directory entry.
- Config.InstallPath: `Path.exists()` is a total predicate. An `OSError` it could raise (app/core/config.py:22,32,85,95) is not modelled. A path is joined as `root + "/" + dir`, which matches `str(PROJECT_ROOT / dir)` for every root except `/` (the model gives `//ComfyUI`, Python gives `/ComfyUI`).
- ModelChecker.AvailableModels: the directory listing and `stat` lookup are total oracles. An `OSError` from `exists()`, `is_file()` or `stat()` (app/services/model_checker.py:29,56,74,77) is not modelled.
- ModelChecker.GetModelInfo: `st_mtime` is a float in Python, but the model's modification time is an integer.
- ImageGeneration.IsBaseCandidate, ImageGeneration.IsRefinerCandidate: `str.lower()` in the candidate filters (app/services/image_generation.py:70,81) is modelled for ASCII letters only, by Strings.AsciiLower.
- ImageGeneration.DownloadAll: an exception from the `requests.get` of `_download_image` (app/services/image_generation.py:202) propagates in Python. The download oracle reports only a complete file or none; none is the incomplete-image error.
- ImageGeneration.Generation: a reply that is valid JSON but not an object is not modelled. For a number, the `"prompt_id" in res` test at app/services/image_generation.py:299 raises a `TypeError`. For a list or string that contains `"prompt_id"`, `res["prompt_id"]` at line 308 raises one. The reply type has only an object with or without a prompt id (`PostJson`).
- The `_download_image` retries while the file grows are not modelled. Each file's download is an oracle reporting the saved path when the file is complete (at least 1000 bytes).
