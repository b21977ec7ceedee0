/** The decision logic of app/services/image_generation.py: the generation modes, checkpoint
    auto-selection and validation, the prompt style suffix, the workflow graph sent to ComfyUI,
    polling for the finished images and the refinement loop. */
module ImageGeneration {
  import opened Wrappers
  import Strings
  import Lists
  import Config
  import ModelChecker

  // ---------------------------------------------------------------------------------------
  // MODES

  /** One entry of `MODES`; `cfgTenths` is the classifier-free guidance scale times ten. */
  datatype Mode = Mode(width: nat, height: nat, steps: nat, cfgTenths: nat, sampler: string, refinerSteps: nat, upscale: bool)

  const Sampler: string := "dpmpp_sde_karras"

  const Modes: map<string, Mode> := map[
    "fast" := Mode(832, 832, 28, 65, Sampler, 10, false),
    "balanced" := Mode(1024, 1024, 40, 75, Sampler, 15, false),
    "high_quality" := Mode(1024, 1024, 50, 80, Sampler, 20, true)]

  /** The generator knows exactly the modes `validate_config` accepts, only `high_quality`
      upscales, and every mode samples with the same sampler. */
  lemma ModesTable()
    ensures Modes.Keys == set m | m in Config.ValidModes
    ensures forall m :: m in Modes ==> (Modes[m].upscale <==> m == "high_quality")
    ensures forall m :: m in Modes ==> Modes[m].sampler == Sampler
  {
  }

  // ---------------------------------------------------------------------------------------
  // checkpoint auto-selection (ImageGenerationService.__init__)

  /** `"sdxl" in l and ("base" in l or "1.0" in l) and "refiner" not in l` for `l = m.lower()`. */
  predicate IsBaseCandidate(m: string)
  {
    var l := Strings.AsciiLower(m);
    Strings.Contains(l, "sdxl") && (Strings.Contains(l, "base") || Strings.Contains(l, "1.0")) &&
    !Strings.Contains(l, "refiner")
  }

  /** `"sdxl" in l and "refiner" in l` for `l = m.lower()`. */
  predicate IsRefinerCandidate(m: string)
  {
    var l := Strings.AsciiLower(m);
    Strings.Contains(l, "sdxl") && Strings.Contains(l, "refiner")
  }

  const DefaultBase: string := "sdxl_base_1.0.safetensors"
  const DefaultRefiner: string := "sdxl_refiner_1.0.safetensors"

  /** A non-empty explicit name is used as given; otherwise the first available name that is a
      candidate, or the fixed default when there is none. */
  function SelectModel(explicit: Option<string>, available: seq<string>, candidate: string -> bool, default: string): (r: string)
    ensures Config.Configured(explicit) ==> r == explicit.value
    ensures !Config.Configured(explicit) && (exists m :: m in available && candidate(m)) ==>
      exists k :: 0 <= k < |available| && available[k] == r && candidate(r) &&
        forall j :: 0 <= j < k ==> !candidate(available[j])
    ensures !Config.Configured(explicit) && (forall m :: m in available ==> !candidate(m)) ==> r == default
  {
    if Config.Configured(explicit) then explicit.value
    else
      var candidates := Lists.Filter(available, candidate);
      Lists.FilterMembers(available, candidate);
      Lists.FilterFirst(available, candidate);
      if candidates != [] then candidates[0] else default
  }

  /** The lower-cased default base name has no `i`, so it cannot contain "refiner". */
  lemma DefaultBaseIsNoRefiner()
    ensures !Strings.Contains(Strings.AsciiLower(DefaultBase), "refiner")
  {
    var l := Strings.AsciiLower(DefaultBase);
    forall k | 0 <= k < |l| ensures l[k] != 'i' {
      assert l[k] == Strings.LowerChar(DefaultBase[k]);
    }
    if Strings.Contains(l, "refiner") {
      Strings.ContainsChar(l, "refiner", 'i');
      assert false;
    }
  }

  /** The lower-cased default refiner name contains "refiner". */
  lemma DefaultRefinerIsRefiner()
    ensures Strings.Contains(Strings.AsciiLower(DefaultRefiner), "refiner")
  {
    var l := Strings.AsciiLower(DefaultRefiner);
    assert l[5..12] == "refiner" by {
      forall k | 0 <= k < 7 ensures l[5..12][k] == "refiner"[k] {
        assert l[5 + k] == Strings.LowerChar(DefaultRefiner[5 + k]);
        assert DefaultRefiner[5 + k] == "refiner"[k];
      }
    }
    assert Strings.OccursAt(l, "refiner", 5);
  }

  /** Chosen automatically, the base and the refiner checkpoint are never the same file. */
  lemma AutoSelectionDistinct(available: seq<string>)
    ensures SelectModel(None, available, IsBaseCandidate, DefaultBase) != SelectModel(None, available, IsRefinerCandidate, DefaultRefiner)
  {
    var b := SelectModel(None, available, IsBaseCandidate, DefaultBase);
    var r := SelectModel(None, available, IsRefinerCandidate, DefaultRefiner);
    var lr := Strings.AsciiLower(r);
    if r == DefaultRefiner {
      DefaultRefinerIsRefiner();
    }
    assert Strings.Contains(lr, "refiner");
    if b == DefaultBase {
      DefaultBaseIsNoRefiner();
    } else {
      assert IsBaseCandidate(b);
    }
    assert !Strings.Contains(Strings.AsciiLower(b), "refiner");
  }

  // ---------------------------------------------------------------------------------------
  // _apply_hyperwise_style

  const Enhance: string := "8k uhd, ultra-sharp detail, crisp edges, micro-texture, premium cinematic lighting, 100mm macro lens, soft rim light, studio-grade commercial photography, realistic reflections"

  /** What the style appends: `", "` and the fixed enhancement phrase. */
  const StyleSuffix: string := ", " + Enhance

  /** `f"{prompt_text}, {enhance}"`: the prompt is kept as a prefix and the suffix follows. */
  function ApplyStyle(promptText: string): (r: string)
    ensures |r| == |promptText| + |StyleSuffix|
    ensures r[..|promptText|] == promptText
    ensures Strings.EndsWith(r, StyleSuffix)
  {
    promptText + StyleSuffix
  }

  /** The inverse of the style: the prompt a styled text came from. */
  function StripStyle(s: string): Option<string>
  {
    if Strings.EndsWith(s, StyleSuffix) then Some(s[..|s| - |StyleSuffix|]) else None
  }

  /** Stripping the style recovers the prompt, so no two prompts look alike once styled. */
  lemma StripApplyStyle(promptText: string)
    ensures StripStyle(ApplyStyle(promptText)) == Some(promptText)
  {
  }

  lemma ApplyStyleInjective(a: string, b: string)
    requires ApplyStyle(a) == ApplyStyle(b)
    ensures a == b
  {
    StripApplyStyle(a);
    StripApplyStyle(b);
  }

  /** Only styled texts can be stripped, and stripping then restyling gives the text back. */
  lemma ApplyStripStyle(s: string)
    ensures StripStyle(s).Some? ==> ApplyStyle(StripStyle(s).value) == s
  {
    if StripStyle(s).Some? {
      assert s == s[..|s| - |StyleSuffix|] + s[|s| - |StyleSuffix|..];
    }
  }

  // ---------------------------------------------------------------------------------------
  // the workflow graph of _generate_image

  /** An input of a graph node: a number, a text, a decimal in tenths, or `[node, output]`. */
  datatype Value =
    | IntValue(i: int)
    | TextValue(text: string)
    | TenthsValue(tenths: int)
    | LinkValue(node: string, output: nat)

  datatype Node = Node(classType: string, inputs: map<string, Value>)

  type Graph = map<string, Node>

  const NegativeText: string := "blurry, low-resolution, messy, smudged"
  const DefaultPrefix: string := "hyperwise"
  const Seed: int := 1234

  /** The seven nodes present in every graph. */
  const CoreNodes: set<string> := {"base_model", "latent", "positive", "negative", "sampler_base", "decode", "save"}

  /** The dictionary literal of `_generate_image`, with `None` for a disabled upscale. */
  function RawGraph(mode: Mode, baseModel: string, prompt: string, prefix: string): map<string, Option<Node>>
  {
    map[
      "base_model" := Some(Node("CheckpointLoaderSimple", map["ckpt_name" := TextValue(baseModel)])),
      "latent" := Some(Node("EmptyLatentImage", map[
        "width" := IntValue(mode.width), "height" := IntValue(mode.height), "batch_size" := IntValue(1)])),
      "positive" := Some(Node("CLIPTextEncode", map["text" := TextValue(prompt), "clip" := LinkValue("base_model", 1)])),
      "negative" := Some(Node("CLIPTextEncode", map["text" := TextValue(NegativeText), "clip" := LinkValue("base_model", 1)])),
      "sampler_base" := Some(Node("KSampler", map[
        "model" := LinkValue("base_model", 0),
        "seed" := IntValue(Seed),
        "steps" := IntValue(mode.steps),
        "cfg" := TenthsValue(mode.cfgTenths),
        "scheduler" := TextValue("karras"),
        "sampler_name" := TextValue(mode.sampler),
        "denoise" := TenthsValue(10),
        "latent_image" := LinkValue("latent", 0),
        "positive" := LinkValue("positive", 0),
        "negative" := LinkValue("negative", 0)])),
      "decode" := Some(Node("VAEDecode", map["samples" := LinkValue("sampler_base", 0), "vae" := LinkValue("base_model", 2)])),
      "upscale" := if mode.upscale then Some(Node("ESRGANUpscale", map["image" := LinkValue("decode", 0), "scale" := IntValue(2)])) else None,
      "save" := Some(Node("SaveImage", map[
        "images" := LinkValue(if mode.upscale then "upscale" else "decode", 0),
        "filename_prefix" := TextValue(prefix)]))]
  }

  /** `{k: v for k, v in graph.items() if v is not None}`. */
  function DropNone(raw: map<string, Option<Node>>): (g: Graph)
    ensures g.Keys == set k | k in raw && raw[k].Some?
    ensures forall k :: k in g ==> raw[k] == Some(g[k])
  {
    map k | k in raw && raw[k].Some? :: raw[k].value
  }

  function BuildGraph(mode: Mode, baseModel: string, prompt: string, prefix: string): Graph
  {
    DropNone(RawGraph(mode, baseModel, prompt, prefix))
  }

  /** The stage of a node in the pipeline; every link points to an earlier stage. */
  function Stage(node: string): nat
  {
    if node == "base_model" || node == "latent" then 0
    else if node == "positive" || node == "negative" then 1
    else if node == "sampler_base" then 2
    else if node == "decode" then 3
    else if node == "upscale" then 4
    else 5
  }

  /** Every link of the graph names a node of the graph at an earlier stage, so the graph is
      closed and acyclic. */
  predicate LinksResolve(g: Graph)
  {
    forall n, k :: n in g && k in g[n].inputs && g[n].inputs[k].LinkValue? ==>
      g[n].inputs[k].node in g && Stage(g[n].inputs[k].node) < Stage(n)
  }

  /** The graph holds the seven core nodes and `upscale` exactly when the mode upscales; the
      saved images come from `upscale` when upscaling and from `decode` otherwise. */
  lemma BuildGraphNodes(mode: Mode, baseModel: string, prompt: string, prefix: string)
    ensures var g := BuildGraph(mode, baseModel, prompt, prefix);
      g.Keys == CoreNodes + (if mode.upscale then {"upscale"} else {}) &&
      ("upscale" in g <==> mode.upscale) &&
      "images" in g["save"].inputs &&
      g["save"].inputs["images"] == LinkValue(if mode.upscale then "upscale" else "decode", 0)
  {
    var raw := RawGraph(mode, baseModel, prompt, prefix);
    var g := BuildGraph(mode, baseModel, prompt, prefix);
    assert g.Keys == set k | k in raw && raw[k].Some?;
    assert "save" in g && g["save"] == raw["save"].value;
  }

  /** The loader uses the base checkpoint, the latent takes the mode's size, the sampler its
      step count and sampler, and the prompts are the given one and the fixed negative one. */
  lemma BuildGraphInputs(mode: Mode, baseModel: string, prompt: string, prefix: string)
    ensures var g := BuildGraph(mode, baseModel, prompt, prefix);
      "base_model" in g && "latent" in g && "sampler_base" in g && "positive" in g && "negative" in g && "save" in g &&
      g["base_model"].inputs == map["ckpt_name" := TextValue(baseModel)] &&
      "width" in g["latent"].inputs && g["latent"].inputs["width"] == IntValue(mode.width) &&
      "height" in g["latent"].inputs && g["latent"].inputs["height"] == IntValue(mode.height) &&
      "steps" in g["sampler_base"].inputs && g["sampler_base"].inputs["steps"] == IntValue(mode.steps) &&
      "sampler_name" in g["sampler_base"].inputs && g["sampler_base"].inputs["sampler_name"] == TextValue(mode.sampler) &&
      "text" in g["positive"].inputs && g["positive"].inputs["text"] == TextValue(prompt) &&
      "text" in g["negative"].inputs && g["negative"].inputs["text"] == TextValue(NegativeText) &&
      "filename_prefix" in g["save"].inputs && g["save"].inputs["filename_prefix"] == TextValue(prefix)
  {
    var raw := RawGraph(mode, baseModel, prompt, prefix);
    var g := BuildGraph(mode, baseModel, prompt, prefix);
    assert g["base_model"] == raw["base_model"].value;
    assert g["latent"] == raw["latent"].value;
    assert g["sampler_base"] == raw["sampler_base"].value;
    assert g["positive"] == raw["positive"].value;
    assert g["negative"] == raw["negative"].value;
    assert g["save"] == raw["save"].value;
  }

  /** No link of the built graph dangles: with or without the upscale node, every reference
      names a node that is present, at an earlier stage. */
  lemma BuildGraphLinks(mode: Mode, baseModel: string, prompt: string, prefix: string)
    ensures LinksResolve(BuildGraph(mode, baseModel, prompt, prefix))
  {
    var raw := RawGraph(mode, baseModel, prompt, prefix);
    var g := BuildGraph(mode, baseModel, prompt, prefix);
    BuildGraphNodes(mode, baseModel, prompt, prefix);
    forall n, k | n in g && k in g[n].inputs && g[n].inputs[k].LinkValue?
      ensures g[n].inputs[k].node in g && Stage(g[n].inputs[k].node) < Stage(n)
    {
      assert g[n] == raw[n].value;
      if n == "base_model" {
      } else if n == "latent" {
      } else if n == "positive" {
      } else if n == "negative" {
      } else if n == "sampler_base" {
      } else if n == "decode" {
      } else if n == "upscale" {
      } else {
      }
    }
  }

  // ---------------------------------------------------------------------------------------
  // talking to ComfyUI

  /** The reply to `POST /prompt`: the request failed (connection, timeout or HTTP error
      status), the body was blank, it was not JSON, or it was JSON with or without a
      `prompt_id`. */
  datatype PostReply =
    | PostRaised
    | PostBlank
    | PostNotJson
    | PostJson(promptId: Option<string>)

  /** One finished job in the history: `outputs.save.images` when present, each image with its
      `filename` when present. */
  datatype Job = Job(savedImages: Option<seq<Option<string>>>)

  /** The reply to one `GET /history/<id>`: anything other than a JSON object (a failed request,
      an error status, a blank or malformed body) is `Unanswered`. */
  datatype Poll = Unanswered | History(jobs: map<string, Job>)

  /** The outside world of one `_generate_image` call: the reply to the submitted graph, the
      reply to each poll, and the outcome of each download (`None` when the file stays
      incomplete). */
  datatype GenerationWorld = GenerationWorld(post: Graph -> PostReply, polls: nat -> Poll, download: string -> Option<string>)

  datatype GenerateError =
    | UnknownMode(mode: string)
    | CommunicationError
    | EmptyResponse
    | ParseError
    | ComfyError
    | Timeout(promptId: string)
    | ImageIncomplete(filename: string)

  predicate AllNamed(images: seq<Option<string>>)
  {
    forall i :: 0 <= i < |images| ==> images[i].Some?
  }

  /** The poll shows the job with its saved images, each with a file name. */
  predicate JobFinished(p: Poll, promptId: string)
  {
    p.History? && promptId in p.jobs && p.jobs[promptId].savedImages.Some? && AllNamed(p.jobs[promptId].savedImages.value)
  }

  /** The file names of the job's saved images, when the poll shows the job finished with all
      of them named; otherwise the lookup raises and the poll counts as not ready. */
  function Ready(p: Poll, promptId: string): Option<seq<string>>
  {
    if JobFinished(p, promptId)
    then
      var images := p.jobs[promptId].savedImages.value;
      Some(seq(|images|, i requires 0 <= i < |images| => images[i].value))
    else None
  }

  /** A poll is ready exactly when the job is finished, and then gives the saved images' file
      names in order. */
  lemma ReadySpec(p: Poll, promptId: string)
    ensures Ready(p, promptId).Some? <==> JobFinished(p, promptId)
    ensures Ready(p, promptId).Some? ==> (|Ready(p, promptId).value| == |p.jobs[promptId].savedImages.value| &&
      forall i :: 0 <= i < |Ready(p, promptId).value| ==> p.jobs[promptId].savedImages.value[i] == Some(Ready(p, promptId).value[i]))
  {
  }

  /** 300 seconds in polls of 0.25 seconds. */
  const MaxPolls: nat := 1200

  /** The first ready poll among polls `from .. n - 1`. */
  function FirstReady(polls: nat -> Poll, promptId: string, from: nat, n: nat): Option<seq<string>>
    decreases n - from
  {
    if from >= n then None
    else if Ready(polls(from), promptId).Some? then Ready(polls(from), promptId)
    else FirstReady(polls, promptId, from + 1, n)
  }

  /** The search finds the files of the earliest ready poll, and nothing when no poll in range
      is ready. */
  lemma {:induction false} FirstReadySpec(polls: nat -> Poll, promptId: string, from: nat, n: nat)
    ensures FirstReady(polls, promptId, from, n).Some? ==>
      exists k :: from <= k < n && FirstReady(polls, promptId, from, n) == Ready(polls(k), promptId) &&
        forall j :: from <= j < k ==> Ready(polls(j), promptId).None?
    ensures FirstReady(polls, promptId, from, n).None? <==> forall j :: from <= j < n ==> Ready(polls(j), promptId).None?
    decreases n - from
  {
    if from < n && Ready(polls(from), promptId).None? {
      FirstReadySpec(polls, promptId, from + 1, n);
    }
  }

  /** Only the polls in range matter: the loop never polls more than `n` times. */
  lemma {:induction false} FirstReadyBounded(p1: nat -> Poll, p2: nat -> Poll, promptId: string, from: nat, n: nat)
    requires forall j :: from <= j < n ==> p1(j) == p2(j)
    ensures FirstReady(p1, promptId, from, n) == FirstReady(p2, promptId, from, n)
    decreases n - from
  {
    if from < n {
      FirstReadyBounded(p1, p2, promptId, from + 1, n);
    }
  }

  function WaitOutcome(polls: nat -> Poll, promptId: string): Result<seq<string>, GenerateError>
  {
    match FirstReady(polls, promptId, 0, MaxPolls)
    case Some(files) => Success(files)
    case None => Failure(Timeout(promptId))
  }

  /** The wait succeeds exactly when one of the 1200 polls is ready, with the files of the
      earliest ready poll; otherwise it times out naming the prompt id. */
  lemma WaitOutcomeSpec(polls: nat -> Poll, promptId: string)
    ensures WaitOutcome(polls, promptId).Success? <==> exists k :: 0 <= k < MaxPolls && Ready(polls(k), promptId).Some?
    ensures WaitOutcome(polls, promptId).Success? ==>
      exists k :: 0 <= k < MaxPolls && Ready(polls(k), promptId) == Some(WaitOutcome(polls, promptId).value) &&
        forall j :: 0 <= j < k ==> Ready(polls(j), promptId).None?
    ensures WaitOutcome(polls, promptId).Failure? ==> WaitOutcome(polls, promptId).error == Timeout(promptId)
  {
    FirstReadySpec(polls, promptId, 0, MaxPolls);
  }

  /** `_wait_for_images(prompt_id)`: polls every quarter second until the job is ready, for at
      most 300 seconds, after which it raises a timeout. */
  method WaitForImages(promptId: string, polls: nat -> Poll) returns (r: Result<seq<string>, GenerateError>)
    ensures r == WaitOutcome(polls, promptId)
  {
    var waitTicks: nat := 0;
    while waitTicks < MaxPolls
      invariant waitTicks <= MaxPolls
      invariant FirstReady(polls, promptId, waitTicks, MaxPolls) == FirstReady(polls, promptId, 0, MaxPolls)
      decreases MaxPolls - waitTicks
    {
      var ready := Ready(polls(waitTicks), promptId);
      if ready.Some? {
        return Success(ready.value);
      }
      waitTicks := waitTicks + 1;
    }
    r := Failure(Timeout(promptId));
  }

  /** `[self._download_image(f) for f in files]`: the first incomplete download raises. */
  function DownloadAll(files: seq<string>, download: string -> Option<string>): Result<seq<string>, GenerateError>
  {
    if files == [] then Success([])
    else match download(files[0])
      case None => Failure(ImageIncomplete(files[0]))
      case Some(path) =>
        var rest :- DownloadAll(files[1..], download);
        Success([path] + rest)
  }

  /** The downloads succeed exactly when every file downloads, giving one path per file in
      order; otherwise the error names the first file that stayed incomplete. */
  lemma {:induction false} DownloadAllSpec(files: seq<string>, download: string -> Option<string>)
    ensures DownloadAll(files, download).Success? <==> forall i :: 0 <= i < |files| ==> download(files[i]).Some?
    ensures DownloadAll(files, download).Success? ==> (|DownloadAll(files, download).value| == |files| &&
      forall i :: 0 <= i < |files| ==> DownloadAll(files, download).value[i] == download(files[i]).value)
    ensures DownloadAll(files, download).Failure? ==>
      exists i :: 0 <= i < |files| && download(files[i]).None? && (forall j :: 0 <= j < i ==> download(files[j]).Some?) &&
        DownloadAll(files, download).error == ImageIncomplete(files[i])
  {
    if files != [] && download(files[0]).Some? {
      DownloadAllSpec(files[1..], download);
      assert forall i :: 1 <= i < |files| ==> files[i] == files[1..][i - 1];
      if DownloadAll(files, download).Failure? {
        var i :| 0 <= i < |files[1..]| && download(files[1..][i]).None? && (forall j :: 0 <= j < i ==> download(files[1..][j]).Some?) &&
          DownloadAll(files[1..], download).error == ImageIncomplete(files[1..][i]);
        assert files[i + 1] == files[1..][i];
        forall j | 0 <= j < i + 1 ensures download(files[j]).Some? {
          if j > 0 {
            assert files[j] == files[1..][j - 1];
          }
        }
      }
    }
  }

  /** What `_generate_image(prompt, mode, prefix)` produces with the given base checkpoint. */
  function Generation(baseModel: string, prompt: string, mode: string, prefix: string, w: GenerationWorld): Result<seq<string>, GenerateError>
  {
    if mode !in Modes then Failure(UnknownMode(mode))
    else
      match w.post(BuildGraph(Modes[mode], baseModel, prompt, prefix))
      case PostRaised => Failure(CommunicationError)
      case PostBlank => Failure(EmptyResponse)
      case PostNotJson => Failure(ParseError)
      case PostJson(None) => Failure(ComfyError)
      case PostJson(Some(promptId)) =>
        var files :- WaitOutcome(w.polls, promptId);
        DownloadAll(files, w.download)
  }

  /** A generation succeeds only for a known mode whose graph ComfyUI accepted with a job id,
      and then returns one downloaded path per file of the earliest ready poll. */
  lemma GenerationSpec(baseModel: string, prompt: string, mode: string, prefix: string, w: GenerationWorld)
    ensures mode !in Modes ==> Generation(baseModel, prompt, mode, prefix, w) == Failure(UnknownMode(mode))
    ensures Generation(baseModel, prompt, mode, prefix, w).Success? ==>
      mode in Modes &&
      var reply := w.post(BuildGraph(Modes[mode], baseModel, prompt, prefix));
      reply.PostJson? && reply.promptId.Some? &&
      var files := FirstReady(w.polls, reply.promptId.value, 0, MaxPolls);
      files.Some? && |Generation(baseModel, prompt, mode, prefix, w).value| == |files.value| &&
      forall i :: 0 <= i < |files.value| ==>
        w.download(files.value[i]).Some? && Generation(baseModel, prompt, mode, prefix, w).value[i] == w.download(files.value[i]).value
    ensures Generation(baseModel, prompt, mode, prefix, w).Failure? && Generation(baseModel, prompt, mode, prefix, w).error.Timeout? ==>
      var promptId := Generation(baseModel, prompt, mode, prefix, w).error.promptId;
      mode in Modes && w.post(BuildGraph(Modes[mode], baseModel, prompt, prefix)) == PostJson(Some(promptId)) &&
      forall j :: 0 <= j < MaxPolls ==> Ready(w.polls(j), promptId).None?
  {
    if mode in Modes {
      var reply := w.post(BuildGraph(Modes[mode], baseModel, prompt, prefix));
      if reply.PostJson? && reply.promptId.Some? {
        var promptId := reply.promptId.value;
        FirstReadySpec(w.polls, promptId, 0, MaxPolls);
        var files := FirstReady(w.polls, promptId, 0, MaxPolls);
        if files.Some? {
          DownloadAllSpec(files.value, w.download);
        }
      }
    }
  }

  /** How the reply to the submission maps to an error: a request exception, a blank body, a
      body that is not JSON, and JSON without `prompt_id`. */
  lemma GenerationReplyErrors(baseModel: string, prompt: string, mode: string, prefix: string, w: GenerationWorld)
    requires mode in Modes
    ensures var reply := w.post(BuildGraph(Modes[mode], baseModel, prompt, prefix));
      var r := Generation(baseModel, prompt, mode, prefix, w);
      (reply.PostRaised? ==> r == Failure(CommunicationError)) &&
      (reply.PostBlank? ==> r == Failure(EmptyResponse)) &&
      (reply.PostNotJson? ==> r == Failure(ParseError)) &&
      (reply == PostJson(None) ==> r == Failure(ComfyError)) &&
      (reply.PostJson? && reply.promptId.Some? && WaitOutcome(w.polls, reply.promptId.value).Failure? ==>
        r == Failure(Timeout(reply.promptId.value)))
  {
  }

  // ---------------------------------------------------------------------------------------
  // _validate_models

  /** Why constructing the service raised. */
  datatype InitError =
    | BaseNotFound(name: string, available: seq<string>)
    | BaseInvalid(name: string, error: Option<ModelChecker.ModelError>)
    | RefinerNameMissing

  /** `available[:5]`. */
  function FirstFive(available: seq<string>): (r: seq<string>)
    ensures |r| == (if |available| < 5 then |available| else 5)
    ensures r <= available
  {
    if |available| <= 5 then available else available[..5]
  }

  /** What `_validate_models` decides, and the refiner it leaves set. Without a refiner name
      and with an installation path, `checkpoints_dir / None` raises `TypeError`. */
  function ModelsVerdict(c: ModelChecker.Checker, baseModel: string, refinerModel: Option<string>): (Outcome<InitError>, Option<string>)
  {
    if refinerModel.None? && c.comfyPath.Some? then (Fail(RefinerNameMissing), refinerModel)
    else
      var base := ModelChecker.ModelValidation(c, baseModel);
      var refinerUsable := refinerModel.Some? && ModelChecker.ModelValidation(c, refinerModel.value).valid;
      if !base.fileExists then (Fail(BaseNotFound(baseModel, FirstFive(ModelChecker.AvailableModels(c)))), refinerModel)
      else if !base.valid then (Fail(BaseInvalid(baseModel, base.error)), refinerModel)
      else if !refinerUsable then (Pass, None)
      else (Pass, refinerModel)
  }

  /** With a refiner name (the only way the constructor calls it): validation raises exactly when
      the base checkpoint is missing or too small, and then changes nothing; otherwise the
      refiner is kept exactly when it is usable and dropped otherwise, never raising. */
  lemma ModelsVerdictSpec(c: ModelChecker.Checker, baseModel: string, refinerModel: string)
    ensures var (o, r) := ModelsVerdict(c, baseModel, Some(refinerModel));
      (o.Fail? <==> !ModelChecker.ModelValidation(c, baseModel).valid) &&
      (o.Fail? ==> r == Some(refinerModel)) &&
      (o.Fail? && !ModelChecker.CheckModelExists(c, baseModel) ==> o.error.BaseNotFound?) &&
      (o.Pass? ==> (r == Some(refinerModel) <==> ModelChecker.ModelValidation(c, refinerModel).valid)) &&
      (o.Pass? ==> (r.None? <==> !ModelChecker.ModelValidation(c, refinerModel).valid))
  {
  }

  /** Possible failures of one refinement run. */
  datatype RefineError =
    | NoRounds
    | GenerationFailed(round: nat, error: GenerateError)
    | NoImageToEvaluate(round: nat)

  /** A round lets the loop go on: its generation succeeded and, with vision feedback, produced
      an image to evaluate. */
  predicate RoundCompleted(images: Result<seq<string>, GenerateError>, useVision: bool)
  {
    images.Success? && (useVision ==> images.value != [])
  }

  /** The prompt of the round after round `i`: rewritten from the feedback on the first image
      with vision feedback, unchanged otherwise. */
  function NextPrompt(i: nat, current: string, images: Result<seq<string>, GenerateError>, useVision: bool,
                      evaluate: (nat, string) -> string, improve: (nat, string, string) -> string): string
    requires RoundCompleted(images, useVision)
  {
    if useVision then improve(i, current, evaluate(i, images.value[0])) else current
  }

  /** The images of one refinement round. */
  function RoundImages(baseModel: string, prompt: string, mode: string, w: GenerationWorld): Result<seq<string>, GenerateError>
  {
    Generation(baseModel, prompt, mode, DefaultPrefix, w)
  }

  /** Every round but the last of `prompts` completed and produced the prompt of the next. */
  predicate Chained(baseModel: string, mode: string, prompts: seq<string>, useVision: bool, worlds: nat -> GenerationWorld,
                    evaluate: (nat, string) -> string, improve: (nat, string, string) -> string)
  {
    forall j :: 0 <= j < |prompts| - 1 ==>
      RoundCompleted(RoundImages(baseModel, prompts[j], mode, worlds(j)), useVision) &&
      prompts[j + 1] == NextPrompt(j, prompts[j], RoundImages(baseModel, prompts[j], mode, worlds(j)), useVision, evaluate, improve)
  }

  /** An `ImageGenerationService`: the checker it inspects checkpoints with, the base checkpoint
      and the refiner checkpoint, which validation may drop. */
  class ImageGenerationService {
    const checker: ModelChecker.Checker
    const baseModel: string
    var refinerModel: Option<string>

    /** The model selection of `__init__`, before `_validate_models` runs. */
    constructor (checker: ModelChecker.Checker, baseArg: Option<string>, refinerArg: Option<string>)
      ensures this.checker == checker
      ensures baseModel == SelectModel(baseArg, ModelChecker.AvailableModels(checker), IsBaseCandidate, DefaultBase)
      ensures refinerModel == Some(SelectModel(refinerArg, ModelChecker.AvailableModels(checker), IsRefinerCandidate, DefaultRefiner))
    {
      this.checker := checker;
      var available := ModelChecker.GetAvailableModels(checker);
      baseModel := SelectModel(baseArg, available, IsBaseCandidate, DefaultBase);
      var availableAgain := ModelChecker.GetAvailableModels(checker);
      refinerModel := Some(SelectModel(refinerArg, availableAgain, IsRefinerCandidate, DefaultRefiner));
    }

    /** `_validate_models()`: both files are validated first, then the base decides whether it
        raises and the refiner whether it is dropped. */
    method ValidateModels() returns (o: Outcome<InitError>)
      modifies this
      ensures (o, refinerModel) == ModelsVerdict(checker, baseModel, old(refinerModel))
    {
      if refinerModel.None? && checker.comfyPath.Some? {
        return Fail(RefinerNameMissing);
      }
      var baseResult := ModelChecker.ValidateModelFile(checker, baseModel);
      var refinerResult := ModelChecker.FileCheck(false, false, None, None);
      if refinerModel.Some? {
        refinerResult := ModelChecker.ValidateModelFile(checker, refinerModel.value);
      }
      if !baseResult.fileExists {
        var available := ModelChecker.GetAvailableModels(checker);
        return Fail(BaseNotFound(baseModel, FirstFive(available)));
      }
      if !baseResult.valid {
        return Fail(BaseInvalid(baseModel, baseResult.error));
      }
      if !refinerResult.fileExists {
        refinerModel := None;
      } else if !refinerResult.valid {
        refinerModel := None;
      }
      o := Pass;
    }

    /** `ImageGenerationService(base_model, refiner_model)`: selection, then validation, whose
        failure makes construction raise. */
    static method Create(checker: ModelChecker.Checker, baseArg: Option<string>, refinerArg: Option<string>)
      returns (r: Result<ImageGenerationService, InitError>)
      ensures r.Success? ==> fresh(r.value)
      ensures var base := SelectModel(baseArg, ModelChecker.AvailableModels(checker), IsBaseCandidate, DefaultBase);
        var refiner := SelectModel(refinerArg, ModelChecker.AvailableModels(checker), IsRefinerCandidate, DefaultRefiner);
        var (o, kept) := ModelsVerdict(checker, base, Some(refiner));
        (r.Success? <==> o.Pass?) &&
        (r.Failure? ==> r.error == o.error) &&
        (r.Success? ==> r.value.checker == checker && r.value.baseModel == base && r.value.refinerModel == kept)
    {
      var service := new ImageGenerationService(checker, baseArg, refinerArg);
      var o := service.ValidateModels();
      if o.Fail? {
        return Failure(o.error);
      }
      r := Success(service);
    }

    /** `_generate_image(prompt, mode, prefix)`: look up the mode, build and submit the graph,
        wait for the job and download its images. */
    method GenerateImage(prompt: string, mode: string, prefix: string, w: GenerationWorld) returns (r: Result<seq<string>, GenerateError>)
      ensures r == Generation(baseModel, prompt, mode, prefix, w)
    {
      if mode !in Modes {
        return Failure(UnknownMode(mode));
      }
      var graph := BuildGraph(Modes[mode], baseModel, prompt, prefix);
      var reply := w.post(graph);
      if reply.PostRaised? {
        return Failure(CommunicationError);
      } else if reply.PostBlank? {
        return Failure(EmptyResponse);
      } else if reply.PostNotJson? {
        return Failure(ParseError);
      } else if reply.promptId.None? {
        return Failure(ComfyError);
      }
      var files := WaitForImages(reply.promptId.value, w.polls);
      if files.Failure? {
        return Failure(files.error);
      }
      r := DownloadAll(files.value, w.download);
    }

    /** `_refine_loop(prompt, mode, rounds, use_vision)`: `rounds` generations, the prompt
        rewritten after each from the feedback on its first image when `use_vision` holds.
        `prompts[i]` is the prompt of round `i`; round `i` runs in world `worlds(i)`, and
        `evaluate`/`improve` stand for the vision feedback and the prompt rewrite. With no
        round at all, `images` is never bound and the return raises. */
    method RefineLoop(prompt: string, mode: string, rounds: int, useVision: bool, worlds: nat -> GenerationWorld,
                      evaluate: (nat, string) -> string, improve: (nat, string, string) -> string)
      returns (r: Result<seq<string>, RefineError>, prompts: seq<string>)
      ensures rounds <= 0 ==> r == Failure(NoRounds) && prompts == []
      ensures rounds > 0 ==> 1 <= |prompts| <= rounds && prompts[0] == prompt
      ensures Chained(baseModel, mode, prompts, useVision, worlds, evaluate, improve)
      ensures r.Success? ==> (|prompts| == rounds &&
        RoundCompleted(RoundImages(baseModel, prompts[rounds - 1], mode, worlds(rounds - 1)), useVision) &&
        r.value == RoundImages(baseModel, prompts[rounds - 1], mode, worlds(rounds - 1)).value)
      ensures r.Failure? && rounds > 0 ==>
        var last := |prompts| - 1;
        var images := RoundImages(baseModel, prompts[last], mode, worlds(last));
        !RoundCompleted(images, useVision) &&
        r.error == (if images.Failure? then GenerationFailed(last, images.error) else NoImageToEvaluate(last))
    {
      var current := prompt;
      var images: Option<seq<string>> := None;
      prompts := [];
      if rounds <= 0 {
        return Failure(NoRounds), prompts;
      }
      var i: nat := 0;
      while i < rounds
        invariant i <= rounds
        invariant |prompts| == i
        invariant i == 0 ==> current == prompt && images.None?
        invariant i > 0 ==> prompts[0] == prompt
        invariant Chained(baseModel, mode, prompts, useVision, worlds, evaluate, improve)
        invariant i > 0 ==>
          RoundCompleted(RoundImages(baseModel, prompts[i - 1], mode, worlds(i - 1)), useVision) &&
          images == Some(RoundImages(baseModel, prompts[i - 1], mode, worlds(i - 1)).value) &&
          current == NextPrompt(i - 1, prompts[i - 1], RoundImages(baseModel, prompts[i - 1], mode, worlds(i - 1)), useVision, evaluate, improve)
      {
        ghost var before := prompts;
        prompts := prompts + [current];
        assert Chained(baseModel, mode, prompts, useVision, worlds, evaluate, improve) by {
          forall j | 0 <= j < |prompts| - 1
            ensures RoundCompleted(RoundImages(baseModel, prompts[j], mode, worlds(j)), useVision) &&
              prompts[j + 1] == NextPrompt(j, prompts[j], RoundImages(baseModel, prompts[j], mode, worlds(j)), useVision, evaluate, improve)
          {
            assert prompts[j] == before[j];
            if j < |before| - 1 {
              assert prompts[j + 1] == before[j + 1];
            }
          }
        }
        var generated := GenerateImage(current, mode, DefaultPrefix, worlds(i));
        assert generated == RoundImages(baseModel, prompts[i], mode, worlds(i));
        if generated.Failure? {
          return Failure(GenerationFailed(i, generated.error)), prompts;
        }
        images := Some(generated.value);
        if useVision {
          if generated.value == [] {
            return Failure(NoImageToEvaluate(i)), prompts;
          }
          var feedback := evaluate(i, generated.value[0]);
          current := improve(i, current, feedback);
        }
        i := i + 1;
      }
      r := Success(images.value);
    }

    /** `generate_product_image(user_text, mode)`: the language model's prompt (`buildPrompt`),
        styled, refined for one round with vision feedback. The images are those of that single
        generation; an empty result still fails, since the feedback step needs a first image. */
    method GenerateProductImage(userText: string, mode: string, buildPrompt: string -> string, worlds: nat -> GenerationWorld,
                                evaluate: (nat, string) -> string, improve: (nat, string, string) -> string)
      returns (r: Result<seq<string>, RefineError>)
      ensures var images := RoundImages(baseModel, ApplyStyle(buildPrompt(userText)), mode, worlds(0));
        (r.Success? <==> images.Success? && images.value != []) &&
        (r.Success? ==> r.value == images.value) &&
        (r.Failure? ==> r.error == (if images.Failure? then GenerationFailed(0, images.error) else NoImageToEvaluate(0)))
    {
      var base := buildPrompt(userText);
      var styled := ApplyStyle(base);
      var prompts;
      r, prompts := RefineLoop(styled, mode, 1, true, worlds, evaluate, improve);
    }
  }
}
