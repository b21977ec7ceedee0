/** The checkpoint inspection of app/services/model_checker.py: listing the checkpoint files of
    the ComfyUI installation, looking one up, and deciding whether it is usable. */
module ModelChecker {
  import opened Wrappers
  import Strings
  import Lists
  import Config

  /** What `stat()` and `is_file()` report for one entry of `models/checkpoints`. */
  datatype Entry = Entry(isFile: bool, size: nat, modified: int)

  /** The `models/checkpoints` directory: whether it exists, the names its glob enumerates (in
      enumeration order) and the entries a lookup by name finds. */
  datatype CheckpointDir = CheckpointDir(present: bool, listing: seq<string>, entries: map<string, Entry>)

  /** A `ModelChecker`: the ComfyUI installation path, if any, and what is on disk below it. */
  datatype Checker = Checker(comfyPath: Option<string>, checkpoints: CheckpointDir)

  /** `ModelChecker()`: `Path(COMFYUI_PATH) if COMFYUI_PATH else None`. */
  function NewChecker(comfyuiPath: Option<string>, checkpoints: CheckpointDir): (c: Checker)
    ensures c.comfyPath.Some? <==> Config.Configured(comfyuiPath)
    ensures c.comfyPath.Some? ==> c.comfyPath == comfyuiPath
  {
    Checker(if Config.Configured(comfyuiPath) then comfyuiPath else None, checkpoints)
  }

  /** `(checkpoints_dir / name)`: the entry, when the path is set and the entry exists. */
  function Lookup(c: Checker, name: string): Option<Entry>
  {
    if c.comfyPath.Some? && c.checkpoints.present && name in c.checkpoints.entries
    then Some(c.checkpoints.entries[name]) else None
  }

  // ---------------------------------------------------------------------------------------
  // get_available_models

  predicate IsSafetensors(name: string)
  {
    Strings.EndsWith(name, ".safetensors")
  }

  predicate IsCkpt(name: string)
  {
    Strings.EndsWith(name, ".ckpt")
  }

  /** A name either checkpoint glob matches. */
  predicate IsCheckpointName(name: string)
  {
    IsSafetensors(name) || IsCkpt(name)
  }

  /** What `get_available_models` returns: nothing without a path or a checkpoint directory,
      otherwise the `*.safetensors` names followed by the `*.ckpt` names, sorted. */
  function AvailableModels(c: Checker): seq<string>
  {
    if c.comfyPath.None? || !c.checkpoints.present then []
    else
      var listing := c.checkpoints.listing;
      Lists.Sort(Lists.Filter(listing, IsSafetensors) + Lists.Filter(listing, IsCkpt))
  }

  /** No name matches both globs. */
  lemma GlobsDisjoint(name: string)
    ensures !(IsSafetensors(name) && IsCkpt(name))
  {
    if IsSafetensors(name) {
      assert name[|name| - 12..][11] == name[|name| - 1] == 's';
      assert name[|name| - 5..][4] == name[|name| - 1];
    }
  }

  /** Running the two globs one after the other lists each checkpoint name of the directory as
      often as it is enumerated, and nothing else. */
  lemma {:induction false} TwoGlobsListCheckpoints(s: seq<string>)
    ensures multiset(Lists.Filter(s, IsSafetensors) + Lists.Filter(s, IsCkpt)) == multiset(Lists.Filter(s, IsCheckpointName))
  {
    if s != [] {
      TwoGlobsListCheckpoints(s[1..]);
      GlobsDisjoint(s[0]);
    }
  }

  /** `get_available_models` is empty without a path or directory; otherwise it is sorted and
      holds exactly the enumerated checkpoint file names, each as often as it is enumerated. */
  lemma AvailableModelsSpec(c: Checker)
    ensures c.comfyPath.None? || !c.checkpoints.present ==> AvailableModels(c) == []
    ensures Lists.Sorted(AvailableModels(c))
    ensures c.comfyPath.Some? && c.checkpoints.present ==>
      multiset(AvailableModels(c)) == multiset(Lists.Filter(c.checkpoints.listing, IsCheckpointName))
    ensures forall name :: name in AvailableModels(c) <==>
      c.comfyPath.Some? && c.checkpoints.present && name in c.checkpoints.listing && IsCheckpointName(name)
  {
    if c.comfyPath.Some? && c.checkpoints.present {
      var listing := c.checkpoints.listing;
      var found := Lists.Filter(listing, IsSafetensors) + Lists.Filter(listing, IsCkpt);
      Lists.SortCorrect(found);
      TwoGlobsListCheckpoints(listing);
      Lists.FilterMembers(listing, IsCheckpointName);
      forall name ensures name in AvailableModels(c) <==> name in Lists.Filter(listing, IsCheckpointName) {
        assert name in AvailableModels(c) <==> name in multiset(AvailableModels(c));
        assert name in Lists.Filter(listing, IsCheckpointName) <==> name in multiset(Lists.Filter(listing, IsCheckpointName));
      }
    }
  }

  /** `get_available_models()`: the two glob loops appending names, then `sorted`. */
  method GetAvailableModels(c: Checker) returns (models: seq<string>)
    ensures models == AvailableModels(c)
  {
    if c.comfyPath.None? {
      return [];
    }
    if !c.checkpoints.present {
      return [];
    }
    var listing := c.checkpoints.listing;
    var found: seq<string> := [];
    var i := 0;
    while i < |listing|
      invariant 0 <= i <= |listing|
      invariant found == Lists.Filter(listing[..i], IsSafetensors)
    {
      Lists.FilterSnoc(listing[..i], listing[i], IsSafetensors);
      assert listing[..i + 1] == listing[..i] + [listing[i]];
      if IsSafetensors(listing[i]) {
        found := found + [listing[i]];
      }
      i := i + 1;
    }
    assert listing[..|listing|] == listing;
    var j := 0;
    while j < |listing|
      invariant 0 <= j <= |listing|
      invariant found == Lists.Filter(listing, IsSafetensors) + Lists.Filter(listing[..j], IsCkpt)
    {
      Lists.FilterSnoc(listing[..j], listing[j], IsCkpt);
      assert listing[..j + 1] == listing[..j] + [listing[j]];
      if IsCkpt(listing[j]) {
        found := found + [listing[j]];
      }
      j := j + 1;
    }
    models := Lists.Sort(found);
  }

  // ---------------------------------------------------------------------------------------
  // check_model_exists, get_model_info

  /** `check_model_exists(name)`: the path is set and the entry exists and is a regular file. */
  function CheckModelExists(c: Checker, name: string): (r: bool)
    ensures r <==> Lookup(c, name).Some? && Lookup(c, name).value.isFile
    ensures c.comfyPath.None? ==> !r
  {
    match Lookup(c, name)
    case Some(e) => e.isFile
    case None => false
  }

  /** `round(size / (1024 * 1024), 2)` as a whole number of hundredths of a MiB. The quotient
      of an integer by a power of two is exact in binary floating point below 2^53, and
      `round` rounds it half to even. */
  function SizeCentiMb(size: nat): nat
  {
    var scaled := size * 100;
    var q := scaled / 1048576;
    var rem := scaled % 1048576;
    if rem > 524288 || (rem == 524288 && q % 2 == 1) then q + 1 else q
  }

  /** The rounded size differs from the exact size in MiB by at most half a hundredth. */
  lemma SizeCentiMbNearest(size: nat)
    ensures 2 * SizeCentiMb(size) * 1048576 <= 2 * size * 100 + 1048576
    ensures 2 * size * 100 <= 2 * SizeCentiMb(size) * 1048576 + 1048576
  {
  }

  /** A size rounds to less than 100.00 MiB exactly when it is at most 104852357 bytes. */
  lemma SizeBelowThreshold(size: nat)
    ensures SizeCentiMb(size) < 10000 <==> size <= 104852357
  {
    var scaled := size * 100;
    var q := scaled / 1048576;
    var rem := scaled % 1048576;
    assert scaled == q * 1048576 + rem;
    if size <= 104852357 {
      assert scaled <= 10485235700;
      assert q <= 9999;
      if q == 9999 {
        assert rem <= 524276;
      }
    } else {
      assert scaled >= 10485235800;
      assert q >= 9999;
      if q == 9999 {
        assert rem >= 524376;
      }
    }
  }

  /** The dictionary `get_model_info` builds; `modified` is the entry's modification time. */
  datatype ModelInfo = ModelInfo(name: string, size: nat, sizeCentiMb: nat, modified: int)

  /** `get_model_info(name)`: `None` without a path or when nothing exists under the name (a
      directory does exist); otherwise the name, the byte size, the rounded size in MiB and the
      modification time. */
  function GetModelInfo(c: Checker, name: string): (r: Option<ModelInfo>)
    ensures r.Some? <==> Lookup(c, name).Some?
    ensures r.Some? ==> (r.value.name == name && r.value.size == Lookup(c, name).value.size &&
      r.value.modified == Lookup(c, name).value.modified)
    ensures r.Some? ==> r.value.sizeCentiMb == SizeCentiMb(r.value.size)
  {
    match Lookup(c, name)
    case None => None
    case Some(e) => Some(ModelInfo(name, e.size, SizeCentiMb(e.size), e.modified))
  }

  // ---------------------------------------------------------------------------------------
  // validate_model_file

  /** Why a model file is not usable. */
  datatype ModelError =
    | NotFound(name: string)
    | TooSmall(sizeCentiMb: nat)

  /** The dictionary `validate_model_file` returns. */
  datatype FileCheck = FileCheck(fileExists: bool, valid: bool, error: Option<ModelError>, info: Option<ModelInfo>)

  /** Minimum size of a usable checkpoint, in hundredths of a MiB (100 MiB). */
  const MinCentiMb: nat := 10000

  /** The three outcomes of `validate_model_file`. */
  function ModelValidation(c: Checker, name: string): (r: FileCheck)
    ensures r.valid ==> r.fileExists
    ensures r.valid <==> r.error.None?
    ensures !r.fileExists <==> !CheckModelExists(c, name)
    ensures !r.fileExists ==> r == FileCheck(false, false, Some(NotFound(name)), None)
    ensures r.fileExists ==> r.info.Some? && r.info == GetModelInfo(c, name)
    ensures r.fileExists ==> (r.valid <==> Lookup(c, name).value.size > 104852357)
    ensures r.fileExists && !r.valid ==> r.error == Some(TooSmall(SizeCentiMb(Lookup(c, name).value.size)))
  {
    if !CheckModelExists(c, name) then FileCheck(false, false, Some(NotFound(name)), None)
    else
      var info := GetModelInfo(c, name);
      SizeBelowThreshold(info.value.size);
      if info.value.sizeCentiMb < MinCentiMb then FileCheck(true, false, Some(TooSmall(info.value.sizeCentiMb)), info)
      else FileCheck(true, true, None, info)
  }

  /** `validate_model_file(name)`: fills in the result step by step and returns early. */
  method ValidateModelFile(c: Checker, name: string) returns (result: FileCheck)
    ensures result == ModelValidation(c, name)
  {
    result := FileCheck(false, false, None, None);
    if !CheckModelExists(c, name) {
      result := result.(error := Some(NotFound(name)));
      return;
    }
    result := result.(fileExists := true);
    result := result.(info := GetModelInfo(c, name));
    if result.info.Some? && result.info.value.sizeCentiMb < MinCentiMb {
      result := result.(error := Some(TooSmall(result.info.value.sizeCentiMb)));
      return;
    }
    result := result.(valid := true);
  }
}
