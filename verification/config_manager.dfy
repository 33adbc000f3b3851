/** The YAML configuration registry (src/config/config_manager.py): every
    loaded file by name, dotted key-path lookups, the weight lookup used by
    the web pipeline and the per-analysis system prompts. Reading the
    directory and parsing YAML are inputs: each file comes as its name and
    its parsed document, `None` when it could not be read or parsed. */
module ConfigManager {
  import opened Wrappers
  import opened Text
  import opened Values
  import WeightManager

  /** File name -> parsed document, in load order. */
  type Registry = Dict

  /** `_load_yaml_file`: an empty document becomes an empty mapping, and so does a file
      that fails to load; a later file with the same name replaces an
      earlier one. */
  function LoadFile(reg: Registry, name: string, parsed: Option<Value>): (r: Registry)
    ensures HasKey(r, name)
    ensures parsed.None? || !Truthy(parsed.value) ==> Get(r, name) == Some(VMap([]))
    ensures parsed.Some? && Truthy(parsed.value) ==> Get(r, name) == parsed
    ensures forall other :: other != name ==> Get(r, other) == Get(reg, other)
  {
    match parsed
    case Some(doc) => Put(reg, name, if Truthy(doc) then doc else VMap([]))
    case None => Put(reg, name, VMap([]))
  }

  /** `_load_all_configs`: root files first, then the settings files. */
  function LoadAll(reg: Registry, files: seq<(string, Option<Value>)>): Registry
    decreases |files|
  {
    if |files| == 0 then reg
    else LoadAll(LoadFile(reg, files[0].0, files[0].1), files[1..])
  }

  /** Every file that was offered is registered, loaded or not. */
  lemma {:induction false} LoadAllRegistersEveryFile(reg: Registry, files: seq<(string, Option<Value>)>)
    ensures forall i :: 0 <= i < |files| ==> HasKey(LoadAll(reg, files), files[i].0)
    decreases |files|
  {
    if |files| > 0 {
      var next := LoadFile(reg, files[0].0, files[0].1);
      LoadAllKeeps(next, files[1..], files[0].0);
      LoadAllRegistersEveryFile(next, files[1..]);
      forall i | 1 <= i < |files| ensures HasKey(LoadAll(reg, files), files[i].0) {
        assert files[i] == files[1..][i - 1];
      }
    }
  }

  lemma {:induction false} LoadAllKeeps(reg: Registry, files: seq<(string, Option<Value>)>, name: string)
    requires HasKey(reg, name)
    ensures HasKey(LoadAll(reg, files), name)
    decreases |files|
  {
    if |files| > 0 {
      var next := LoadFile(reg, files[0].0, files[0].1);
      if files[0].0 != name {
        assert Get(next, name) == Get(reg, name);
      }
      LoadAllKeeps(next, files[1..], name);
    }
  }

  /** Descends through nested mappings one key at a time; `None` as soon
      as a step meets a non-mapping or a missing key. */
  function Resolve(v: Value, keys: seq<string>): Option<Value>
  {
    if |keys| == 0 then Some(v)
    else if v.VMap? && HasKey(v.entries, keys[0]) then Resolve(Get(v.entries, keys[0]).value, keys[1..])
    else None
  }

  /** `get_config(filename, key_path, default)` */
  function GetConfig(reg: Registry, filename: string, keyPath: Option<string>, default: Value): (r: Value)
    ensures !HasKey(reg, filename) ==> r == default
    ensures HasKey(reg, filename) && keyPath.None? ==> Some(r) == Get(reg, filename)
  {
    match Get(reg, filename)
    case None => default
    case Some(doc) =>
      match keyPath
      case None => doc
      case Some(path) => Resolve(doc, Split(path, '.')).GetOr(default)
  }

  lemma {:induction false} ResolveAppend(v: Value, ks1: seq<string>, ks2: seq<string>)
    ensures Resolve(v, ks1 + ks2) ==
      (match Resolve(v, ks1) case Some(w) => Resolve(w, ks2) case None => None)
  {
    if |ks1| > 0 {
      assert (ks1 + ks2)[1..] == ks1[1..] + ks2;
      if v.VMap? && HasKey(v.entries, ks1[0]) {
        ResolveAppend(Get(v.entries, ks1[0]).value, ks1[1..], ks2);
      }
    } else {
      assert ks1 + ks2 == ks2;
    }
  }

  /** A dotted path is the same as looking up its first segment and then
      the rest of the path inside the value found there. */
  lemma DottedPathComposes(reg: Registry, filename: string, first: string, rest: string, default: Value)
    requires '.' !in first
    requires Get(reg, filename).Some?
    ensures var doc := Get(reg, filename).value;
      GetConfig(reg, filename, Some(first + "." + rest), default) ==
        (match Resolve(doc, [first])
         case Some(w) => Resolve(w, Split(rest, '.')).GetOr(default)
         case None => default)
  {
    var path := first + "." + rest;
    assert path[|first|] == '.';
    assert '.' !in path[..|first|] by { assert path[..|first|] == first; }
    assert Find(path, '.') == |first| by {
      FindFirst(path, '.', |first|);
    }
    assert path[..|first|] == first;
    assert path[|first| + 1..] == rest;
    assert Split(path, '.') == [first] + Split(rest, '.');
    ResolveAppend(Get(reg, filename).value, [first], Split(rest, '.'));
  }

  lemma FindFirst(s: string, c: char, k: int)
    requires 0 <= k < |s| && s[k] == c && c !in s[..k]
    ensures Find(s, c) == k
  {
  }

  /** A file that failed to load answers every key path with the default. */
  lemma FailedFileGivesDefault(reg: Registry, name: string, path: string, default: Value)
    ensures GetConfig(LoadFile(reg, name, None), name, Some(path), default) == default
  {
  }

  function DefaultWeightValue(): Value {
    var w := WeightManager.EqualWeights(WeightManager.ChainNames);
    VMap(seq(|w|, i requires 0 <= i < |w| => (w[i].0, VNum(w[i].1))))
  }

  /** `get_weights`: the section `weights.<type>` of chain_weights.yaml
      as stored, or equal weights over the nine chains when it is missing
      or empty. No validation or normalisation happens on this path. */
  function GetWeights(reg: Registry, projectType: string): (r: Value)
    ensures Truthy(r)
    ensures var found := GetConfig(reg, "chain_weights.yaml", Some("weights." + projectType), VMap([]));
      && (Truthy(found) ==> r == found)
      && (!Truthy(found) ==> r == DefaultWeightValue())
  {
    var found := GetConfig(reg, "chain_weights.yaml", Some("weights." + projectType), VMap([]));
    if Truthy(found) then found else DefaultWeightValue()
  }

  /** The equal fallback weights: nine chains at 1/9 each. */
  lemma DefaultWeightValueShape()
    ensures var d := DefaultWeightValue();
      |d.entries| == 9 &&
      forall i :: 0 <= i < 9 ==> d.entries[i] == (WeightManager.ChainNames[i], VNum(1.0 / 9.0))
  {
  }

  /** `get_system_prompt`: the `system_prompt` entry of the analysis'
      section in system_prompts.yaml, "" when absent; a section that is not
      a mapping raises AttributeError. */
  function GetSystemPrompt(reg: Registry, analysisType: string): (r: Result<Value>)
    ensures var section := GetConfig(reg, "system_prompts.yaml", Some(analysisType), VMap([]));
      (r.Success? <==> section.VMap?) &&
      (r.Success? && !HasKey(section.entries, "system_prompt") ==> r.value == VStr("")) &&
      (r.Success? && HasKey(section.entries, "system_prompt") ==> r.value == Get(section.entries, "system_prompt").value)
  {
    var section := GetConfig(reg, "system_prompts.yaml", Some(analysisType), VMap([]));
    if section.VMap? then Success(GetOr(section.entries, "system_prompt", VStr("")))
    else Failure("AttributeError: 'get'")
  }

  /** A non-empty weight section stored under `weights.<type>` is
      returned as stored; without the weights file the equal weights are
      returned. */
  lemma StoredWeightsReturned(reg: Registry, projectType: string, w: Value)
    requires '.' !in projectType
    requires Get(reg, "chain_weights.yaml").Some?
    requires Resolve(Get(reg, "chain_weights.yaml").value, ["weights", projectType]) == Some(w)
    ensures Truthy(w) ==> GetWeights(reg, projectType) == w
    ensures !Truthy(w) ==> GetWeights(reg, projectType) == DefaultWeightValue()
  {
    assert "weights." + projectType == "weights" + ['.'] + projectType;
    SplitTwo("weights", projectType, '.');
    assert GetConfig(reg, "chain_weights.yaml", Some("weights." + projectType), VMap([])) == w;
  }

  lemma MissingWeightsFileGivesEqualWeights(reg: Registry, projectType: string)
    requires !HasKey(reg, "chain_weights.yaml")
    ensures GetWeights(reg, projectType) == DefaultWeightValue()
  {
  }

  /** The prompt stored in an analysis' section is returned unchanged. */
  lemma StoredPromptReturned(reg: Registry, analysisType: string, section: Dict, prompt: Value)
    requires '.' !in analysisType
    requires Get(reg, "system_prompts.yaml").Some?
    requires Resolve(Get(reg, "system_prompts.yaml").value, [analysisType]) == Some(VMap(section))
    requires Get(section, "system_prompt") == Some(prompt)
    ensures GetSystemPrompt(reg, analysisType) == Success(prompt)
  {
    SplitNone(analysisType, '.');
  }

  lemma SplitNone(s: string, sep: char)
    requires sep !in s
    ensures Split(s, sep) == [s]
  {
    JoinSplit([s], sep);
  }

  lemma SplitTwo(a: string, b: string, sep: char)
    requires sep !in a && sep !in b
    ensures Split(a + [sep] + b, sep) == [a, b]
  {
    JoinCons([sep], a, [b]);
    JoinSplit([a, b], sep);
  }
}
