/** The weight engine (src/config/weight_manager.py): per-project-type
    weight vectors loaded from YAML, validated and renormalised, and the
    weighted final score. The parsed YAML document is an input; `None`
    stands for a missing file or a YAML syntax error. */
module WeightManager {
  import opened Wrappers
  import opened Text
  import opened Values

  /** Chain name -> weight, in insertion order. */
  type Weights = seq<(string, real)>

  /** Project type -> weight vector, in insertion order. */
  type WeightConfig = seq<(string, Weights)>

  datatype Manager = Manager(config: WeightConfig, settings: Dict)

  /** An exception raised while loading: ValueError or any other kind. */
  datatype Raised = ValueError(msg: string) | OtherError(msg: string)

  datatype Outcome<T> = Ok(value: T) | Raise(err: Raised)

  const ChainNames: seq<string> := [
    "business_value", "technical_feasibility", "cost_analysis",
    "user_engagement", "innovation", "social_impact",
    "sustainability", "accessibility", "network_effect"
  ]

  const DefaultTolerance: real := 0.01

  function Total(w: Weights): real {
    if |w| == 0 then 0.0 else w[0].1 + Total(w[1..])
  }

  function ChainsOf(w: Weights): (r: seq<string>)
    ensures |r| == |w|
    ensures forall i :: 0 <= i < |w| ==> r[i] == w[i].0
  {
    if |w| == 0 then [] else [w[0].0] + ChainsOf(w[1..])
  }

  predicate NonNegative(w: Weights) {
    forall i :: 0 <= i < |w| ==> w[i].1 >= 0.0
  }

  predicate Distinct(ks: seq<string>) {
    forall i, j :: 0 <= i < j < |ks| ==> ks[i] != ks[j]
  }

  /** `weights.get(chain, 0.0)` */
  function WeightOf(w: Weights, chain: string): real {
    if |w| == 0 then 0.0
    else if w[0].0 == chain then w[0].1
    else WeightOf(w[1..], chain)
  }

  /** The mapping that gives every chain 1 / len(names). */
  function EqualWeights(names: seq<string>): (r: Weights)
    requires |names| > 0
    ensures |r| == |names|
    ensures forall i :: 0 <= i < |r| ==> r[i] == (names[i], 1.0 / |names| as real)
  {
    seq(|names|, i requires 0 <= i < |names| => (names[i], 1.0 / |names| as real))
  }

  /** The configuration used whenever the file cannot be used. */
  function DefaultManager(): Manager {
    var equal := EqualWeights(ChainNames);
    Manager(
      [("painkiller", equal), ("vitamin", equal), ("balanced", equal)],
      [("weight_sum_tolerance", VNum(DefaultTolerance)),
       ("default_project_type", VStr("balanced")),
       ("log_weight_changes", VBool(true)),
       ("log_normalization", VBool(true))])
  }

  /** The negative-weight check over one vector, in order: the first entry
      that is not a number raises TypeError, a negative one ValueError. */
  function CheckEntries(projectType: string, entries: seq<(string, Value)>): (r: Outcome<Weights>)
    ensures r.Ok? ==> |r.value| == |entries| && NonNegative(r.value)
    ensures r.Ok? ==> forall i :: 0 <= i < |entries| ==>
      r.value[i].0 == entries[i].0 && AsNumber(entries[i].1) == Some(r.value[i].1)
    ensures r.Raise? && r.err.ValueError? ==> StartsWith(r.err.msg, NegativeWeightMessage)
  {
    if |entries| == 0 then Ok([])
    else
      var (chain, v) := entries[0];
      match AsNumber(v)
      case None => Raise(OtherError("TypeError: '<' not supported"))
      case Some(x) =>
        if x < 0.0 then
          Raise(ValueError(NegativeWeightMessage + projectType + "." + chain + " = " + Show(v)))
        else
          match CheckEntries(projectType, entries[1..])
          case Ok(rest) => Ok([(chain, x)] + rest)
          case Raise(e) => Raise(e)
  }

  const EmptyFileMessage: string := "설정 파일이 비어있습니다"
  const NoWeightsMessage: string := "가중치 설정이 없습니다"
  const NegativeWeightMessage: string := "음수 가중치는 허용되지 않습니다: "
  const BadFormatMessage: string := "잘못된 가중치 형식: "
  const ZeroSumMessage: string := " 유형의 가중치 합계가 0입니다"

  /** Every weight divided by `s`. */
  function Normalize(w: Weights, s: real): (r: Weights)
    requires s > 0.0
    ensures |r| == |w|
    ensures forall i :: 0 <= i < |w| ==> r[i] == (w[i].0, w[i].1 / s)
  {
    seq(|w|, i requires 0 <= i < |w| => (w[i].0, w[i].1 / s))
  }

  function Abs(x: real): real { if x < 0.0 then -x else x }

  /** Validation of one project type's vector: it must be a mapping of
      non-negative numbers; a sum further than `tolerance` from 1 is
      rescaled to 1, and a zero sum is an error. */
  function ValidateType(projectType: string, w: Value, tolerance: Value): (r: Outcome<Weights>)
    ensures !w.VMap? ==> r.Raise? && StartsWith(r.err.msg, BadFormatMessage)
    ensures r.Ok? ==> w.VMap? && |r.value| == |w.entries| && NonNegative(r.value)
    ensures r.Ok? ==> forall i :: 0 <= i < |r.value| ==> r.value[i].0 == w.entries[i].0
    ensures r.Ok? ==> (AsNumber(tolerance).Some? &&
      (Total(r.value) == 1.0 || Abs(Total(r.value) - 1.0) <= AsNumber(tolerance).value))
    ensures w.VMap? && CheckEntries(projectType, w.entries).Raise? ==>
      r == Raise(CheckEntries(projectType, w.entries).err)
    ensures w.VMap? && CheckEntries(projectType, w.entries).Ok? && AsNumber(tolerance).Some? ==>
      var ws := CheckEntries(projectType, w.entries).value;
      var tol := AsNumber(tolerance).value;
      && (Abs(Total(ws) - 1.0) <= tol ==> r == Ok(ws))
      && (Abs(Total(ws) - 1.0) > tol && Total(ws) > 0.0 ==> r == Ok(Normalize(ws, Total(ws))))
      && (Abs(Total(ws) - 1.0) > tol && Total(ws) <= 0.0 ==> r == Raise(ValueError(projectType + ZeroSumMessage)))
  {
    if !w.VMap? then Raise(ValueError(BadFormatMessage + projectType))
    else
      match CheckEntries(projectType, w.entries)
      case Raise(e) => Raise(e)
      case Ok(ws) =>
        var s := Total(ws);
        match AsNumber(tolerance)
        case None => Raise(OtherError("TypeError: '>' not supported"))
        case Some(tol) =>
          if Abs(s - 1.0) > tol then
            if s > 0.0 then
              NormalizeSumsToOne(ws);
              NormalizeKeepsShape(ws, s);
              Ok(Normalize(ws, s))
            else Raise(ValueError(projectType + ZeroSumMessage))
          else Ok(ws)
  }

  /** Rescaling keeps the chain names and the signs. */
  lemma NormalizeKeepsShape(w: Weights, s: real)
    requires s > 0.0 && NonNegative(w)
    ensures NonNegative(Normalize(w, s))
    ensures forall i :: 0 <= i < |w| ==> Normalize(w, s)[i].0 == w[i].0
  {
    var r := Normalize(w, s);
    forall i | 0 <= i < |w|
      ensures r[i].1 >= 0.0
    {
      assert r[i] == (w[i].0, w[i].1 / s);
    }
  }

  lemma {:induction false} NormalizeTotal(w: Weights, s: real)
    requires s > 0.0
    ensures Total(Normalize(w, s)) == Total(w) / s
  {
    if |w| > 0 {
      NormalizeTotal(w[1..], s);
      assert Normalize(w, s)[1..] == Normalize(w[1..], s);
    }
  }

  /** Rescaling by the sum gives a vector that sums to exactly 1. */
  lemma NormalizeSumsToOne(w: Weights)
    requires Total(w) > 0.0
    ensures Total(Normalize(w, Total(w))) == 1.0
  {
    var s := Total(w);
    NormalizeTotal(w, s);
    assert s / s == 1.0;
  }

  /** Every project type in order; the first failure stops the loop. */
  function ValidateAll(types: seq<(string, Value)>, tolerance: Value): (r: Outcome<WeightConfig>)
    ensures r.Ok? ==> |r.value| == |types|
    ensures r.Ok? ==> forall i :: 0 <= i < |types| ==>
      r.value[i].0 == types[i].0 && ValidateType(types[i].0, types[i].1, tolerance) == Ok(r.value[i].1)
  {
    if |types| == 0 then Ok([])
    else
      match ValidateType(types[0].0, types[0].1, tolerance)
      case Raise(e) => Raise(e)
      case Ok(ws) =>
        match ValidateAll(types[1..], tolerance)
        case Raise(e) => Raise(e)
        case Ok(rest) => Ok([(types[0].0, ws)] + rest)
  }

  /** Whether an exception escapes the loader: only a ValueError whose
      message mentions a negative weight or a bad format does. */
  predicate Reraised(e: Raised) {
    e.ValueError? && (Contains(e.msg, "음수 가중치") || Contains(e.msg, "가중치 형식"))
  }

  function Recover(e: Raised): (r: Result<Manager>)
    ensures Reraised(e) <==> r.Failure?
    ensures r.Success? ==> r.value == DefaultManager()
  {
    if Reraised(e) then Failure(e.msg) else Success(DefaultManager())
  }

  /** Loading the configuration file. `Failure` is the re-raised
      validation error; every other problem falls back to the defaults. */
  function Load(file: Option<Value>): Result<Manager> {
    match file
    case None => Success(DefaultManager())
    case Some(config) => LoadDocument(config)
  }

  function LoadDocument(config: Value): Result<Manager> {
    if !Truthy(config) then Recover(ValueError(EmptyFileMessage))
    else if !config.VMap? then Recover(OtherError("AttributeError: 'get'"))
    else
      var weights := GetOr(config.entries, "weights", VMap([]));
      if !Truthy(weights) then Recover(ValueError(NoWeightsMessage))
      else LoadWeights(weights, GetOr(config.entries, "default_settings", VMap([])))
  }

  /** Validation of a non-empty `weights` section against `default_settings`. */
  function LoadWeights(weights: Value, settings: Value): Result<Manager> {
    if !settings.VMap? || !weights.VMap? then Recover(OtherError("AttributeError"))
    else
      var tolerance := GetOr(settings.entries, "weight_sum_tolerance", VNum(DefaultTolerance));
      match ValidateAll(weights.entries, tolerance)
      case Ok(config) => Success(Manager(config, settings.entries))
      case Raise(e) => Recover(e)
  }

  predicate HasType(c: WeightConfig, t: string) {
    exists i :: 0 <= i < |c| && c[i].0 == t
  }

  function LookupType(c: WeightConfig, t: string): (r: Weights)
    requires HasType(c, t)
    ensures exists i :: 0 <= i < |c| && c[i] == (t, r)
  {
    if c[0].0 == t then c[0].1 else LookupType(c[1..], t)
  }

  /** `get_weights`: an unknown project type uses the configured default
      type; if that is missing too the lookup raises KeyError. */
  function GetWeights(m: Manager, projectType: string): (r: Result<Weights>)
    ensures HasType(m.config, projectType) ==> r == Success(LookupType(m.config, projectType))
    ensures !HasType(m.config, projectType) ==>
      var d := GetOr(m.settings, "default_project_type", VStr("balanced"));
      (r.Success? <==> d.VStr? && HasType(m.config, d.s)) &&
      (r.Success? ==> r.value == LookupType(m.config, d.s))
  {
    if HasType(m.config, projectType) then Success(LookupType(m.config, projectType))
    else
      var d := GetOr(m.settings, "default_project_type", VStr("balanced"));
      if d.VStr? && HasType(m.config, d.s) then Success(LookupType(m.config, d.s))
      else Failure("KeyError")
  }

  /** `apply_weights`: each score times its chain's weight (0 if absent). */
  function ApplyWeights(scores: Weights, w: Weights): (r: Weights)
    ensures |r| == |scores|
    ensures forall i :: 0 <= i < |r| ==> r[i] == Weighted(scores[i], w)
  {
    if |scores| == 0 then []
    else [Weighted(scores[0], w)] + ApplyWeights(scores[1..], w)
  }

  /** One chain's score times that chain's weight. */
  function Weighted(score: (string, real), w: Weights): (r: (string, real))
    ensures r.0 == score.0
    ensures score.1 >= 0.0 && WeightOf(w, score.0) >= 0.0 ==> r.1 >= 0.0
  {
    (score.0, score.1 * WeightOf(w, score.0))
  }

  /** `calculate_final_score` */
  function FinalScore(m: Manager, scores: Weights, projectType: string): Result<real> {
    match GetWeights(m, projectType)
    case Success(w) => Success(Total(ApplyWeights(scores, w)))
    case Failure(e) => Failure(e)
  }

  // ---------------------------------------------------------------------
  // Properties of the loaded configuration

  lemma {:induction false} TotalOfEqualEntries(w: Weights, c: real)
    requires forall i :: 0 <= i < |w| ==> w[i].1 == c
    ensures Total(w) == |w| as real * c
  {
    if |w| > 0 {
      TotalOfEqualEntries(w[1..], c);
    }
  }

  /** The built-in vectors give each of the nine chains 1/9, summing to 1. */
  lemma DefaultWeightsSumToOne()
    ensures forall i :: 0 <= i < |DefaultManager().config| ==>
      Total(DefaultManager().config[i].1) == 1.0 && NonNegative(DefaultManager().config[i].1)
    ensures |DefaultManager().config[0].1| == 9
  {
    var equal := EqualWeights(ChainNames);
    TotalOfEqualEntries(equal, 1.0 / 9.0);
  }

  /** The tolerance the loader validated against. */
  function Tolerance(m: Manager): Option<real> {
    AsNumber(GetOr(m.settings, "weight_sum_tolerance", VNum(DefaultTolerance)))
  }

  /** Every vector is non-negative and sums to 1 or lies within the
      tolerance of 1. */
  predicate ValidManager(m: Manager) {
    Tolerance(m).Some? && VectorsWithin(m.config, Tolerance(m).value)
  }

  predicate VectorsWithin(c: WeightConfig, tolerance: real) {
    forall i :: 0 <= i < |c| ==>
      NonNegative(c[i].1) && (Total(c[i].1) == 1.0 || Abs(Total(c[i].1) - 1.0) <= tolerance)
  }

  /** Whatever the file holds, a manager that loads has only non-negative
      vectors, each summing to 1 or lying within the tolerance of 1. */
  lemma LoadedWeightsValid(file: Option<Value>)
    requires Load(file).Success?
    ensures ValidManager(Load(file).value)
  {
    var m := Load(file).value;
    if m == DefaultManager() {
      DefaultManagerValid();
    } else {
      var config := file.value;
      var weights := GetOr(config.entries, "weights", VMap([]));
      var settings := GetOr(config.entries, "default_settings", VMap([]));
      ValidatedManagerValid(weights.entries, settings.entries, m.config);
    }
  }

  lemma DefaultManagerValid()
    ensures ValidManager(DefaultManager())
  {
    DefaultWeightsSumToOne();
    assert Tolerance(DefaultManager()) == Some(DefaultTolerance);
  }

  /** A configuration that passed validation against the settings'
      tolerance makes a valid manager. */
  lemma ValidatedManagerValid(types: seq<(string, Value)>, settings: Dict, c: WeightConfig)
    requires |types| > 0
    requires ValidateAll(types, GetOr(settings, "weight_sum_tolerance", VNum(DefaultTolerance))) == Ok(c)
    ensures ValidManager(Manager(c, settings))
  {
    var tolerance := GetOr(settings, "weight_sum_tolerance", VNum(DefaultTolerance));
    ValidatedVectors(types, tolerance, c);
    assert Tolerance(Manager(c, settings)) == AsNumber(tolerance);
  }

  lemma ValidatedVectors(types: seq<(string, Value)>, tolerance: Value, c: WeightConfig)
    requires |types| > 0
    requires ValidateAll(types, tolerance) == Ok(c)
    ensures AsNumber(tolerance).Some?
    ensures VectorsWithin(c, AsNumber(tolerance).value)
  {
    assert ValidateType(types[0].0, types[0].1, tolerance) == Ok(c[0].1);
    forall i | 0 <= i < |c|
      ensures NonNegative(c[i].1)
      ensures Total(c[i].1) == 1.0 || Abs(Total(c[i].1) - 1.0) <= AsNumber(tolerance).value
    {
      assert ValidateType(types[i].0, types[i].1, tolerance) == Ok(c[i].1);
    }
  }

  lemma MarkersInMessages()
    ensures OccursAt(BadFormatMessage, "가중치 형식", 4)
    ensures OccursAt(NegativeWeightMessage, "음수 가중치", 0)
  {
  }

  lemma {:induction false} NegativeEntryRaises(projectType: string, entries: seq<(string, Value)>, k: int)
    requires forall i :: 0 <= i < |entries| ==> AsNumber(entries[i].1).Some?
    requires 0 <= k < |entries| && AsNumber(entries[k].1).value < 0.0
    ensures CheckEntries(projectType, entries).Raise?
    ensures CheckEntries(projectType, entries).err.ValueError?
  {
    if k > 0 && AsNumber(entries[0].1).value >= 0.0 {
      NegativeEntryRaises(projectType, entries[1..], k - 1);
    }
  }

  /** A document with a `weights` and a `default_settings` mapping is
      decided by the validation of those two sections. */
  lemma LoadDocumentDelegates(config: Dict, types: seq<(string, Value)>, settings: Dict)
    requires |config| > 0 && |types| > 0
    requires GetOr(config, "weights", VMap([])) == VMap(types)
    requires GetOr(config, "default_settings", VMap([])) == VMap(settings)
    ensures Load(Some(VMap(config))) == LoadWeights(VMap(types), VMap(settings))
  {
    assert Truthy(VMap(config)) && Truthy(VMap(types));
    assert LoadDocument(VMap(config)) == LoadWeights(VMap(types), VMap(settings));
  }

  lemma ValidationErrorEscapes(types: seq<(string, Value)>, settings: Dict, e: Raised)
    requires ValidateAll(types, GetOr(settings, "weight_sum_tolerance", VNum(DefaultTolerance))) == Raise(e)
    requires Reraised(e)
    ensures LoadWeights(VMap(types), VMap(settings)) == Failure(e.msg)
  {
  }

  /** A vector of zero weights validates to zero weights, summing to 0. */
  lemma {:induction false} ZeroEntries(projectType: string, entries: seq<(string, Value)>)
    requires forall i :: 0 <= i < |entries| ==> AsNumber(entries[i].1) == Some(0.0)
    ensures CheckEntries(projectType, entries).Ok?
    ensures Total(CheckEntries(projectType, entries).value) == 0.0
  {
    if |entries| > 0 {
      ZeroEntries(projectType, entries[1..]);
    }
  }

  /** A first project type whose weights are all 0 cannot be rescaled;
      its error is not one the loader re-raises, so loading falls back to
      the built-in equal weights. The escape test looks for two phrases in
      the message, which holds the type's name: a name free of the
      characters 음 and 식 cannot supply them. */
  lemma ZeroSumFallsBack(config: Dict, types: seq<(string, Value)>, entries: seq<(string, Value)>, settings: Dict)
    requires |config| > 0
    requires GetOr(config, "weights", VMap([])) == VMap(types)
    requires GetOr(config, "default_settings", VMap([])) == VMap(settings)
    requires |types| > 0 && types[0].1 == VMap(entries)
    requires forall i :: 0 <= i < |entries| ==> AsNumber(entries[i].1) == Some(0.0)
    requires var tol := AsNumber(GetOr(settings, "weight_sum_tolerance", VNum(DefaultTolerance)));
      tol.Some? && tol.value < 1.0
    requires '음' !in types[0].0 && '식' !in types[0].0
    ensures Load(Some(VMap(config))) == Success(DefaultManager())
  {
    var tolerance := GetOr(settings, "weight_sum_tolerance", VNum(DefaultTolerance));
    ZeroSumRaises(types, entries, tolerance);
    ZeroSumNotReraised(types[0].0);
    LoadDocumentDelegates(config, types, settings);
  }

  lemma ZeroSumRaises(types: seq<(string, Value)>, entries: seq<(string, Value)>, tolerance: Value)
    requires |types| > 0 && types[0].1 == VMap(entries)
    requires forall i :: 0 <= i < |entries| ==> AsNumber(entries[i].1) == Some(0.0)
    requires AsNumber(tolerance).Some? && AsNumber(tolerance).value < 1.0
    ensures ValidateAll(types, tolerance) == Raise(ValueError(types[0].0 + ZeroSumMessage))
  {
    ZeroEntries(types[0].0, entries);
    assert ValidateType(types[0].0, types[0].1, tolerance) == Raise(ValueError(types[0].0 + ZeroSumMessage));
  }

  lemma ZeroSumNotReraised(projectType: string)
    requires '음' !in projectType && '식' !in projectType
    ensures !Reraised(ValueError(projectType + ZeroSumMessage))
  {
    var msg := projectType + ZeroSumMessage;
    assert '음' !in msg && '식' !in msg;
    MissingCharNotContained(msg, "음수 가중치", 0);
    MissingCharNotContained(msg, "가중치 형식", 5);
  }

  /** A negative weight in the first project type's vector is never
      repaired: the loader re-raises the validation error. */
  lemma NegativeWeightRejected(config: Dict, types: seq<(string, Value)>, entries: seq<(string, Value)>, settings: Dict, k: int)
    requires |config| > 0
    requires GetOr(config, "weights", VMap([])) == VMap(types)
    requires GetOr(config, "default_settings", VMap([])) == VMap(settings)
    requires |types| > 0 && types[0].1 == VMap(entries)
    requires forall i :: 0 <= i < |entries| ==> AsNumber(entries[i].1).Some?
    requires 0 <= k < |entries| && AsNumber(entries[k].1).value < 0.0
    ensures Load(Some(VMap(config))).Failure?
    ensures StartsWith(Load(Some(VMap(config))).error, NegativeWeightMessage)
  {
    var tolerance := GetOr(settings, "weight_sum_tolerance", VNum(DefaultTolerance));
    NegativeEntryRaises(types[0].0, entries, k);
    var e := CheckEntries(types[0].0, entries).err;
    MarkersInMessages();
    OccursInExtension(NegativeWeightMessage, e.msg[|NegativeWeightMessage|..], "음수 가중치", 0);
    assert e.msg == NegativeWeightMessage + e.msg[|NegativeWeightMessage|..];
    assert ValidateType(types[0].0, types[0].1, tolerance) == Raise(e);
    ValidationErrorEscapes(types, settings, e);
    LoadDocumentDelegates(config, types, settings);
  }

  /** A project type whose value is not a mapping is re-raised too. */
  lemma BadFormatRejected(config: Dict, types: seq<(string, Value)>, settings: Dict)
    requires |config| > 0
    requires GetOr(config, "weights", VMap([])) == VMap(types)
    requires GetOr(config, "default_settings", VMap([])) == VMap(settings)
    requires |types| > 0 && !types[0].1.VMap?
    ensures Load(Some(VMap(config))).Failure?
    ensures StartsWith(Load(Some(VMap(config))).error, BadFormatMessage)
  {
    var tolerance := GetOr(settings, "weight_sum_tolerance", VNum(DefaultTolerance));
    var e := ValidateType(types[0].0, types[0].1, tolerance).err;
    MarkersInMessages();
    OccursInExtension(BadFormatMessage, types[0].0, "가중치 형식", 4);
    ValidationErrorEscapes(types, settings, e);
    LoadDocumentDelegates(config, types, settings);
  }

  /** A missing or unreadable file, an empty document and a document
      without weights all give the built-in defaults. */
  lemma UnusableFileFallsBack(file: Option<Value>)
    requires file.None? || !Truthy(file.value)
      || (file.value.VMap? && !Truthy(GetOr(file.value.entries, "weights", VMap([]))))
    ensures Load(file) == Success(DefaultManager())
  {
    if file.Some? {
      if !Truthy(file.value) {
        NotContainsMarkers(EmptyFileMessage);
      } else {
        NotContainsMarkers(NoWeightsMessage);
      }
    }
  }

  lemma NotContainsMarkers(m: string)
    requires m == EmptyFileMessage || m == NoWeightsMessage
    ensures !Contains(m, "음수 가중치") && !Contains(m, "가중치 형식")
  {
    assert '음' !in m && '형' !in m;
    MissingCharNotContained(m, "음수 가중치", 0);
    MissingCharNotContained(m, "가중치 형식", 4);
  }

  // ---------------------------------------------------------------------
  // The final score is a weighted mean on the 0..10 scale

  /** The entries of `w` other than `chain`. */
  function Without(w: Weights, chain: string): (r: Weights)
    ensures |r| <= |w|
  {
    if |w| == 0 then []
    else if w[0].0 == chain then Without(w[1..], chain)
    else [w[0]] + Without(w[1..], chain)
  }

  lemma {:induction false} WithoutKeeps(w: Weights, chain: string)
    ensures NonNegative(w) ==> NonNegative(Without(w, chain))
    ensures forall c :: c in ChainsOf(Without(w, chain)) ==> c in ChainsOf(w)
    ensures forall c :: c != chain ==> WeightOf(Without(w, chain), c) == WeightOf(w, c)
  {
    if |w| > 0 {
      WithoutKeeps(w[1..], chain);
    }
  }

  lemma {:induction false} WithoutDistinct(w: Weights, chain: string)
    requires Distinct(ChainsOf(w))
    ensures Distinct(ChainsOf(Without(w, chain)))
  {
    if |w| > 0 {
      WithoutDistinct(w[1..], chain);
      WithoutKeeps(w[1..], chain);
      if w[0].0 != chain {
        var r := [w[0]] + Without(w[1..], chain);
        assert w[0].0 !in ChainsOf(w[1..]);
        assert ChainsOf(r) == [w[0].0] + ChainsOf(Without(w[1..], chain));
      }
    }
  }

  lemma {:induction false} WithoutTotal(w: Weights, chain: string)
    requires Distinct(ChainsOf(w))
    ensures Total(w) == WeightOf(w, chain) + Total(Without(w, chain))
  {
    if |w| > 0 {
      if w[0].0 == chain {
        assert chain !in ChainsOf(w[1..]);
        AbsentChain(w[1..], chain);
      } else {
        WithoutTotal(w[1..], chain);
      }
    }
  }

  lemma WithoutProperties(w: Weights, chain: string)
    requires NonNegative(w) && Distinct(ChainsOf(w))
    ensures NonNegative(Without(w, chain)) && Distinct(ChainsOf(Without(w, chain)))
    ensures Total(w) == WeightOf(w, chain) + Total(Without(w, chain))
    ensures forall c :: c != chain ==> WeightOf(Without(w, chain), c) == WeightOf(w, c)
  {
    WithoutKeeps(w, chain);
    WithoutDistinct(w, chain);
    WithoutTotal(w, chain);
  }

  lemma {:induction false} AbsentChain(w: Weights, chain: string)
    requires chain !in ChainsOf(w)
    ensures Without(w, chain) == w && WeightOf(w, chain) == 0.0
  {
    if |w| > 0 {
      AbsentChain(w[1..], chain);
    }
  }

  lemma {:induction false} WeightOfNonNegative(w: Weights, chain: string)
    requires NonNegative(w)
    ensures WeightOf(w, chain) >= 0.0
  {
    if |w| > 0 && w[0].0 != chain {
      WeightOfNonNegative(w[1..], chain);
    }
  }

  /** The weights of some distinct chains add up to at most the total. */
  function WeightsOf(chains: seq<string>, w: Weights): real {
    if |chains| == 0 then 0.0 else WeightOf(w, chains[0]) + WeightsOf(chains[1..], w)
  }

  lemma {:induction false} WeightsOfAgree(chains: seq<string>, w1: Weights, w2: Weights)
    requires forall c :: c in chains ==> WeightOf(w1, c) == WeightOf(w2, c)
    ensures WeightsOf(chains, w1) == WeightsOf(chains, w2)
  {
    if |chains| > 0 {
      WeightsOfAgree(chains[1..], w1, w2);
    }
  }

  lemma {:induction false} WeightsOfAtMostTotal(chains: seq<string>, w: Weights)
    requires Distinct(chains)
    requires NonNegative(w) && Distinct(ChainsOf(w))
    ensures WeightsOf(chains, w) <= Total(w)
    decreases |chains|
  {
    if |chains| == 0 {
      TotalNonNegative(w);
    } else {
      var c := chains[0];
      var rest := Without(w, c);
      WithoutProperties(w, c);
      WeightsOfAgree(chains[1..], w, rest);
      WeightsOfAtMostTotal(chains[1..], rest);
    }
  }

  lemma {:induction false} TotalNonNegative(w: Weights)
    requires NonNegative(w)
    ensures Total(w) >= 0.0
  {
    if |w| > 0 {
      TotalNonNegative(w[1..]);
    }
  }

  lemma {:induction false} WeightedTotalBounds(scores: Weights, w: Weights)
    requires forall i :: 0 <= i < |scores| ==> 0.0 <= scores[i].1 <= 10.0
    requires NonNegative(w)
    ensures 0.0 <= Total(ApplyWeights(scores, w)) <= 10.0 * WeightsOf(ChainsOf(scores), w)
  {
    if |scores| > 0 {
      WeightedTotalBounds(scores[1..], w);
      var x := WeightOf(w, scores[0].0);
      WeightOfNonNegative(w, scores[0].0);
      assert ApplyWeights(scores, w)[1..] == ApplyWeights(scores[1..], w);
      assert ChainsOf(scores)[1..] == ChainsOf(scores[1..]);
      assert 0.0 <= scores[0].1 * x <= 10.0 * x;
      assert Total(ApplyWeights(scores, w)) == scores[0].1 * x + Total(ApplyWeights(scores[1..], w));
      assert WeightsOf(ChainsOf(scores), w) == x + WeightsOf(ChainsOf(scores[1..]), w);
    }
  }

  /** With scores on the 0..10 scale, one score per chain, and a
      non-negative vector, the final score lies between 0 and 10 times the
      vector's sum. The loader accepts sums within its tolerance of 1
      without rescaling, so an accepted sum of 1.01 allows up to 10.1. */
  lemma FinalScoreBounded(m: Manager, scores: Weights, projectType: string)
    requires forall i :: 0 <= i < |scores| ==> 0.0 <= scores[i].1 <= 10.0
    requires Distinct(ChainsOf(scores))
    requires GetWeights(m, projectType).Success?
    requires var w := GetWeights(m, projectType).value;
      NonNegative(w) && Distinct(ChainsOf(w))
    ensures 0.0 <= FinalScore(m, scores, projectType).value <= 10.0 * Total(GetWeights(m, projectType).value)
  {
    var w := GetWeights(m, projectType).value;
    WeightedTotalBounds(scores, w);
    WeightsOfAtMostTotal(ChainsOf(scores), w);
  }

  /** The corollary for a vector whose weights sum to exactly 1: the
      final score is on the 0..10 scale as well. */
  lemma FinalScoreInRange(m: Manager, scores: Weights, projectType: string)
    requires forall i :: 0 <= i < |scores| ==> 0.0 <= scores[i].1 <= 10.0
    requires Distinct(ChainsOf(scores))
    requires GetWeights(m, projectType).Success?
    requires var w := GetWeights(m, projectType).value;
      NonNegative(w) && Distinct(ChainsOf(w)) && Total(w) == 1.0
    ensures 0.0 <= FinalScore(m, scores, projectType).value <= 10.0
  {
    FinalScoreBounded(m, scores, projectType);
  }
}
