/** The shape the seven model-backed scorer chains of src/chain share
    (cost analysis, innovation, network effect, social impact,
    sustainability, technical feasibility and user engagement): check which
    materials are missing, build a prompt, ask the model, pull the JSON
    object that starts with a "score" key out of the reply, normalise it
    to the chain's fixed fields, and fall back to a fixed neutral record
    when anything goes wrong. What differs between the chains is data, a
    `Scorer`; the model and the JSON decoder are function arguments. */
module LlmScorer {
  import opened Wrappers
  import opened Text
  import opened Values
  import opened Scores
  import BaseChain
  import opened ChainUtils

  /** Whether a chain reads the project type itself, and the wording it
      uses when it does (network effect and social impact do). */
  datatype Typing =
    | Untyped
    | Typed(painkillerLabel: string, vitaminLabel: string, balancedLabel: string, focus: string)

  /** `_get_fallback_result` without its limitations: a neutral score and
      the chain's own reasoning, suggestions and placeholder fields. */
  datatype Fallback = Fallback(reasoning: string, suggestions: seq<string>, extras: Dict)

  /** Everything that distinguishes one scorer chain from another. */
  datatype Scorer = Scorer(
    reasoning: string,          // reasoning of a reply that gives none
    legacyKey: Option<string>,  // a second key suggestions may come under
    fields: Dict,               // the chain's own fields, with their defaults
    defaults: seq<string>,      // suggestions that replace an empty list
    fallback: Fallback,
    typing: Typing)

  const LimitationsKey: string := "data_limitations"

  /** Keys the normalised reply and the limitations note claim for
      themselves. */
  predicate ReplyKey(k: string) {
    HeadKey(k) || k == LimitationsKey
  }

  /** The keys of the three entries every record starts with. */
  predicate HeadKey(k: string) {
    k == "score" || k == "reasoning" || k == "suggestions"
  }

  /** What every chain's constants satisfy: distinct field names that do
      not clash with the reply's own keys, and non-empty default lists. */
  predicate ValidScorer(sc: Scorer) {
    && UniqueKeys(sc.fields)
    && (forall i :: 0 <= i < |sc.fields| ==> !ReplyKey(sc.fields[i].0))
    && (forall i :: 0 <= i < |sc.fallback.extras| ==> !ReplyKey(sc.fallback.extras[i].0))
    && |sc.defaults| > 0
    && |sc.fallback.suggestions| > 0
  }

  /** A record with a score on the scale and a non-empty suggestion list. */
  predicate Scored(r: Dict) {
    && Get(r, "score").Some? && Get(r, "score").value.VNum? && InRange(Get(r, "score").value.n)
    && Get(r, "suggestions").Some? && Get(r, "suggestions").value.VList?
    && |Get(r, "suggestions").value.items| > 0
  }

  // ---------------------------------------------------------------------
  // Locating the JSON object in the reply

  const ScoreKey: string := "\"score\""

  /** An opening brace at `i`, then optional whitespace, then the key `"score"`. */
  predicate OpensScore(s: string, i: int) {
    0 <= i < |s| && s[i] == OpenBrace && OccursAt(s, ScoreKey, SkipSpace(s, i + 1))
  }

  /** Just past the `"score"` key of a brace at `i`. */
  function KeyEnd(s: string, i: int): (r: nat)
    requires 0 <= i < |s|
    ensures i < r
  {
    SkipSpace(s, i + 1) + |ScoreKey|
  }

  function FirstOpening(s: string, from: nat): (r: Option<nat>)
    requires from <= |s|
    ensures r.Some? ==> from <= r.value < |s| && OpensScore(s, r.value) &&
                        forall j :: from <= j < r.value ==> !OpensScore(s, j)
    ensures r.None? ==> forall j :: from <= j < |s| ==> !OpensScore(s, j)
    decreases |s| - from
  {
    if from == |s| then None
    else if OpensScore(s, from) then Some(from)
    else FirstOpening(s, from + 1)
  }

  /** The greedy `re.search` for a brace, optional whitespace and a
      "score" key, with DOTALL: from the leftmost brace that opens a
      "score" key to the last closing brace of the whole text. */
  function ScoreSpan(s: string): Option<string> {
    match SpanBounds(s)
    case None => None
    case Some(b) => Some(s[b.0..b.1])
  }

  /** Where that span starts and ends. */
  function SpanBounds(s: string): (r: Option<(nat, nat)>)
    ensures r.Some? <==> FirstOpening(s, 0).Some? && RFind(s, CloseBrace) >= KeyEnd(s, FirstOpening(s, 0).value)
    ensures r.Some? ==> r.value == (FirstOpening(s, 0).value, RFind(s, CloseBrace) + 1)
  {
    match FirstOpening(s, 0)
    case None => None
    case Some(i) =>
      var e := RFind(s, CloseBrace);
      if e >= KeyEnd(s, i) then Some((i, e + 1)) else None
  }

  lemma {:induction false} RFindAtLeast(s: string, c: char, e: int)
    requires 0 <= e < |s| && s[e] == c
    ensures RFind(s, c) >= e
    decreases |s|
  {
    if s[|s| - 1] != c {
      var p := s[..|s| - 1];
      assert p[e] == c;
      RFindAtLeast(p, c, e);
    }
  }

  /** The search succeeds exactly when some brace opening a "score" key
      is followed, past the key, by a closing brace; the span then runs
      from the leftmost such opening to the last closing brace of the text. */
  lemma ScoreSpanMatches(s: string)
    ensures ScoreSpan(s).Some? <==>
      exists i, e :: OpensScore(s, i) && KeyEnd(s, i) <= e < |s| && s[e] == CloseBrace
    ensures ScoreSpan(s).Some? ==>
      var i := FirstOpening(s, 0).value;
      var e := RFind(s, CloseBrace);
      && (forall j :: 0 <= j < i ==> !OpensScore(s, j))
      && 0 <= e && CloseBrace !in s[e + 1..]
      && ScoreSpan(s).value == s[i..e + 1]
  {
    if exists i, e :: OpensScore(s, i) && KeyEnd(s, i) <= e < |s| && s[e] == CloseBrace {
      var i, e :| OpensScore(s, i) && KeyEnd(s, i) <= e < |s| && s[e] == CloseBrace;
      SpanFound(s, i, e);
    }
    if ScoreSpan(s).Some? {
      SpanWitness(s);
      SpanEnds(s);
    }
  }

  /** A found span starts at an opening whose key a later closing brace follows. */
  lemma SpanWitness(s: string)
    requires ScoreSpan(s).Some?
    ensures var i := FirstOpening(s, 0).value;
      var e := RFind(s, CloseBrace);
      FirstOpening(s, 0).Some? && OpensScore(s, i) && KeyEnd(s, i) <= e < |s| && s[e] == CloseBrace
  {
    assert SpanBounds(s).Some?;
  }

  /** A found span runs from the first opening to the last closing brace. */
  lemma SpanEnds(s: string)
    requires ScoreSpan(s).Some?
    ensures var i := FirstOpening(s, 0).value;
      var e := RFind(s, CloseBrace);
      && (forall j :: 0 <= j < i ==> !OpensScore(s, j))
      && 0 <= e && CloseBrace !in s[e + 1..]
      && ScoreSpan(s).value == s[i..e + 1]
  {
    assert SpanBounds(s).Some?;
  }

  /** A closing brace past the key of any opening brace is enough. */
  lemma SpanFound(s: string, i: int, e: int)
    requires OpensScore(s, i) && KeyEnd(s, i) <= e < |s| && s[e] == CloseBrace
    ensures ScoreSpan(s).Some?
  {
    var i0 := FirstOpening(s, 0).value;
    assert i0 <= i;
    SkipSpaceMonotone(s, i0 + 1, i + 1);
    assert KeyEnd(s, i0) <= KeyEnd(s, i);
    RFindAtLeast(s, CloseBrace, e);
  }

  /** A found span opens and closes with a brace, and is longer than the
      key it holds. */
  lemma ScoreSpanBraces(s: string)
    requires ScoreSpan(s).Some?
    ensures var t := ScoreSpan(s).value;
      |t| > |ScoreKey| && t[0] == OpenBrace && t[|t| - 1] == CloseBrace
  {
    assert SpanBounds(s).Some?;
  }

  // ---------------------------------------------------------------------
  // Normalising a decoded reply

  /** The three entries every scorer's record starts with. */
  function Head(score: real, reasoning: Value, suggestions: seq<Value>): Dict {
    [("score", VNum(score)), ("reasoning", reasoning), ("suggestions", VList(suggestions))]
  }

  lemma HeadLookup(score: real, reasoning: Value, suggestions: seq<Value>, rest: Dict)
    ensures var r := Head(score, reasoning, suggestions) + rest;
      && Get(r, "score") == Some(VNum(score))
      && Get(r, "reasoning") == Some(reasoning)
      && Get(r, "suggestions") == Some(VList(suggestions))
  {
    var h := Head(score, reasoning, suggestions);
    GetIndex(h, 0);
    GetIndex(h, 1);
    GetIndex(h, 2);
    GetConcat(h, rest, "score");
    GetConcat(h, rest, "reasoning");
    GetConcat(h, rest, "suggestions");
  }

  /** Any other key is looked up in the rest of the record. */
  lemma HeadOther(score: real, reasoning: Value, suggestions: seq<Value>, rest: Dict, k: string)
    requires !HeadKey(k)
    ensures Get(Head(score, reasoning, suggestions) + rest, k) == Get(rest, k)
  {
    var h := Head(score, reasoning, suggestions);
    GetMissing(h, k);
    GetConcat(h, rest, k);
  }

  /** `result.get(name, default)` for each of the chain's own fields, in
      the chain's order. */
  function Passthrough(d: Dict, fields: Dict): (r: Dict)
    ensures |r| == |fields|
    ensures forall i :: 0 <= i < |fields| ==> r[i] == (fields[i].0, GetOr(d, fields[i].0, fields[i].1))
  {
    seq(|fields|, i requires 0 <= i < |fields| => (fields[i].0, GetOr(d, fields[i].0, fields[i].1)))
  }

  /** `result.get("suggestions", [])`, or for a chain with a legacy key,
      `result.get("suggestions", result.get(legacy, []))`. */
  function RawSuggestions(sc: Scorer, d: Dict): Value {
    var older := match sc.legacyKey
      case Some(k) => GetOr(d, k, VList([]))
      case None => VList([]);
    GetOr(d, "suggestions", older)
  }

  /** A non-list becomes the one-element list of its text; an empty list
      becomes the chain's defaults. */
  function SuggestionList(defaults: seq<string>, raw: Value): (r: seq<Value>)
    ensures |defaults| > 0 ==> |r| > 0
    ensures raw.VList? && |raw.items| > 0 ==> r == raw.items
    ensures !raw.VList? ==> r == [VStr(Show(raw))]
    ensures raw == VList([]) ==> r == AsStrings(defaults)
  {
    var items := if raw.VList? then raw.items else [VStr(Show(raw))];
    if |items| > 0 then items else AsStrings(defaults)
  }

  /** The reply's score, reasoning and suggestions, normalised. */
  function NormalHead(sc: Scorer, d: Dict): Dict {
    Head(ValidateScore(GetOr(d, "score", VNum(0.0))),
         GetOr(d, "reasoning", VStr(sc.reasoning)),
         SuggestionList(sc.defaults, RawSuggestions(sc, d)))
  }

  lemma NormalHeadLookup(sc: Scorer, d: Dict, rest: Dict)
    ensures var r := NormalHead(sc, d) + rest;
      && Get(r, "score") == Some(VNum(ValidateScore(GetOr(d, "score", VNum(0.0)))))
      && Get(r, "reasoning") == Some(GetOr(d, "reasoning", VStr(sc.reasoning)))
      && Get(r, "suggestions") == Some(VList(SuggestionList(sc.defaults, RawSuggestions(sc, d))))
  {
    HeadLookup(ValidateScore(GetOr(d, "score", VNum(0.0))), GetOr(d, "reasoning", VStr(sc.reasoning)),
               SuggestionList(sc.defaults, RawSuggestions(sc, d)), rest);
  }

  /** `_validate_and_normalize_result`: exactly the reply's three entries
      and the chain's own fields, in that order; any other key the model
      sent is dropped. */
  function Normalize(sc: Scorer, d: Dict): (r: Dict)
    ensures Keys(r) == ["score", "reasoning", "suggestions"] + Keys(sc.fields)
  {
    var r := NormalHead(sc, d) + Passthrough(d, sc.fields);
    assert forall i :: 3 <= i < |r| ==> Keys(r)[i] == sc.fields[i - 3].0;
    r
  }

  /** The normalised score: the reply's number clamped to the scale, 0.0
      when it gives none, 5.0 when it gives something that is no number. */
  lemma NormalizeScore(sc: Scorer, d: Dict)
    ensures var r := Normalize(sc, d);
      && Get(r, "score").Some? && Get(r, "score").value.VNum? && InRange(Get(r, "score").value.n)
      && (!HasKey(d, "score") ==> Get(r, "score") == Some(VNum(0.0)))
      && (Get(d, "score").Some? && ToFloat(Get(d, "score").value).None? ==> Get(r, "score") == Some(VNum(NeutralScore)))
      && (Get(d, "score").Some? && Get(d, "score").value.VNum? && InRange(Get(d, "score").value.n) ==>
            Get(r, "score") == Get(d, "score"))
      && Get(r, "reasoning") == Some(GetOr(d, "reasoning", VStr(sc.reasoning)))
  {
    NormalHeadLookup(sc, d, Passthrough(d, sc.fields));
  }

  /** The normalised suggestions are never empty; a non-empty list from
      the reply is kept as it is, and a chain with a legacy key reads it
      only when "suggestions" is absent. */
  lemma NormalizeSuggestions(sc: Scorer, d: Dict)
    requires ValidScorer(sc)
    ensures var r := Normalize(sc, d);
      && Get(r, "suggestions").Some? && Get(r, "suggestions").value.VList?
      && |Get(r, "suggestions").value.items| > 0
      && (Get(d, "suggestions").Some? && Get(d, "suggestions").value.VList? && |Get(d, "suggestions").value.items| > 0 ==>
            Get(r, "suggestions") == Get(d, "suggestions"))
      && (sc.legacyKey.Some? && !HasKey(d, "suggestions") ==>
            Get(r, "suggestions") == Some(VList(SuggestionList(sc.defaults, GetOr(d, sc.legacyKey.value, VList([]))))))
  {
    NormalHeadLookup(sc, d, Passthrough(d, sc.fields));
  }

  /** Each of the chain's own fields holds the reply's value or its
      default, and the normalised record has no limitations note. */
  lemma NormalizeField(sc: Scorer, d: Dict, i: int)
    requires ValidScorer(sc)
    requires 0 <= i < |sc.fields|
    ensures var r := Normalize(sc, d);
      && Get(r, sc.fields[i].0) == Some(GetOr(d, sc.fields[i].0, sc.fields[i].1))
      && !HasKey(r, LimitationsKey)
  {
    var p := Passthrough(d, sc.fields);
    var h := NormalHead(sc, d);
    GetIndex(p, i);
    GetMissing(p, LimitationsKey);
    HeadOther(h[0].1.n, h[1].1, h[2].1.items, p, sc.fields[i].0);
    HeadOther(h[0].1.n, h[1].1, h[2].1.items, p, LimitationsKey);
  }

  lemma NormalizeShape(sc: Scorer, d: Dict)
    requires ValidScorer(sc)
    ensures Scored(Normalize(sc, d)) && !HasKey(Normalize(sc, d), LimitationsKey)
  {
    NormalizeScore(sc, d);
    NormalizeSuggestions(sc, d);
    NormalizeNoLimitations(sc, d);
  }

  lemma NormalizeNoLimitations(sc: Scorer, d: Dict)
    requires ValidScorer(sc)
    ensures !HasKey(Normalize(sc, d), LimitationsKey)
  {
    assert LimitationsKey !in Keys(sc.fields);
    assert LimitationsKey !in ["score", "reasoning", "suggestions"];
  }

  lemma NormalHeadStable(sc: Scorer, d: Dict)
    requires ValidScorer(sc)
    ensures NormalHead(sc, Normalize(sc, d)) == NormalHead(sc, d)
  {
    var r := Normalize(sc, d);
    NormalizeScore(sc, d);
    NormalizeSuggestions(sc, d);
    var x := ValidateScore(GetOr(d, "score", VNum(0.0)));
    assert GetOr(r, "score", VNum(0.0)) == VNum(x);
    assert ValidateScore(VNum(x)) == x;
    var l := SuggestionList(sc.defaults, RawSuggestions(sc, d));
    NormalHeadLookup(sc, d, Passthrough(d, sc.fields));
    assert RawSuggestions(sc, r) == VList(l);
  }

  lemma PassthroughStable(sc: Scorer, d: Dict)
    requires ValidScorer(sc)
    ensures Passthrough(Normalize(sc, d), sc.fields) == Passthrough(d, sc.fields)
  {
    var r := Normalize(sc, d);
    var p := Passthrough(d, sc.fields);
    forall i | 0 <= i < |sc.fields|
      ensures Passthrough(r, sc.fields)[i] == p[i]
    {
      NormalizeField(sc, d, i);
    }
  }

  /** Normalising a normalised record changes nothing. */
  lemma NormalizeIdempotent(sc: Scorer, d: Dict)
    requires ValidScorer(sc)
    ensures Normalize(sc, Normalize(sc, d)) == Normalize(sc, d)
  {
    NormalHeadStable(sc, d);
    PassthroughStable(sc, d);
  }

  // ---------------------------------------------------------------------
  // Fallback and limitations

  function FallbackBase(fb: Fallback): Dict {
    Head(NeutralScore, VStr(fb.reasoning), AsStrings(fb.suggestions)) + fb.extras
  }

  /** Aspect scores, all at the neutral 5.0, in the given order. */
  function Neutral(names: seq<string>): (r: Dict)
    ensures |r| == |names|
    ensures forall i :: 0 <= i < |r| ==> r[i] == (names[i], VNum(NeutralScore))
  {
    seq(|names|, i requires 0 <= i < |names| => (names[i], VNum(NeutralScore)))
  }

  /** `result["data_limitations"] = "; ".join(limitations)` when there
      are limitations. */
  function WithLimitations(r: Dict, limitations: seq<string>): Dict {
    if |limitations| > 0 then Put(r, LimitationsKey, VStr(Join("; ", limitations))) else r
  }

  /** `_get_fallback_result(limitations)` */
  function FallbackResult(sc: Scorer, limitations: seq<string>): Dict {
    WithLimitations(FallbackBase(sc.fallback), limitations)
  }

  lemma FallbackShape(sc: Scorer)
    requires ValidScorer(sc)
    ensures var r := FallbackBase(sc.fallback);
      && Scored(r) && !HasKey(r, LimitationsKey)
      && Get(r, "score") == Some(VNum(NeutralScore))
      && Get(r, "suggestions") == Some(VList(AsStrings(sc.fallback.suggestions)))
  {
    GetMissing(sc.fallback.extras, LimitationsKey);
    HeadLookup(NeutralScore, VStr(sc.fallback.reasoning), AsStrings(sc.fallback.suggestions), sc.fallback.extras);
    HeadOther(NeutralScore, VStr(sc.fallback.reasoning), AsStrings(sc.fallback.suggestions), sc.fallback.extras, LimitationsKey);
  }

  /** Each placeholder field of the fallback reaches the record as it is,
      limitations or not. */
  lemma FallbackField(sc: Scorer, limitations: seq<string>, i: int)
    requires ValidScorer(sc)
    requires 0 <= i < |sc.fallback.extras|
    requires forall j :: 0 <= j < i ==> sc.fallback.extras[j].0 != sc.fallback.extras[i].0
    ensures Get(FallbackResult(sc, limitations), sc.fallback.extras[i].0) == Some(sc.fallback.extras[i].1)
  {
    var k := sc.fallback.extras[i].0;
    GetIndex(sc.fallback.extras, i);
    HeadOther(NeutralScore, VStr(sc.fallback.reasoning), AsStrings(sc.fallback.suggestions), sc.fallback.extras, k);
    if |limitations| > 0 {
      assert k != LimitationsKey;
    }
  }

  /** A fallback whose `i`-th placeholder holds neutral aspect scores: the
      record carries the neutral score, the fallback's suggestions, those
      aspect scores, and the limitations note exactly when something is
      missing. */
  lemma FallbackNeutral(sc: Scorer, limitations: seq<string>, i: int, names: seq<string>)
    requires ValidScorer(sc)
    requires 0 <= i < |sc.fallback.extras|
    requires forall j :: 0 <= j < i ==> sc.fallback.extras[j].0 != sc.fallback.extras[i].0
    requires sc.fallback.extras[i].1 == VMap(Neutral(names))
    ensures var r := FallbackResult(sc, limitations);
      && Get(r, "score") == Some(VNum(NeutralScore))
      && Get(r, "suggestions") == Some(VList(AsStrings(sc.fallback.suggestions)))
      && Get(r, sc.fallback.extras[i].0) == Some(VMap(Neutral(names)))
      && (HasKey(r, LimitationsKey) <==> |limitations| > 0)
  {
    FallbackShape(sc);
    WithLimitationsShape(FallbackBase(sc.fallback), limitations);
    FallbackField(sc, limitations, i);
  }

  /** The note is there exactly when something is missing, and leaves the
      score and suggestions alone. */
  lemma WithLimitationsShape(r: Dict, limitations: seq<string>)
    requires Scored(r) && !HasKey(r, LimitationsKey)
    ensures var w := WithLimitations(r, limitations);
      && Scored(w)
      && Get(w, "score") == Get(r, "score") && Get(w, "suggestions") == Get(r, "suggestions")
      && (HasKey(w, LimitationsKey) <==> |limitations| > 0)
      && (|limitations| > 0 ==> Get(w, LimitationsKey) == Some(VStr(Join("; ", limitations))))
  {
  }

  // ---------------------------------------------------------------------
  // Parsing and answering

  /** `_parse_llm_response`: decode the span if there is one, else the
      whole text. Text that does not decode gives the fallback with no
      limitations; JSON that is not an object makes normalisation raise. */
  function Parse(sc: Scorer, text: string, decode: string -> Option<Value>): (r: Result<Dict>)
    ensures var source := if ScoreSpan(text).Some? then ScoreSpan(text).value else text;
      && (decode(source).None? ==> r == Success(FallbackResult(sc, [])))
      && (r.Failure? <==> decode(source).Some? && !decode(source).value.VMap?)
      && (decode(source).Some? && decode(source).value.VMap? ==>
            r == Success(Normalize(sc, decode(source).value.entries)))
  {
    var source := match ScoreSpan(text)
      case Some(span) => span
      case None => text;
    match decode(source)
    case None => Success(FallbackResult(sc, []))
    case Some(v) =>
      if v.VMap? then Success(Normalize(sc, v.entries)) else Failure("AttributeError: 'get'")
  }

  /** The type tags a type-aware chain adds to a parsed result. */
  function TagType(t: Typing, r: Dict, projectType: Option<string>): Dict {
    if t.Typed? && projectType.Some? then
      Put(Put(r, "project_type", VStr(projectType.value)), "evaluation_focus",
          VStr(projectType.value + t.focus))
    else r
  }

  /** Storing under a key the reply does not claim leaves its score,
      suggestions and limitations note alone. */
  lemma PutKeepsReply(r: Dict, k: string, v: Value)
    requires !ReplyKey(k)
    ensures var w := Put(r, k, v);
      && Get(w, "score") == Get(r, "score")
      && Get(w, "suggestions") == Get(r, "suggestions")
      && Get(w, LimitationsKey) == Get(r, LimitationsKey)
  {
  }

  lemma TagTypeKeeps(t: Typing, r: Dict, projectType: Option<string>)
    ensures var w := TagType(t, r, projectType);
      && Get(w, "score") == Get(r, "score")
      && Get(w, "suggestions") == Get(r, "suggestions")
      && Get(w, LimitationsKey) == Get(r, LimitationsKey)
  {
    if t.Typed? && projectType.Some? {
      var w := Put(r, "project_type", VStr(projectType.value));
      assert |"project_type"| == 12;
      PutKeepsReply(r, "project_type", VStr(projectType.value));
      assert "evaluation_focus"[0] != LimitationsKey[0];
      PutKeepsReply(w, "evaluation_focus", VStr(projectType.value + t.focus));
    }
  }

  lemma TagTypeTags(t: Typing, r: Dict, projectType: string)
    requires t.Typed?
    ensures var w := TagType(t, r, Some(projectType));
      && Get(w, "project_type") == Some(VStr(projectType))
      && Get(w, "evaluation_focus") == Some(VStr(projectType + t.focus))
  {
    assert |"evaluation_focus"| != |"project_type"|;
  }

  /** The `try` block of `_analyze`: a failing model call and a reply
      that is JSON but not an object both give the fallback with the
      limitations; otherwise the parsed record gets the type tags and the
      limitations note. */
  function Respond(sc: Scorer, limitations: seq<string>, projectType: Option<string>,
                   reply: Result<string>, decode: string -> Option<Value>): Dict
  {
    match reply
    case Failure(_) => FallbackResult(sc, limitations)
    case Success(text) =>
      match Parse(sc, text, decode)
      case Failure(_) => FallbackResult(sc, limitations)
      case Success(r) => WithLimitations(TagType(sc.typing, r, projectType), limitations)
  }

  /** A parsed reply has a score on the scale, suggestions, and no
      limitations note yet. */
  lemma ParsedShape(sc: Scorer, text: string, decode: string -> Option<Value>)
    requires ValidScorer(sc)
    requires Parse(sc, text, decode).Success?
    ensures Scored(Parse(sc, text, decode).value)
    ensures !HasKey(Parse(sc, text, decode).value, LimitationsKey)
  {
    var source := if ScoreSpan(text).Some? then ScoreSpan(text).value else text;
    match decode(source)
    case None =>
      FallbackShape(sc);
    case Some(v) =>
      NormalizeShape(sc, v.entries);
  }

  /** Whatever the model replies, the record has a score on the scale and
      a non-empty suggestion list, and carries the limitations note exactly
      when some material is missing. */
  lemma RespondShape(sc: Scorer, limitations: seq<string>, projectType: Option<string>,
                     reply: Result<string>, decode: string -> Option<Value>)
    requires ValidScorer(sc)
    ensures var r := Respond(sc, limitations, projectType, reply, decode);
      && Scored(r)
      && (HasKey(r, LimitationsKey) <==> |limitations| > 0)
      && (|limitations| > 0 ==> Get(r, LimitationsKey) == Some(VStr(Join("; ", limitations))))
  {
    FallbackShape(sc);
    WithLimitationsShape(FallbackBase(sc.fallback), limitations);
    if reply.Success? && Parse(sc, reply.value, decode).Success? {
      var r := Parse(sc, reply.value, decode).value;
      ParsedShape(sc, reply.value, decode);
      TagTypeKeeps(sc.typing, r, projectType);
      WithLimitationsShape(TagType(sc.typing, r, projectType), limitations);
    }
  }

  /** A failing model call gives the neutral fallback. */
  lemma ModelFailureIsNeutral(sc: Scorer, limitations: seq<string>, projectType: Option<string>,
                              message: string, decode: string -> Option<Value>)
    requires ValidScorer(sc)
    ensures var r := Respond(sc, limitations, projectType, Failure(message), decode);
      && Get(r, "score") == Some(VNum(NeutralScore))
      && Get(r, "suggestions") == Some(VList(AsStrings(sc.fallback.suggestions)))
  {
    FallbackShape(sc);
    WithLimitationsShape(FallbackBase(sc.fallback), limitations);
  }

  /** A type-aware chain tags every reply that parses, including one the
      decoder rejects, with the project type and its evaluation focus. */
  lemma RespondTags(sc: Scorer, limitations: seq<string>, projectType: string,
                    text: string, decode: string -> Option<Value>)
    requires sc.typing.Typed?
    requires Parse(sc, text, decode).Success?
    ensures var r := Respond(sc, limitations, Some(projectType), Success(text), decode);
      && Get(r, "project_type") == Some(VStr(projectType))
      && Get(r, "evaluation_focus") == Some(VStr(projectType + sc.typing.focus))
  {
    var r := Parse(sc, text, decode).value;
    TagTypeTags(sc.typing, r, projectType);
    var w := TagType(sc.typing, r, Some(projectType));
    if |limitations| > 0 {
      assert |LimitationsKey| != |"project_type"|;
      assert LimitationsKey[0] != "evaluation_focus"[0];
    }
  }

  // ---------------------------------------------------------------------
  // The prompt

  /** The values a chain fills into its prompt template; the template's
      fixed wording is not modelled. */
  datatype Prompt = Prompt(
    project: seq<Value>,
    classification: string,
    material: Value,
    limitations: string,
    criteria: Option<string>)

  const ProjectFields: seq<string> := ["project_name", "description", "technology", "target_users", "business_model"]
  const NoInfo: string := "정보 없음"
  const NoMaterial: string := "종합 분석 정보가 제공되지 않았습니다."
  const LimitationsLead: string := "다음 제한사항이 있습니다: "
  const AllProvided: string := "모든 자료가 충분히 제공되었습니다."

  function ProjectValues(parsed: Dict): (r: seq<Value>)
    ensures |r| == |ProjectFields|
    ensures forall i :: 0 <= i < |r| ==> r[i] == GetOr(parsed, ProjectFields[i], VStr(NoInfo))
  {
    seq(|ProjectFields|, i requires 0 <= i < |ProjectFields| => GetOr(parsed, ProjectFields[i], VStr(NoInfo)))
  }

  /** `material_analysis or "..."` */
  function Material(data: Dict): (r: Value)
    ensures Truthy(r)
  {
    var m := GetOr(data, "material_analysis", VStr(""));
    if Truthy(m) then m else VStr(NoMaterial)
  }

  function LimitationsText(limitations: seq<string>): (r: string)
    ensures |limitations| == 0 <==> r == AllProvided
  {
    if |limitations| > 0 then
      var r := LimitationsLead + Join(", ", limitations);
      assert r[..|LimitationsLead|] == LimitationsLead;
      assert |r| >= |LimitationsLead| && LimitationsLead[0] != AllProvided[0];
      r
    else AllProvided
  }

  /** The type a type-aware chain reads: a `project_type` entry of the
      input whatever its value, else the one inside a classification
      mapping, else "balanced". */
  function ChainProjectType(data: Dict): (r: Value)
    ensures HasKey(data, "project_type") ==> Some(r) == Get(data, "project_type")
    ensures !HasKey(data, "project_type") && !GetOr(data, "classification", VNone).VMap? ==> r == VStr("balanced")
  {
    if HasKey(data, "project_type") then GetOr(data, "project_type", VNone)
    else
      var c := GetOr(data, "classification", VNone);
      if c.VMap? then GetOr(c.entries, "project_type", VStr("balanced")) else VStr("balanced")
  }

  const PainKillerHeading: string := "**Pain Killer 기준:**\n"
  const VitaminHeading: string := "\n\n**Vitamin 기준:**\n"

  /** The criteria label and list for a project type: one list for a
      painkiller or a vitamin, both under headings for anything else. */
  function CriteriaSection(t: Typing, c: Criteria, projectType: string): (r: (string, string))
    requires t.Typed?
    ensures Lower(projectType) == "painkiller" ==> r == (t.painkillerLabel, BulletText(c.painkiller))
    ensures Lower(projectType) == "vitamin" ==> r == (t.vitaminLabel, BulletText(c.vitamin))
    ensures Lower(projectType) != "painkiller" && Lower(projectType) != "vitamin" ==>
      r.0 == t.balancedLabel && Contains(r.1, BulletText(c.painkiller)) && Contains(r.1, BulletText(c.vitamin))
  {
    if Lower(projectType) == "painkiller" then (t.painkillerLabel, BulletText(c.painkiller))
    else if Lower(projectType) == "vitamin" then (t.vitaminLabel, BulletText(c.vitamin))
    else
      var p := BulletText(c.painkiller);
      var v := BulletText(c.vitamin);
      var text := PainKillerHeading + p + VitaminHeading + v;
      assert OccursAt(text, p, |PainKillerHeading|) by {
        assert text[|PainKillerHeading|..|PainKillerHeading| + |p|] == p;
      }
      assert OccursAt(text, v, |text| - |v|) by {
        assert text[|text| - |v|..] == v;
      }
      (t.balancedLabel, text)
  }

  /** The filled-in prompt; a type-aware chain shows the type in upper
      case with its criteria label, and the selected criteria. */
  function PromptFor(sc: Scorer, c: Criteria, data: Dict, parsed: Dict, limitations: seq<string>): Prompt
    requires sc.typing.Typed? ==> ChainProjectType(data).VStr?
  {
    var project := ProjectValues(parsed);
    if sc.typing.Typed? then
      var pt := ChainProjectType(data).s;
      var section := CriteriaSection(sc.typing, c, pt);
      var heading := section.0;
      var criteria := section.1;
      Prompt(project, Upper(pt) + " (" + heading + ")", Material(data), LimitationsText(limitations),
             Some("**" + heading + ":**\n" + criteria))
    else
      Prompt(project, Show(GetOr(data, "classification", VStr("balanced"))), Material(data),
             LimitationsText(limitations), None)
  }

  // ---------------------------------------------------------------------
  // The chain's analysis

  /** The model call, from filled-in prompt to reply text. */
  type Llm = Prompt -> Result<string>

  /** `_analyze`. The availability check, the type's `.lower()` and the
      reads of `parsed_data` run outside the `try`, so their exceptions
      escape to the base chain. */
  function Analyze(sc: Scorer, c: Criteria, llm: Llm, decode: string -> Option<Value>, data: Dict): (r: Result<Dict>)
    ensures r.Success? <==>
      && BaseChain.CheckDataAvailability(data).Success?
      && (sc.typing.Typed? ==> ChainProjectType(data).VStr?)
      && GetOr(data, "parsed_data", VMap([])).VMap?
  {
    match BaseChain.CheckDataAvailability(data)
    case Failure(e) => Failure(e)
    case Success(limitations) =>
      var pt := ChainProjectType(data);
      if sc.typing.Typed? && !pt.VStr? then Failure("AttributeError: 'lower'")
      else
        var parsed := GetOr(data, "parsed_data", VMap([]));
        if !parsed.VMap? then Failure("AttributeError: 'get'")
        else
          var tag := if sc.typing.Typed? then Some(pt.s) else None;
          Success(Respond(sc, limitations, tag, llm(PromptFor(sc, c, data, parsed.entries, limitations)), decode))
  }

  /** Every record the analysis returns has a score on the scale and
      suggestions, and the limitations note exactly when some material is
      missing. */
  lemma AnalyzeShape(sc: Scorer, c: Criteria, llm: Llm, decode: string -> Option<Value>, data: Dict)
    requires ValidScorer(sc)
    requires Analyze(sc, c, llm, decode, data).Success?
    ensures var r := Analyze(sc, c, llm, decode, data).value;
      var limitations := BaseChain.CheckDataAvailability(data).value;
      && Scored(r)
      && (HasKey(r, LimitationsKey) <==> |limitations| > 0)
      && (|limitations| > 0 ==> Get(r, LimitationsKey) == Some(VStr(Join("; ", limitations))))
  {
    var limitations := BaseChain.CheckDataAvailability(data).value;
    var pt := ChainProjectType(data);
    var parsed := GetOr(data, "parsed_data", VMap([]));
    var tag := if sc.typing.Typed? then Some(pt.s) else None;
    RespondShape(sc, limitations, tag, llm(PromptFor(sc, c, data, parsed.entries, limitations)), decode);
  }

  /** `invoke` on a scorer chain. */
  function Invoke(sc: Scorer, chainName: string, c: Criteria, llm: Llm, decode: string -> Option<Value>,
                  input: Value, elapsed: real): Dict {
    BaseChain.Invoke(input, chainName, data => Analyze(sc, c, llm, decode, data), elapsed)
  }

  /** A type-aware chain handed a whole classification record as its
      project type cannot lower it, and `invoke` returns the base error
      record: score 0.0 and status "ERROR". */
  lemma RecordTypeGivesErrorResult(sc: Scorer, chainName: string, c: Criteria, llm: Llm,
                                   decode: string -> Option<Value>, data: Dict, record: Dict, elapsed: real)
    requires sc.typing.Typed?
    requires Get(data, "project_type") == Some(VMap(record))
    ensures var r := Invoke(sc, chainName, c, llm, decode, VMap(data), elapsed);
      Get(r, "score") == Some(VNum(0.0)) && Get(r, "status") == Some(VStr("ERROR"))
  {
    BaseChain.InvokeScoreInRange(VMap(data), chainName, d => Analyze(sc, c, llm, decode, d), elapsed);
  }

  /** Handed the type as a string, the same chain evaluates: when the
      materials and `parsed_data` are usable and the reply parses, the
      record carries that type. */
  lemma StringTypeIsUsed(sc: Scorer, c: Criteria, llm: Llm, decode: string -> Option<Value>,
                         data: Dict, projectType: string)
    requires ValidScorer(sc) && sc.typing.Typed?
    requires Get(data, "project_type") == Some(VStr(projectType))
    requires BaseChain.CheckDataAvailability(data).Success?
    requires GetOr(data, "parsed_data", VMap([])).VMap?
    requires var parsed := GetOr(data, "parsed_data", VMap([])).entries;
      var limitations := BaseChain.CheckDataAvailability(data).value;
      var reply := llm(PromptFor(sc, c, data, parsed, limitations));
      reply.Success? && Parse(sc, reply.value, decode).Success?
    ensures Analyze(sc, c, llm, decode, data).Success?
    ensures Get(Analyze(sc, c, llm, decode, data).value, "project_type") == Some(VStr(projectType))
  {
    var parsed := GetOr(data, "parsed_data", VMap([])).entries;
    var limitations := BaseChain.CheckDataAvailability(data).value;
    var reply := llm(PromptFor(sc, c, data, parsed, limitations));
    RespondTags(sc, limitations, projectType, reply.value, decode);
    var r := Respond(sc, limitations, Some(projectType), reply, decode);
    if |limitations| > 0 {
      assert LimitationsKey != "project_type";
    }
  }
}
