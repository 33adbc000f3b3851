/** The analysis progress tracker (`src/web/progress_tracker.py`): per
    session, a table of named steps with a status and a percentage, an
    overall percentage derived from the steps, an error log and the
    session's own status. Sessions are an immutable map and every
    operation returns the new map; the clock is a parameter (`now`, in
    seconds) and so is the `HH:MM:SS` stamp of an error message. */
module ProgressTracker {
  import opened Wrappers
  import opened Scores

  const Pending: string := "pending"
  const InProgress: string := "in_progress"
  const Completed: string := "completed"
  const Error: string := "error"

  /** The four stages every session starts with, in order. */
  const DefaultSteps: seq<string> := ["파일 분석", "프로젝트 분류", "평가 체인 실행", "최종 점수 계산"]

  /** `StepProgress`. The status is free text: `update_step` stores
      whatever it is given. */
  datatype Step = Step(
    name: string,
    status: string,
    progress: real,
    startTime: Option<real>,
    endTime: Option<real>,
    errorMessage: Option<string>)

  /** `SessionProgress`; the steps keep the insertion order of the
      dictionary they come from. */
  datatype Session = Session(
    id: string,
    overall: real,
    status: string,
    startTime: real,
    endTime: Option<real>,
    steps: seq<Step>,
    errors: seq<string>)

  type Sessions = map<string, Session>

  function Fresh(name: string): Step {
    Step(name, Pending, 0.0, None, None, None)
  }

  // ---------------------------------------------------------------------
  // Invariant
  // ---------------------------------------------------------------------

  /** Step names are the keys of a dictionary: no two are equal. */
  predicate UniqueNames(steps: seq<Step>) {
    forall i, j :: 0 <= i < j < |steps| ==> steps[i].name != steps[j].name
  }

  predicate Percent(x: real) { 0.0 <= x <= 100.0 }

  /** What every operation keeps: percentages in [0, 100] and distinct
      step names. */
  predicate Valid(s: Session) {
    && UniqueNames(s.steps)
    && (forall i :: 0 <= i < |s.steps| ==> Percent(s.steps[i].progress))
    && Percent(s.overall)
  }

  predicate ValidTracker(t: Sessions) {
    forall k :: k in t ==> t[k].id == k && Valid(t[k])
  }

  // ---------------------------------------------------------------------
  // Overall progress
  // ---------------------------------------------------------------------

  /** The weight of a step when there are `n` steps: fixed for the four
      default stages, `1 / n` for any other. */
  function Weight(name: string, n: nat): (w: real)
    requires n > 0
    ensures w > 0.0
  {
    if name == DefaultSteps[0] then 0.3
    else if name == DefaultSteps[1] then 0.2
    else if name == DefaultSteps[2] then 0.4
    else if name == DefaultSteps[3] then 0.1
    else 1.0 / n as real
  }

  /** What a step contributes: all of it when completed, its own
      percentage while in progress, nothing when pending or failed. */
  function Contribution(s: Step): (c: real)
    ensures Percent(s.progress) ==> Percent(c)
    ensures s.status == Completed ==> c == 100.0
    ensures s.status != Completed && s.status != InProgress ==> c == 0.0
  {
    if s.status == Completed then 100.0
    else if s.status == InProgress then s.progress
    else 0.0
  }

  function WeightedTotal(steps: seq<Step>, n: nat): real
    requires n > 0
  {
    if |steps| == 0 then 0.0
    else Weight(steps[0].name, n) * Contribution(steps[0]) + WeightedTotal(steps[1..], n)
  }

  function TotalWeight(steps: seq<Step>, n: nat): (r: real)
    requires n > 0
    ensures |steps| > 0 ==> r > 0.0
  {
    if |steps| == 0 then 0.0 else Weight(steps[0].name, n) + TotalWeight(steps[1..], n)
  }

  /** `_calculate_overall_progress`: the weighted mean of the step
      contributions, 0 without steps. */
  function Overall(steps: seq<Step>): real {
    if |steps| == 0 then 0.0
    else WeightedTotal(steps, |steps|) / TotalWeight(steps, |steps|)
  }

  lemma ScaledBetween(w: real, c: real)
    requires w >= 0.0 && Percent(c)
    ensures 0.0 <= w * c <= 100.0 * w
  {
  }

  lemma QuotientBetween(total: real, weight: real)
    requires weight > 0.0 && 0.0 <= total <= 100.0 * weight
    ensures Percent(total / weight)
  {
    var q := total / weight;
    assert q * weight == total;
    assert (q - 100.0) * weight <= 0.0;
  }

  lemma WeightedTotalBetween(steps: seq<Step>, n: nat)
    requires n > 0
    requires forall i :: 0 <= i < |steps| ==> Percent(steps[i].progress)
    ensures 0.0 <= WeightedTotal(steps, n) <= 100.0 * TotalWeight(steps, n)
  {
    var ws := seq(|steps|, i requires 0 <= i < |steps| => Weight(steps[i].name, n));
    var cs := seq(|steps|, i requires 0 <= i < |steps| => Contribution(steps[i]));
    TotalsAsSums(steps, n, ws, cs);
    DotBetween(ws, cs);
  }

  /** The two totals as sums over the weights and the contributions. */
  lemma {:induction false} TotalsAsSums(steps: seq<Step>, n: nat, ws: seq<real>, cs: seq<real>)
    requires n > 0 && |ws| == |steps| && |cs| == |steps|
    requires forall i :: 0 <= i < |steps| ==> ws[i] == Weight(steps[i].name, n) && cs[i] == Contribution(steps[i])
    ensures WeightedTotal(steps, n) == Dot(ws, cs) && TotalWeight(steps, n) == Sum(ws)
  {
    if |steps| > 0 {
      TotalsAsSums(steps[1..], n, ws[1..], cs[1..]);
    }
  }

  function Dot(ws: seq<real>, cs: seq<real>): real
    requires |ws| == |cs|
  {
    if |ws| == 0 then 0.0 else ws[0] * cs[0] + Dot(ws[1..], cs[1..])
  }

  function Sum(ws: seq<real>): real {
    if |ws| == 0 then 0.0 else ws[0] + Sum(ws[1..])
  }

  /** Non-negative weights times percentages sum to at most 100 times the
      weights' sum. */
  lemma {:induction false} DotBetween(ws: seq<real>, cs: seq<real>)
    requires |ws| == |cs|
    requires forall i :: 0 <= i < |ws| ==> ws[i] >= 0.0 && Percent(cs[i])
    ensures 0.0 <= Dot(ws, cs) <= 100.0 * Sum(ws)
  {
    if |ws| > 0 {
      var x := ws[0] * cs[0];
      ScaledBetween(ws[0], cs[0]);
      DotBetween(ws[1..], cs[1..]);
      assert Dot(ws, cs) == x + Dot(ws[1..], cs[1..]);
      StepBetween(x, Dot(ws[1..], cs[1..]), ws[0], Sum(ws[1..]), Dot(ws, cs), Sum(ws));
    }
  }

  lemma StepBetween(x: real, y: real, v: real, w: real, total: real, weight: real)
    requires 0.0 <= x <= 100.0 * v && 0.0 <= y <= 100.0 * w
    requires total == x + y && weight == v + w
    ensures 0.0 <= total <= 100.0 * weight
  {
  }

  /** The overall percentage lies in [0, 100] whenever the steps'
      percentages do. */
  lemma OverallIsPercent(steps: seq<Step>)
    requires forall i :: 0 <= i < |steps| ==> Percent(steps[i].progress)
    ensures Percent(Overall(steps))
  {
    if |steps| > 0 {
      var n := |steps|;
      WeightedTotalBetween(steps, n);
      QuotientBetween(WeightedTotal(steps, n), TotalWeight(steps, n));
    }
  }

  lemma {:induction false} AllCompletedTotal(steps: seq<Step>, n: nat)
    requires n > 0
    requires forall i :: 0 <= i < |steps| ==> steps[i].status == Completed
    ensures WeightedTotal(steps, n) == 100.0 * TotalWeight(steps, n)
  {
    if |steps| > 0 {
      AllCompletedTotal(steps[1..], n);
    }
  }

  lemma {:induction false} NoneStartedTotal(steps: seq<Step>, n: nat)
    requires n > 0
    requires forall i :: 0 <= i < |steps| ==> steps[i].status != Completed && steps[i].status != InProgress
    ensures WeightedTotal(steps, n) == 0.0
  {
    if |steps| > 0 {
      NoneStartedTotal(steps[1..], n);
    }
  }

  lemma FullQuotient(total: real, weight: real)
    requires weight > 0.0 && total == 100.0 * weight
    ensures total / weight == 100.0
  {
  }

  /** Every step completed means 100 percent, whatever the weights. */
  lemma AllCompletedIsFull(steps: seq<Step>)
    requires |steps| > 0
    requires forall i :: 0 <= i < |steps| ==> steps[i].status == Completed
    ensures Overall(steps) == 100.0
  {
    var n := |steps|;
    AllCompletedTotal(steps, n);
    FullQuotient(WeightedTotal(steps, n), TotalWeight(steps, n));
  }

  /** No step completed or in progress means 0 percent. */
  lemma NoneStartedIsEmpty(steps: seq<Step>)
    requires forall i :: 0 <= i < |steps| ==> steps[i].status != Completed && steps[i].status != InProgress
    ensures Overall(steps) == 0.0
  {
    if |steps| > 0 {
      NoneStartedTotal(steps, |steps|);
    }
  }

  // ---------------------------------------------------------------------
  // Sessions and steps
  // ---------------------------------------------------------------------

  /** `initialize_progress` for one session: the four default stages,
      pending at 0, the session itself in progress. */
  function NewSession(id: string, now: real): (s: Session)
    ensures s.id == id && s.status == InProgress && s.overall == 0.0 && s.errors == []
    ensures |s.steps| == |DefaultSteps|
    ensures forall i :: 0 <= i < |s.steps| ==> s.steps[i] == Fresh(DefaultSteps[i])
    ensures Valid(s)
  {
    Session(id, 0.0, InProgress, now, None, seq(|DefaultSteps|, i requires 0 <= i < |DefaultSteps| => Fresh(DefaultSteps[i])), [])
  }

  /** The default stages' weights add up to 1, so for a fresh session the
      overall percentage is the plain weighted sum. */
  lemma DefaultWeightsSumToOne(id: string, now: real)
    ensures TotalWeight(NewSession(id, now).steps, 4) == 1.0
  {
    var steps := NewSession(id, now).steps;
    assert steps[3..] == [steps[3]] && steps[3..][1..] == [];
    assert TotalWeight(steps[3..], 4) == 0.1;
    assert steps[2..][1..] == steps[3..];
    assert TotalWeight(steps[2..], 4) == 0.4 + 0.1;
    assert steps[1..][1..] == steps[2..];
    assert TotalWeight(steps[1..], 4) == 0.2 + 0.4 + 0.1;
  }

  /** `initialize_progress`: creates or replaces the session; no other
      session changes. */
  function Initialize(t: Sessions, id: string, now: real): (r: Sessions)
    ensures id in r && r[id].status == InProgress && |r[id].steps| == 4 && r[id].errors == []
    ensures r[id] == NewSession(id, now)
    ensures r[id].overall == 0.0 && r[id].startTime == now && r[id].endTime.None?
    ensures forall i :: 0 <= i < 4 ==> r[id].steps[i] == Step(DefaultSteps[i], Pending, 0.0, None, None, None)
    ensures forall k :: k != id ==> (k in r <==> k in t) && (k in t ==> r[k] == t[k])
    ensures ValidTracker(t) ==> ValidTracker(r)
  {
    t[id := NewSession(id, now)]
  }

  /** The position of the step called `name`. */
  function FindStep(steps: seq<Step>, name: string): (r: Option<nat>)
    ensures r.Some? ==> r.value < |steps| && steps[r.value].name == name
    ensures r.None? <==> forall i :: 0 <= i < |steps| ==> steps[i].name != name
  {
    if |steps| == 0 then None
    else if steps[|steps| - 1].name == name then
      match FindStep(steps[..|steps| - 1], name)
      case Some(i) => Some(i)
      case None => Some(|steps| - 1)
    else FindStep(steps[..|steps| - 1], name)
  }

  /** The status change of `update_step` on one step: the percentage is
      clamped; the start time is recorded on the first move into
      progress only, the end time on a move to completed or error. */
  function Transition(s: Step, status: string, progress: real, now: real): (r: Step)
    ensures r.name == s.name && r.status == status && Percent(r.progress)
    ensures Percent(progress) ==> r.progress == progress
    ensures s.startTime.Some? ==> r.startTime == s.startTime
    ensures r.startTime != s.startTime <==> s.status != status && status == InProgress && s.startTime.None?
    ensures r.endTime != Some(now) ==> r.endTime == s.endTime
    ensures s.status != status && (status == Completed || status == Error) ==> r.endTime == Some(now)
    ensures status == InProgress || s.status == status ==> r.endTime == s.endTime
    ensures r.errorMessage == s.errorMessage
  {
    var stamped :=
      if s.status == status then s
      else if status == InProgress && s.startTime.None? then s.(startTime := Some(now))
      else if status == Completed || status == Error then s.(endTime := Some(now))
      else s;
    stamped.(status := status, progress := Clamp(progress, 0.0, 100.0))
  }

  /** Re-entering progress after a pause keeps the first start time: a
      step's start time, once set, never moves. */
  lemma StartTimeSetOnce(s: Step, status1: string, p1: real, t1: real, status2: string, p2: real, t2: real)
    requires Transition(s, status1, p1, t1).startTime.Some?
    ensures Transition(Transition(s, status1, p1, t1), status2, p2, t2).startTime ==
      Transition(s, status1, p1, t1).startTime
  {
  }

  /** The steps after `update_step`: the named step is transformed, an
      unknown one is appended as a fresh pending step first. */
  function SetStep(steps: seq<Step>, name: string, status: string, progress: real, now: real): (r: seq<Step>)
    ensures FindStep(steps, name).Some? ==> |r| == |steps|
    ensures FindStep(steps, name).None? ==> |r| == |steps| + 1 && r[|steps|] == Transition(Fresh(name), status, progress, now)
    ensures FindStep(steps, name).Some? ==>
      r[FindStep(steps, name).value] == Transition(steps[FindStep(steps, name).value], status, progress, now)
    ensures forall i :: 0 <= i < |steps| && steps[i].name != name ==> r[i] == steps[i]
    ensures forall i :: 0 <= i < |r| ==> r[i].name == (if i < |steps| then steps[i].name else name)
  {
    match FindStep(steps, name)
    case Some(i) => steps[i := Transition(steps[i], status, progress, now)]
    case None => steps + [Transition(Fresh(name), status, progress, now)]
  }

  lemma SetStepKeepsValid(steps: seq<Step>, name: string, status: string, progress: real, now: real)
    requires UniqueNames(steps)
    requires forall i :: 0 <= i < |steps| ==> Percent(steps[i].progress)
    ensures UniqueNames(SetStep(steps, name, status, progress, now))
    ensures forall i :: 0 <= i < |SetStep(steps, name, status, progress, now)| ==>
      Percent(SetStep(steps, name, status, progress, now)[i].progress)
  {
  }

  /** `update_step`, sequentially: an unknown session is initialised, an
      unknown step created, the step moved to `status` with its
      percentage clamped, and the overall percentage recomputed. No other
      session changes. */
  function UpdateStep(t: Sessions, id: string, name: string, status: string, progress: real, now: real): (r: Sessions)
    requires ValidTracker(t)
    ensures ValidTracker(r)
    ensures id in r && StepIs(r[id].steps, name, status, Clamp(progress, 0.0, 100.0))
    ensures r[id].overall == Overall(r[id].steps)
    ensures r[id].steps == SetStep(Before(t, id, now).steps, name, status, progress, now)
    ensures r[id].(steps := Before(t, id, now).steps, overall := Before(t, id, now).overall) == Before(t, id, now)
    ensures forall k :: k != id ==> (k in r <==> k in t) && (k in t ==> r[k] == t[k])
  {
    var base := if id in t then t else Initialize(t, id, now);
    var s := StepUpdated(base[id], name, status, progress, now);
    ReplaceKeepsValid(base, id, s);
    base[id := s]
  }

  /** The session an update or an error report starts from: the stored
      one, or a freshly initialised one for an unknown id. */
  function Before(t: Sessions, id: string, now: real): Session {
    if id in t then t[id] else NewSession(id, now)
  }

  /** What `update_step` does to a known step, in terms of its parts:
      that step makes the `Transition`, every other step and the
      session's status, errors and times stay as they were. */
  lemma {:induction false} UpdateStepTransition(t: Sessions, id: string, name: string, status: string, progress: real, now: real)
    requires ValidTracker(t) && id in t && FindStep(t[id].steps, name).Some?
    ensures var i := FindStep(t[id].steps, name).value;
      var r := UpdateStep(t, id, name, status, progress, now)[id];
      && |r.steps| == |t[id].steps|
      && r.steps[i] == Transition(t[id].steps[i], status, progress, now)
      && (forall j :: 0 <= j < |r.steps| && j != i ==> r.steps[j] == t[id].steps[j])
      && r.status == t[id].status && r.errors == t[id].errors
      && r.startTime == t[id].startTime && r.endTime == t[id].endTime
  {
    var i := FindStep(t[id].steps, name).value;
    var r := UpdateStep(t, id, name, status, progress, now)[id];
    assert r.steps == SetStep(t[id].steps, name, status, progress, now);
    forall j | 0 <= j < |r.steps| && j != i
      ensures r.steps[j] == t[id].steps[j]
    {
      assert t[id].steps[j].name != name by {
        assert t[id].steps[i].name == name;
      }
    }
  }

  /** Putting a valid session back under its own id keeps the tracker
      valid. */
  lemma ReplaceKeepsValid(t: Sessions, id: string, s: Session)
    requires ValidTracker(t) && id in t && s.id == id && Valid(s)
    ensures ValidTracker(t[id := s])
  {
  }

  /** The step called `name` is present with this status and percentage. */
  predicate StepIs(steps: seq<Step>, name: string, status: string, progress: real) {
    FindStep(steps, name).Some? &&
    steps[FindStep(steps, name).value].status == status &&
    steps[FindStep(steps, name).value].progress == progress
  }

  /** One session after `update_step`. */
  function StepUpdated(s: Session, name: string, status: string, progress: real, now: real): (r: Session)
    requires Valid(s)
    ensures Valid(r) && r.id == s.id
    ensures StepIs(r.steps, name, status, Clamp(progress, 0.0, 100.0))
    ensures r.overall == Overall(r.steps)
    ensures r.steps == SetStep(s.steps, name, status, progress, now)
    ensures r.(steps := s.steps, overall := s.overall) == s
  {
    var steps := SetStep(s.steps, name, status, progress, now);
    SetStepKeepsValid(s.steps, name, status, progress, now);
    OverallIsPercent(steps);
    StepFound(s.steps, name, status, progress, now);
    s.(steps := steps, overall := Overall(steps))
  }

  /** After `SetStep` the step is found where it was put. */
  lemma StepFound(steps: seq<Step>, name: string, status: string, progress: real, now: real)
    requires UniqueNames(steps)
    ensures FindStep(SetStep(steps, name, status, progress, now), name).Some?
    ensures FindStep(SetStep(steps, name, status, progress, now), name) ==
      Some(if FindStep(steps, name).Some? then FindStep(steps, name).value else |steps|)
  {
    var r := SetStep(steps, name, status, progress, now);
    var i := if FindStep(steps, name).Some? then FindStep(steps, name).value else |steps|;
    assert r[i].name == name;
    UniqueFind(SetStep(steps, name, status, progress, now), name, i);
  }

  /** With distinct names, the position found is the only one. */
  lemma UniqueFind(steps: seq<Step>, name: string, i: nat)
    requires UniqueNames(steps) && i < |steps| && steps[i].name == name
    ensures FindStep(steps, name) == Some(i)
  {
  }

  /** `add_error`, sequentially: an unknown session is initialised, one
      stamped message is appended and the session is marked as failed. */
  function AddError(t: Sessions, id: string, message: string, stamp: string, now: real): (r: Sessions)
    requires ValidTracker(t)
    ensures ValidTracker(r)
    ensures id in r && r[id].status == Error
    ensures id in t ==> r[id].errors == t[id].errors + ["[" + stamp + "] " + message]
    ensures id !in t ==> r[id].errors == ["[" + stamp + "] " + message]
    ensures id in t ==> r[id].steps == t[id].steps && r[id].overall == t[id].overall
    ensures r[id] == Before(t, id, now).(errors := Before(t, id, now).errors + ["[" + stamp + "] " + message], status := Error)
    ensures forall k :: k != id ==> (k in r <==> k in t) && (k in t ==> r[k] == t[k])
  {
    var base := if id in t then t else Initialize(t, id, now);
    var s := base[id];
    base[id := s.(errors := s.errors + ["[" + stamp + "] " + message], status := Error)]
  }

  /** `set_overall_progress`: nothing for an unknown session; otherwise
      the clamped value, and 100 or more completes the session. */
  function SetOverall(t: Sessions, id: string, progress: real, now: real): (r: Sessions)
    requires ValidTracker(t)
    ensures ValidTracker(r)
    ensures id !in t ==> r == t
    ensures id in t ==> id in r && r[id].overall == Clamp(progress, 0.0, 100.0) && r[id].steps == t[id].steps
    ensures id in t && progress >= 100.0 ==> r[id].status == Completed && r[id].endTime == Some(now)
    ensures id in t && progress < 100.0 ==> r[id].status == t[id].status && r[id].endTime == t[id].endTime
    ensures forall k :: k != id ==> (k in r <==> k in t) && (k in t ==> r[k] == t[k])
  {
    if id !in t then t
    else
      var s := t[id].(overall := Clamp(progress, 0.0, 100.0));
      t[id := if progress >= 100.0 then s.(status := Completed, endTime := Some(now)) else s]
  }

  // ---------------------------------------------------------------------
  // Queries
  // ---------------------------------------------------------------------

  /** `_estimate_remaining_time`: nothing before any progress, nothing
      left at 100 percent, otherwise the time still to go if the rate so
      far continues, never negative. */
  function Remaining(overall: real, elapsed: real): (r: Option<real>)
    ensures r.None? <==> overall <= 0.0
    ensures r.Some? ==> r.value >= 0.0
    ensures overall >= 100.0 ==> r == Some(0.0)
    ensures 0.0 < overall < 100.0 && elapsed >= 0.0 ==>
      r.value * overall == elapsed * (100.0 - overall)
  {
    if overall <= 0.0 then None
    else if overall >= 100.0 then Some(0.0)
    else
      var remaining := elapsed * (100.0 / overall) - elapsed;
      if remaining < 0.0 then Some(0.0) else Some(remaining)
  }

  /** What `get_progress` reports: the session and the estimate. */
  datatype Progress = Progress(session: Session, remaining: Option<real>)

  function GetProgress(t: Sessions, id: string, now: real): (r: Option<Progress>)
    ensures r.Some? <==> id in t
    ensures r.Some? ==>
      r.value.session == t[id] && r.value.remaining == Remaining(t[id].overall, now - t[id].startTime)
  {
    if id in t then Some(Progress(t[id], Remaining(t[id].overall, now - t[id].startTime))) else None
  }

  /** `get_all_sessions` with the sequential semantics: every session's
      report. */
  function AllSessions(t: Sessions, now: real): (r: map<string, Progress>)
    ensures r.Keys == t.Keys
    ensures forall k :: k in r ==> Some(r[k]) == GetProgress(t, k, now)
  {
    map k | k in t :: GetProgress(t, k, now).value
  }

  /** `cleanup_session`: true exactly when the session existed; it is
      gone afterwards and nothing else changes. */
  function CleanupSession(t: Sessions, id: string): (r: (bool, Sessions))
    ensures r.0 <==> id in t
    ensures id !in r.1
    ensures forall k :: k != id ==> (k in r.1 <==> k in t) && (k in t ==> r.1[k] == t[k])
  {
    (id in t, t - {id})
  }

  /** A session's age in hours. */
  function AgeHours(s: Session, now: real): real {
    (now - s.startTime) / 3600.0
  }

  /** The sessions strictly older than the limit. */
  function Stale(t: Sessions, now: real, maxAgeHours: int): set<string> {
    set k | k in t && AgeHours(t[k], now) > maxAgeHours as real
  }

  /** `cleanup_old_sessions`: removes exactly the sessions strictly older
      than the limit and reports how many went; the count and the
      survivors make up the whole. */
  function CleanupOld(t: Sessions, now: real, maxAgeHours: int): (r: (nat, Sessions))
    ensures forall k :: k in r.1 <==> k in t && AgeHours(t[k], now) <= maxAgeHours as real
    ensures forall k :: k in r.1 ==> r.1[k] == t[k]
    ensures r.0 == |Stale(t, now, maxAgeHours)|
    ensures r.0 + |r.1| == |t|
  {
    var stale := Stale(t, now, maxAgeHours);
    var rest := t - stale;
    assert t.Keys == stale + rest.Keys;
    assert stale * rest.Keys == {};
    (|stale|, rest)
  }

  /** The number of completed steps. */
  function CompletedCount(steps: seq<Step>): (r: nat)
    ensures r <= |steps|
  {
    if |steps| == 0 then 0
    else (if steps[0].status == Completed then 1 else 0) + CompletedCount(steps[1..])
  }

  lemma {:induction false} CompletedCountFull(steps: seq<Step>)
    ensures CompletedCount(steps) == |steps| <==> forall i :: 0 <= i < |steps| ==> steps[i].status == Completed
  {
    if |steps| > 0 {
      CompletedCountFull(steps[1..]);
      assert forall i :: 1 <= i < |steps| ==> steps[i] == steps[1..][i - 1];
    }
  }

  /** `get_session_summary`. */
  datatype Summary = Summary(
    id: string,
    overall: real,
    status: string,
    completedSteps: nat,
    totalSteps: nat,
    errorCount: nat,
    remaining: Option<real>)

  function SessionSummary(t: Sessions, id: string, now: real): (r: Option<Summary>)
    ensures r.Some? <==> id in t
    ensures r.Some? ==> r.value.completedSteps <= r.value.totalSteps == |t[id].steps|
    ensures r.Some? ==> r.value.errorCount == |t[id].errors|
    ensures r.Some? ==> (r.value.completedSteps == r.value.totalSteps <==>
      forall i :: 0 <= i < |t[id].steps| ==> t[id].steps[i].status == Completed)
  {
    match GetProgress(t, id, now)
    case None => None
    case Some(p) =>
      CompletedCountFull(p.session.steps);
      Some(Summary(id, p.session.overall, p.session.status, CompletedCount(p.session.steps),
                   |p.session.steps|, |p.session.errors|, p.remaining))
  }

  // ---------------------------------------------------------------------
  // The lock as written
  // ---------------------------------------------------------------------

  /** A call under the tracker's lock: it either returns or blocks
      forever on a second acquisition of the non-reentrant lock. */
  datatype Locked<T> = Done(value: T) | Blocked

  /** `update_step` as written: for an unknown session it calls
      `initialize_progress`, which takes the lock it already holds. */
  function UpdateStepAsWritten(t: Sessions, id: string, name: string, status: string, progress: real, now: real): (r: Locked<Sessions>)
    requires ValidTracker(t)
    ensures r.Blocked? <==> id !in t
    ensures r.Done? ==> r.value == UpdateStep(t, id, name, status, progress, now)
  {
    if id !in t then Blocked else Done(UpdateStep(t, id, name, status, progress, now))
  }

  /** `add_error` as written: the same re-entry for an unknown session. */
  function AddErrorAsWritten(t: Sessions, id: string, message: string, stamp: string, now: real): (r: Locked<Sessions>)
    requires ValidTracker(t)
    ensures r.Blocked? <==> id !in t
    ensures r.Done? ==> r.value == AddError(t, id, message, stamp, now)
  {
    if id !in t then Blocked else Done(AddError(t, id, message, stamp, now))
  }

  /** `get_all_sessions` as written: `get_progress` takes the lock again
      for the first session, so only an empty tracker answers. */
  function AllSessionsAsWritten(t: Sessions, now: real): (r: Locked<map<string, Progress>>)
    ensures r.Blocked? <==> |t| > 0
    ensures r.Done? ==> r.value == AllSessions(t, now)
  {
    if |t| > 0 then Blocked else Done(map[])
  }

  /** On a tracker that does not know the session yet, a step update or an
      error report blocks, where the sequential semantics creates the
      session. */
  lemma FirstUpdateBlocks(id: string, name: string, status: string, progress: real, now: real)
    ensures UpdateStepAsWritten(map[], id, name, status, progress, now).Blocked?
    ensures AddErrorAsWritten(map[], id, name, "00:00:00", now).Blocked?
    ensures id in UpdateStep(map[], id, name, status, progress, now)
  {
  }

  /** Listing sessions blocks as soon as there is one. */
  lemma ListingBlocks(id: string, now: real)
    ensures AllSessionsAsWritten(Initialize(map[], id, now), now).Blocked?
    ensures id in AllSessions(Initialize(map[], id, now), now)
  {
  }
}
