/** The health of a backend as a function of the marks it was given, in the order in which the
    router's mutex admitted them (internal/provider/router/chat.go). */
module Health {
  import opened Wrappers

  type Time = int

  /** One critical section of a mark method: who was marked, how, and when. */
  datatype Mark =
    | Succeeded(name: string)
    | Failed(name: string, at: Time)
    | ProbeSucceeded(name: string, probedAt: Time)
    | ProbeFailed(name: string, at: Time, probedAt: Time, error: string)

  datatype BackendState = BackendState(
    consecutiveFailures: nat, unhealthyUntil: Option<Time>, lastProbeAt: Option<Time>, lastProbeError: string)

  const UNMARKED := BackendState(0, None, None, "")

  /** When a backend stops being tried, and for how long. */
  datatype Limits = Limits(failureThreshold: nat, cooldown: Time)

  predicate IsSuccess(m: Mark, name: string) {
    m.name == name && (m.Succeeded? || m.ProbeSucceeded?)
  }

  predicate IsFailure(m: Mark, name: string) {
    m.name == name && (m.Failed? || m.ProbeFailed?)
  }

  // ---- What a history says ----

  /** The position after the last success of name among the first n marks, or 0. */
  function AfterLastSuccess(h: seq<Mark>, n: nat, name: string): (k: nat)
    requires n <= |h|
    ensures k <= n
    ensures k > 0 ==> IsSuccess(h[k - 1], name)
    ensures forall i :: k <= i < n ==> !IsSuccess(h[i], name)
  {
    if n == 0 || IsSuccess(h[n - 1], name) then n else AfterLastSuccess(h, n - 1, name)
  }

  /** The failures of name at positions from k to n. */
  function CountFailures(h: seq<Mark>, k: nat, n: nat, name: string): nat
    requires k <= n <= |h|
  {
    if k == n then 0 else CountFailures(h, k, n - 1, name) + (if IsFailure(h[n - 1], name) then 1 else 0)
  }

  /** The failures of name since its last success. */
  function Failures(h: seq<Mark>, name: string): nat {
    CountFailures(h, AfterLastSuccess(h, |h|, name), |h|, name)
  }

  function LastFailureAt(h: seq<Mark>, n: nat, name: string): Option<Time>
    requires n <= |h|
  {
    if n == 0 then None
    else if IsFailure(h[n - 1], name) then Some(h[n - 1].at)
    else LastFailureAt(h, n - 1, name)
  }

  /** The end of the cooldown: counted from the last failure, once there are enough of them. */
  function UnhealthyUntil(h: seq<Mark>, name: string, limits: Limits): Option<Time> {
    var last := LastFailureAt(h, |h|, name);
    if Failures(h, name) >= limits.failureThreshold && last.Some? then Some(last.value + limits.cooldown) else None
  }

  function LastProbeAt(h: seq<Mark>, n: nat, name: string): Option<Time>
    requires n <= |h|
  {
    if n == 0 then None
    else
      var m := h[n - 1];
      if m.name == name && (m.ProbeSucceeded? || m.ProbeFailed?) then Some(m.probedAt)
      else LastProbeAt(h, n - 1, name)
  }

  /** The error of the last failed probe from position k on. */
  function ProbeErrorFrom(h: seq<Mark>, k: nat, n: nat, name: string): string
    requires k <= n <= |h|
  {
    if k == n then ""
    else if h[n - 1].name == name && h[n - 1].ProbeFailed? then h[n - 1].error
    else ProbeErrorFrom(h, k, n - 1, name)
  }

  function HealthOf(h: seq<Mark>, name: string, limits: Limits): BackendState {
    BackendState(
      Failures(h, name),
      UnhealthyUntil(h, name, limits),
      LastProbeAt(h, |h|, name),
      ProbeErrorFrom(h, AfterLastSuccess(h, |h|, name), |h|, name))
  }

  predicate CoolingDown(s: BackendState, now: Time) {
    s.unhealthyUntil.Some? && s.unhealthyUntil.value > now
  }

  // ---- One mark more ----

  /** What a mark method does to the state of the backend it marks. */
  function Marked(s: BackendState, m: Mark, limits: Limits): BackendState {
    match m
    case Succeeded(_) => BackendState(0, None, s.lastProbeAt, "")
    case ProbeSucceeded(_, probedAt) => BackendState(0, None, Some(probedAt), "")
    case Failed(_, at) =>
      var failures := s.consecutiveFailures + 1;
      s.(consecutiveFailures := failures,
         unhealthyUntil := if failures >= limits.failureThreshold then Some(at + limits.cooldown) else s.unhealthyUntil)
    case ProbeFailed(_, at, probedAt, error) =>
      var failures := s.consecutiveFailures + 1;
      BackendState(failures,
                   if failures >= limits.failureThreshold then Some(at + limits.cooldown) else s.unhealthyUntil,
                   Some(probedAt), error)
  }

  lemma {:induction false} Extend(h: seq<Mark>, m: Mark, k: nat, n: nat, name: string)
    requires k <= n <= |h|
    ensures AfterLastSuccess(h + [m], n, name) == AfterLastSuccess(h, n, name)
    ensures CountFailures(h + [m], k, n, name) == CountFailures(h, k, n, name)
    ensures LastFailureAt(h + [m], n, name) == LastFailureAt(h, n, name)
    ensures LastProbeAt(h + [m], n, name) == LastProbeAt(h, n, name)
    ensures ProbeErrorFrom(h + [m], k, n, name) == ProbeErrorFrom(h, k, n, name)
    decreases n
  {
    if n > 0 {
      assert (h + [m])[n - 1] == h[n - 1];
      Extend(h, m, if k == n then 0 else k, n - 1, name);
    }
  }

  /** Marks of other backends leave a backend's health alone. */
  lemma OtherMarks(h: seq<Mark>, m: Mark, name: string, limits: Limits)
    requires m.name != name
    ensures HealthOf(h + [m], name, limits) == HealthOf(h, name, limits)
  {
    assert (h + [m])[|h|] == m;
    Extend(h, m, AfterLastSuccess(h, |h|, name), |h|, name);
  }

  lemma {:induction false} FailureHasTime(h: seq<Mark>, k: nat, n: nat, name: string)
    requires k <= n <= |h| && CountFailures(h, k, n, name) > 0
    ensures LastFailureAt(h, n, name).Some?
  {
    if !IsFailure(h[n - 1], name) {
      FailureHasTime(h, k, n - 1, name);
    }
  }

  lemma SuccessMarks(h: seq<Mark>, m: Mark, limits: Limits)
    requires limits.failureThreshold >= 1 && IsSuccess(m, m.name)
    ensures HealthOf(h + [m], m.name, limits) == Marked(HealthOf(h, m.name, limits), m, limits)
  {
    assert (h + [m])[|h|] == m;
    Extend(h, m, 0, |h|, m.name);
    assert AfterLastSuccess(h + [m], |h| + 1, m.name) == |h| + 1;
  }

  lemma FailureMarks(h: seq<Mark>, m: Mark, limits: Limits)
    requires limits.failureThreshold >= 1 && IsFailure(m, m.name)
    ensures HealthOf(h + [m], m.name, limits) == Marked(HealthOf(h, m.name, limits), m, limits)
  {
    var name, k := m.name, AfterLastSuccess(h, |h|, m.name);
    assert (h + [m])[|h|] == m;
    Extend(h, m, k, |h|, name);
    assert AfterLastSuccess(h + [m], |h| + 1, name) == k;
    assert LastFailureAt(h + [m], |h| + 1, name) == Some(m.at);
  }

  /** Health follows the history mark by mark: the marked backend moves as the mark methods say,
      and every other backend stays. */
  lemma HealthIsIncremental(h: seq<Mark>, m: Mark, name: string, limits: Limits)
    requires limits.failureThreshold >= 1
    ensures HealthOf(h + [m], name, limits) ==
            if m.name == name then Marked(HealthOf(h, name, limits), m, limits) else HealthOf(h, name, limits)
  {
    hide HealthOf, Marked;
    if m.name != name {
      OtherMarks(h, m, name, limits);
    } else if IsSuccess(m, name) {
      SuccessMarks(h, m, limits);
    } else {
      FailureMarks(h, m, limits);
    }
  }

  /** What one mark does to each part of its backend's health. */
  lemma MarksMean(h: seq<Mark>, m: Mark, limits: Limits)
    requires limits.failureThreshold >= 1
    ensures
      var before, after := HealthOf(h, m.name, limits), HealthOf(h + [m], m.name, limits);
      && (m.Succeeded? || m.ProbeSucceeded? ==> after.consecutiveFailures == 0 && after.unhealthyUntil == None && after.lastProbeError == "")
      && (m.Failed? || m.ProbeFailed? ==>
            && after.consecutiveFailures == before.consecutiveFailures + 1
            && after.unhealthyUntil == (if after.consecutiveFailures >= limits.failureThreshold then Some(m.at + limits.cooldown)
                                        else before.unhealthyUntil))
      && (m.ProbeSucceeded? || m.ProbeFailed? ==> after.lastProbeAt == Some(m.probedAt))
      && (m.Succeeded? || m.Failed? ==> after.lastProbeAt == before.lastProbeAt)
      && (m.ProbeFailed? ==> after.lastProbeError == m.error)
      && (m.Failed? ==> after.lastProbeError == before.lastProbeError)
  {
    hide HealthOf;
    HealthIsIncremental(h, m, m.name, limits);
  }

  /** A cooldown is set exactly when the failures since the last success reach the threshold, and
      then it ends one cooldown after the last failure. */
  lemma CooldownIsExact(h: seq<Mark>, name: string, limits: Limits)
    requires limits.failureThreshold >= 1
    ensures var s := HealthOf(h, name, limits);
            && (s.unhealthyUntil.Some? <==> s.consecutiveFailures >= limits.failureThreshold)
            && (s.unhealthyUntil.Some? ==>
                  exists i :: && 0 <= i < |h| && IsFailure(h[i], name)
                              && (forall j :: i < j < |h| ==> h[j].name != name)
                              && s.unhealthyUntil == Some(h[i].at + limits.cooldown))
  {
    var k := AfterLastSuccess(h, |h|, name);
    if Failures(h, name) >= limits.failureThreshold {
      FailureHasTime(h, k, |h|, name);
      LastFailureIsLast(h, |h|, k, name);
    }
  }

  lemma {:induction false} LastFailureIsLast(h: seq<Mark>, n: nat, k: nat, name: string)
    requires k <= n <= |h| && CountFailures(h, k, n, name) > 0
    requires forall i :: k <= i < n ==> !IsSuccess(h[i], name)
    ensures exists i :: && 0 <= i < n && IsFailure(h[i], name)
                        && (forall j :: i < j < n ==> h[j].name != name)
                        && LastFailureAt(h, n, name) == Some(h[i].at)
  {
    if !IsFailure(h[n - 1], name) {
      LastFailureIsLast(h, n - 1, k, name);
    }
  }
}
