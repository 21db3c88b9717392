/** What the router's decisions amount to over whole requests (internal/provider/router/chat.go). */
module RouterLaws {
  import opened Wrappers
  import opened Text
  import opened Ranking
  import opened Health
  import opened Provider
  import opened Fallback

  // ---- Candidates ----

  /** sub is what is left of xs at the increasing positions at. */
  predicate PickedAt<T(==)>(at: seq<nat>, sub: seq<T>, xs: seq<T>) {
    && |at| == |sub|
    && (forall i :: 0 <= i < |at| ==> at[i] < |xs| && xs[at[i]] == sub[i])
    && (forall i, j :: 0 <= i < j < |at| ==> at[i] < at[j])
  }

  ghost predicate InOrder<T(!new)>(sub: seq<T>, xs: seq<T>) {
    exists at :: PickedAt(at, sub, xs)
  }

  predicate Cools(b: Backend, h: seq<Mark>, limits: Limits, now: Time) {
    CoolingDown(HealthOf(h, b.name, limits), now)
  }

  lemma {:induction false} SplitPicks(ranked: seq<Backend>, n: nat, cooling: bool, h: seq<Mark>, limits: Limits, now: Time)
    returns (at: seq<nat>)
    requires n <= |ranked|
    ensures PickedAt(at, Split(ranked, n, cooling, h, limits, now), ranked)
    ensures forall i :: 0 <= i < |at| ==> at[i] < n
    ensures forall b :: b in Split(ranked, n, cooling, h, limits, now) ==> Cools(b, h, limits, now) == cooling
  {
    hide HealthOf, CoolingDown;
    at := [];
    if n > 0 {
      at := SplitPicks(ranked, n - 1, cooling, h, limits, now);
      if Cools(ranked[n - 1], h, limits, now) == cooling {
        at := at + [n - 1];
      }
    }
  }

  lemma {:induction false} SplitKeepsCount(ranked: seq<Backend>, n: nat, h: seq<Mark>, limits: Limits, now: Time, b: Backend)
    requires n <= |ranked|
    ensures multiset(Split(ranked, n, false, h, limits, now))[b] + multiset(Split(ranked, n, true, h, limits, now))[b]
         == multiset(ranked[..n])[b]
  {
    hide Split, Cools, HealthOf;
    if n == 0 {
      SplitOfNone(ranked, h, limits, now);
    } else {
      SplitKeepsCount(ranked, n - 1, h, limits, now, b);
      var x, front := ranked[n - 1], ranked[..n - 1];
      var cools := Cools(x, h, limits, now);
      SplitStep(ranked, n - 1, cools, h, limits, now);
      var part, rest := Split(ranked, n - 1, cools, h, limits, now), Split(ranked, n - 1, !cools, h, limits, now);
      assert Counted(part, rest, front, b);
      CountedStep(part, rest, front, x, b);
      assert ranked[..n] == front + [x];
      assert Counted(Split(ranked, n, cools, h, limits, now), Split(ranked, n, !cools, h, limits, now), ranked[..n], b);
    }
  }

  lemma SplitOfNone(ranked: seq<Backend>, h: seq<Mark>, limits: Limits, now: Time)
    ensures forall cooling :: Split(ranked, 0, cooling, h, limits, now) == []
  {
  }

  predicate Counted<T(==)>(part: seq<T>, rest: seq<T>, whole: seq<T>, b: T) {
    multiset(part)[b] + multiset(rest)[b] == multiset(whole)[b]
  }

  lemma CountedStep<T>(part: seq<T>, rest: seq<T>, whole: seq<T>, x: T, b: T)
    requires Counted(part, rest, whole, b)
    ensures Counted(part + [x], rest, whole + [x], b)
  {
  }

  lemma SplitKeepsAll(ranked: seq<Backend>, h: seq<Mark>, limits: Limits, now: Time)
    ensures multiset(Split(ranked, |ranked|, false, h, limits, now)) + multiset(Split(ranked, |ranked|, true, h, limits, now))
         == multiset(ranked)
  {
    hide Split;
    var both := multiset(Split(ranked, |ranked|, false, h, limits, now)) + multiset(Split(ranked, |ranked|, true, h, limits, now));
    assert ranked[..|ranked|] == ranked;
    forall b ensures both[b] == multiset(ranked)[b] {
      SplitKeepsCount(ranked, |ranked|, h, limits, now, b);
    }
  }

  lemma SplitStep(ranked: seq<Backend>, n: nat, cools: bool, h: seq<Mark>, limits: Limits, now: Time)
    requires n < |ranked| && cools == Cools(ranked[n], h, limits, now)
    ensures Split(ranked, n + 1, cools, h, limits, now) == Split(ranked, n, cools, h, limits, now) + [ranked[n]]
    ensures Split(ranked, n + 1, !cools, h, limits, now) == Split(ranked, n, !cools, h, limits, now)
  {
    hide HealthOf, CoolingDown;
  }

  lemma {:induction false} SplitOfUniform(ranked: seq<Backend>, n: nat, cooling: bool, h: seq<Mark>, limits: Limits, now: Time)
    requires n <= |ranked|
    requires forall i :: 0 <= i < n ==> Cools(ranked[i], h, limits, now) == cooling
    ensures Split(ranked, n, cooling, h, limits, now) == ranked[..n]
    ensures Split(ranked, n, !cooling, h, limits, now) == []
  {
    hide HealthOf, CoolingDown;
    if n > 0 {
      SplitOfUniform(ranked, n - 1, cooling, h, limits, now);
      assert ranked[..n] == ranked[..n - 1] + [ranked[n - 1]];
    }
  }

  lemma {:induction false} SplitFinds(ranked: seq<Backend>, n: nat, cooling: bool, h: seq<Mark>, limits: Limits, now: Time, i: nat)
    requires i < n <= |ranked| && Cools(ranked[i], h, limits, now) == cooling
    ensures Split(ranked, n, cooling, h, limits, now) != []
  {
    hide HealthOf, CoolingDown;
    if i < n - 1 {
      SplitFinds(ranked, n - 1, cooling, h, limits, now, i);
    }
  }

  predicate AllCool(ranked: seq<Backend>, h: seq<Mark>, limits: Limits, now: Time) {
    forall i :: 0 <= i < |ranked| ==> Cools(ranked[i], h, limits, now)
  }

  /** Which of the two parts of the ranking the candidates are. */
  lemma SplitCases(ranked: seq<Backend>, h: seq<Mark>, limits: Limits, now: Time)
    ensures
      var open, cool := Split(ranked, |ranked|, false, h, limits, now), Split(ranked, |ranked|, true, h, limits, now);
      if AllCool(ranked, h, limits, now) then open == [] && cool == ranked else open != []
  {
    hide Split, Cools;
    if AllCool(ranked, h, limits, now) {
      SplitOfUniform(ranked, |ranked|, true, h, limits, now);
      assert ranked[..|ranked|] == ranked;
    } else {
      var i :| 0 <= i < |ranked| && !Cools(ranked[i], h, limits, now);
      SplitFinds(ranked, |ranked|, false, h, limits, now, i);
    }
  }

  lemma PartOfRanking(ranked: seq<Backend>, cooling: bool, h: seq<Mark>, limits: Limits, now: Time)
    ensures
      var part := Split(ranked, |ranked|, cooling, h, limits, now);
      InOrder(part, ranked) && forall b :: b in part ==> Cools(b, h, limits, now) == cooling
  {
    hide Split, Cools;
    var at := SplitPicks(ranked, |ranked|, cooling, h, limits, now);
  }

  /** Candidates and skipped backends partition the ranking and keep its order. A backend that cools
      down is skipped unless every ranked backend does, and then nothing is skipped. */
  lemma CandidateSplit(ranked: seq<Backend>, h: seq<Mark>, limits: Limits, now: Time)
    ensures
      var cands, skipped := CandidatesOf(ranked, h, limits, now), SkippedOf(ranked, h, limits, now);
      && InOrder(cands, ranked) && InOrder(skipped, ranked)
      && multiset(cands) + multiset(skipped) == multiset(ranked)
      && (forall b :: b in skipped ==> Cools(b, h, limits, now))
      && (if AllCool(ranked, h, limits, now) then cands == ranked && skipped == []
          else forall b :: b in cands ==> !Cools(b, h, limits, now))
  {
    hide Split, Cools, AllCool, InOrder;
    PartOfRanking(ranked, false, h, limits, now);
    PartOfRanking(ranked, true, h, limits, now);
    SplitKeepsAll(ranked, h, limits, now);
    SplitCases(ranked, h, limits, now);
    NothingInOrder(ranked);
    AllInOrder(ranked);
  }

  lemma NothingInOrder<T(!new)>(xs: seq<T>)
    ensures InOrder([], xs)
  {
    assert PickedAt([], [], xs);
  }

  lemma AllInOrder<T(!new)>(xs: seq<T>)
    ensures InOrder(xs, xs)
  {
    assert PickedAt(seq(|xs|, i requires 0 <= i < |xs| => i), xs, xs);
  }

  lemma {:induction false} RankedAreConfigured(backends: seq<Backend>, model: string)
    ensures forall b :: b in RankedBackends(backends, model) ==> b in backends
  {
    hide StableSort, Applicable, Normalize, PreferenceOf;
    var normalized := Normalize(model);
    RankingIsTheStableSort(backends, model, []);
    ApplicableMembers(backends, |backends|, normalized);
    forall b | b in RankedBackends(backends, model) ensures b in backends {
      var r :| r in RankedItems(backends, model) && r.backend == b;
      assert r in multiset(RankedItems(backends, model));
    }
  }

  /** When no backend is ready, a request for any model is tried on its whole ranking. */
  lemma NotReadyTriesAll(backends: seq<Backend>, model: string, h: seq<Mark>, limits: Limits, now: Time)
    requires AllCool(backends, h, limits, now)
    ensures CandidatesOf(RankedBackends(backends, model), h, limits, now) == RankedBackends(backends, model)
    ensures SkippedOf(RankedBackends(backends, model), h, limits, now) == []
  {
    hide CandidatesOf, SkippedOf, RankedBackends, Cools;
    RankedAreConfigured(backends, model);
    assert forall b :: b in backends ==> Cools(b, h, limits, now);
    assert forall i :: 0 <= i < |RankedBackends(backends, model)| ==> RankedBackends(backends, model)[i] in backends;
    CandidateSplit(RankedBackends(backends, model), h, limits, now);
  }

  // ---- Fallback ----

  /** Where the mark of refused candidate i stands among all marks of the refusals. */
  function OwnAt<T>(cands: seq<Backend>, script: Script<T>, i: nat): nat
    requires i < |cands|
  {
    |RefusedMarks(cands, script, i)| + |script(i, cands[i]).others|
  }

  lemma {:induction false} RefusedPrefix<T>(cands: seq<Backend>, script: Script<T>, i: nat, k: nat)
    requires i <= k <= |cands|
    ensures RefusedMarks(cands, script, i) <= RefusedMarks(cands, script, k)
  {
    if i < k {
      RefusedPrefix(cands, script, i, k - 1);
    }
  }

  /** A request marks each refused candidate once, in order, right after what other calls did during
      the attempt; all other marks are theirs. */
  lemma {:induction false} OneMarkEach<T>(cands: seq<Backend>, script: Script<T>, k: nat, i: nat)
    requires i < k <= |cands|
    ensures
      var marks, at, others := RefusedMarks(cands, script, k), OwnAt(cands, script, i), script(i, cands[i]).others;
      && at < |marks| && marks[at] == Failed(cands[i].name, script(i, cands[i]).failedAt)
      && marks[at - |others|..at] == others
      && at - |others| == (if i == 0 then 0 else OwnAt(cands, script, i - 1) + 1)
  {
    RefusedPrefix(cands, script, i + 1, k);
    var a, front := script(i, cands[i]), RefusedMarks(cands, script, i);
    var upTo := RefusedMarks(cands, script, i + 1);
    assert upTo == front + (a.others + [Failed(cands[i].name, a.failedAt)]);
    assert upTo[|front|..|front| + |a.others|] == a.others;
    if i > 0 {
      var b := script(i - 1, cands[i - 1]);
      assert front == RefusedMarks(cands, script, i - 1) + (b.others + [Failed(cands[i - 1].name, b.failedAt)]);
    }
  }

  /** No other call marks the backend during the first k attempts. */
  predicate LeftAlone<T>(cands: seq<Backend>, script: Script<T>, k: nat, name: string)
    requires k <= |cands|
  {
    forall i :: 0 <= i < k ==> NotMarked(script(i, cands[i]).others, name)
  }

  predicate NotMarked(marks: seq<Mark>, name: string) {
    forall j :: 0 <= j < |marks| ==> marks[j].name != name
  }

  /** How often the backend is among the first k candidates. */
  function Times(cands: seq<Backend>, k: nat, name: string): (n: nat)
    requires k <= |cands|
    ensures n == 0 <==> forall i :: 0 <= i < k ==> cands[i].name != name
  {
    if k == 0 then 0 else Times(cands, k - 1, name) + if cands[k - 1].name == name then 1 else 0
  }

  predicate DistinctBackends(cands: seq<Backend>) {
    forall i, j :: 0 <= i < j < |cands| ==> cands[i].name != cands[j].name
  }

  lemma {:induction false} TimesOfDistinct(cands: seq<Backend>, k: nat, i: nat)
    requires i < k <= |cands| && DistinctBackends(cands)
    ensures Times(cands, k, cands[i].name) == 1
  {
    if i < k - 1 {
      TimesOfDistinct(cands, k - 1, i);
    }
  }

  /** Marks of others leave a backend's health as it was. */
  lemma {:induction false} OthersLeaveHealth(h: seq<Mark>, marks: seq<Mark>, n: nat, name: string, limits: Limits)
    requires n <= |marks| && NotMarked(marks, name)
    ensures HealthOf(h + marks[..n], name, limits) == HealthOf(h, name, limits)
  {
    hide HealthOf;
    if n == 0 {
      assert h + marks[..0] == h;
    } else {
      OthersLeaveHealth(h, marks, n - 1, name, limits);
      OtherMarks(h + marks[..n - 1], marks[n - 1], name, limits);
      assert h + marks[..n] == (h + marks[..n - 1]) + [marks[n - 1]];
    }
  }

  lemma OneFailureMore(h: seq<Mark>, m: Mark, name: string, limits: Limits)
    requires m.Failed? && limits.failureThreshold >= 1
    ensures m.name == name ==> Failures(h + [m], name) == Failures(h, name) + 1
    ensures m.name != name ==> HealthOf(h + [m], name, limits) == HealthOf(h, name, limits)
    ensures m.name != name ==> Failures(h + [m], name) == Failures(h, name)
  {
    hide Failures, UnhealthyUntil, LastProbeAt, ProbeErrorFrom;
    HealthIsIncremental(h, m, name, limits);
  }

  lemma SameHealthSameFailures(g: seq<Mark>, h: seq<Mark>, name: string, limits: Limits)
    requires HealthOf(g, name, limits) == HealthOf(h, name, limits)
    ensures Failures(g, name) == Failures(h, name)
  {
  }

  lemma OneSuccessMore(h: seq<Mark>, name: string, other: string, limits: Limits)
    requires limits.failureThreshold >= 1
    ensures Failures(h + [Succeeded(name)], name) == 0
    ensures UnhealthyUntil(h + [Succeeded(name)], name, limits).None?
    ensures other != name ==> HealthOf(h + [Succeeded(name)], other, limits) == HealthOf(h, other, limits)
    ensures other != name ==> Failures(h + [Succeeded(name)], other) == Failures(h, other)
  {
    hide Failures, UnhealthyUntil, LastProbeAt, ProbeErrorFrom;
    HealthIsIncremental(h, Succeeded(name), name, limits);
    HealthIsIncremental(h, Succeeded(name), other, limits);
  }

  /** The history when attempt i is marked, as far as a backend is concerned that no other call marks. */
  lemma AttemptLeavesHealth<T>(cands: seq<Backend>, script: Script<T>, i: nat, h: seq<Mark>, name: string, limits: Limits)
    requires i < |cands| && NotMarked(script(i, cands[i]).others, name)
    ensures HealthOf(HistoryAt(cands, script, i, h), name, limits) == HealthOf(h + RefusedMarks(cands, script, i), name, limits)
  {
    hide HealthOf;
    var others := script(i, cands[i]).others;
    OthersLeaveHealth(h + RefusedMarks(cands, script, i), others, |others|, name, limits);
    assert others[..|others|] == others;
  }

  /** What refusals do to a backend that no other call marks meanwhile: one failure more for each time
      it was refused, and nothing if it was not tried. */
  lemma {:induction false} RefusalsCount<T>(cands: seq<Backend>, script: Script<T>, k: nat, h: seq<Mark>, name: string, limits: Limits)
    requires k <= |cands| && LeftAlone(cands, script, k, name) && limits.failureThreshold >= 1
    ensures
      var after := h + RefusedMarks(cands, script, k);
      && Failures(after, name) == Failures(h, name) + Times(cands, k, name)
      && (Times(cands, k, name) == 0 ==> HealthOf(after, name, limits) == HealthOf(h, name, limits))
  {
    hide HealthOf, Failures, NotMarked;
    if k == 0 {
      assert h + RefusedMarks(cands, script, 0) == h;
    } else {
      RefusalsCount(cands, script, k - 1, h, name, limits);
      RefusedOneMore(cands, script, k - 1, h);
      AttemptLeavesHealth(cands, script, k - 1, h, name, limits);
      var before, at := h + RefusedMarks(cands, script, k - 1), HistoryAt(cands, script, k - 1, h);
      SameHealthSameFailures(at, before, name, limits);
      OneFailureMore(at, Failed(cands[k - 1].name, script(k - 1, cands[k - 1]).failedAt), name, limits);
    }
  }

  /** After a request that candidate k answers, among the marks of any other calls: the winner has no
      failures and no cooldown; and a backend that no other call marks has one failure more for each
      time it was refused, or, if it was not tried, the health it had. */
  lemma FallbackEffect<T>(cands: seq<Backend>, script: Script<T>, h: seq<Mark>, name: string, limits: Limits)
    requires limits.failureThreshold >= 1
    ensures
      var k := Deciding(cands, script, 0);
      k < |cands| ==>
        var after := HistoryAt(cands, script, k, h) + [Succeeded(cands[k].name)];
        if name == cands[k].name then Failures(after, name) == 0 && UnhealthyUntil(after, name, limits).None?
        else LeftAlone(cands, script, k + 1, name) ==>
          && Failures(after, name) == Failures(h, name) + Times(cands, k, name)
          && (Times(cands, k, name) == 0 ==> HealthOf(after, name, limits) == HealthOf(h, name, limits))
  {
    hide HealthOf, Failures, UnhealthyUntil, RefusedMarks, NotMarked, Times;
    var k := Deciding(cands, script, 0);
    if k < |cands| {
      var before := HistoryAt(cands, script, k, h);
      OneSuccessMore(before, cands[k].name, name, limits);
      if name != cands[k].name && LeftAlone(cands, script, k + 1, name) {
        RefusalsCount(cands, script, k, h, name, limits);
        AttemptLeavesHealth(cands, script, k, h, name, limits);
        SameHealthSameFailures(before, h + RefusedMarks(cands, script, k), name, limits);
      }
    }
  }

  /** So with distinct names, each refused candidate has exactly one failure more, and each later one its
      old health, unless another call marks it meanwhile. */
  lemma DistinctFallback<T>(cands: seq<Backend>, script: Script<T>, h: seq<Mark>, i: nat, limits: Limits)
    requires DistinctBackends(cands) && limits.failureThreshold >= 1
    requires i != Deciding(cands, script, 0) < |cands| && i < |cands|
    requires LeftAlone(cands, script, Deciding(cands, script, 0) + 1, cands[i].name)
    ensures
      var k, name := Deciding(cands, script, 0), cands[i].name;
      var after := HistoryAt(cands, script, k, h) + [Succeeded(cands[k].name)];
      if i < k then Failures(after, name) == Failures(h, name) + 1
      else HealthOf(after, name, limits) == HealthOf(h, name, limits)
  {
    hide HealthOf, Failures, UnhealthyUntil, LeftAlone, Times, DistinctBackends, HistoryAt;
    var k := Deciding(cands, script, 0);
    FallbackEffect(cands, script, h, cands[i].name, limits);
    if i < k {
      TimesOfDistinct(cands, k, i);
    } else {
      TimesOfLater(cands, k, i);
    }
    NamesDiffer(cands, i, k);
  }

  lemma TimesOfLater(cands: seq<Backend>, k: nat, i: nat)
    requires k <= i < |cands| && DistinctBackends(cands)
    ensures Times(cands, k, cands[i].name) == 0
  {
    hide Times;
  }

  lemma NamesDiffer(cands: seq<Backend>, i: nat, k: nat)
    requires i < |cands| && k < |cands| && i != k && DistinctBackends(cands)
    ensures cands[i].name != cands[k].name
  {
  }

  // ---- What is reported ----

  lemma {:induction false} RefusedEventsPrefix<T>(operation: Operation, cands: seq<Backend>, script: Script<T>, i: nat, k: nat,
                                                  h: seq<Mark>, limits: Limits)
    requires i <= k <= |cands| && forall j :: 0 <= j < k ==> script(j, cands[j]).outcome.Refused?
    ensures |RefusedEvents(operation, cands, script, i, h, limits)| == i
    ensures |RefusedEvents(operation, cands, script, k, h, limits)| == k
    ensures RefusedEvents(operation, cands, script, i, h, limits) <= RefusedEvents(operation, cands, script, k, h, limits)
    decreases k
  {
    hide FailureEvent, RefusedMarks, ErrorText;
    if k > 0 {
      RefusedEventsPrefix(operation, cands, script, if i < k then i else i - 1, k - 1, h, limits);
    }
  }

  /** What a request reports: each skipped backend; each refused candidate, with its place, its error and
      the health that its mark left it with; and of the winner its success, that it was not the first
      candidate, if it was not, and that it recovered, if it had failures. */
  lemma WhatIsReported<T>(operation: Operation, cands: seq<Backend>, skipped: seq<Backend>, script: Script<T>, h: seq<Mark>, limits: Limits)
    ensures
      var k := Deciding(cands, script, 0);
      var skips, refusals := SkippedEvents(operation, skipped), RefusedEvents(operation, cands, script, k, h, limits);
      && |skips| == |skipped| && |refusals| == k
      && (forall i :: 0 <= i < |skips| ==> skips[i] == Event(SkippedUnhealthy, operation, skipped[i].name, 0, 0, None, ""))
      && (forall i :: 0 <= i < k ==>
            var after := h + RefusedMarks(cands, script, i + 1);
            refusals[i] == Event(RequestFailed, operation, cands[i].name, i + 1, Failures(after, cands[i].name),
                                 UnhealthyUntil(after, cands[i].name, limits), ErrorText(script(i, cands[i]).outcome.error)))
      && (k < |cands| ==>
            var name, before := cands[k].name, HistoryAt(cands, script, k, h);
            SuccessEvents(operation, name, k + 1, before) ==
            [Event(RequestSucceeded, operation, name, k + 1, 0, None, "")]
            + (if k > 0 then [Event(FallbackSucceeded, operation, name, k + 1, 0, None, "")] else [])
            + (if Failures(before, name) > 0 then [Event(Recovered, operation, name, k + 1, 0, None, "")] else []))
  {
    hide Failures, UnhealthyUntil, RefusedMarks, ErrorText, HistoryAt;
    var k := Deciding(cands, script, 0);
    RefusedEventsPrefix(operation, cands, script, k, k, h, limits);
    forall i | 0 <= i < k
      ensures
        var after := h + RefusedMarks(cands, script, i + 1);
        RefusedEvents(operation, cands, script, k, h, limits)[i] ==
        Event(RequestFailed, operation, cands[i].name, i + 1, Failures(after, cands[i].name),
              UnhealthyUntil(after, cands[i].name, limits), ErrorText(script(i, cands[i]).outcome.error))
    {
      RefusedEventsPrefix(operation, cands, script, i + 1, k, h, limits);
      RefusedEventsPrefix(operation, cands, script, i, i + 1, h, limits);
    }
  }

  // ---- The streaming boundary ----

  /** Once a backend has delivered a chunk, what reaches the reader is a prefix of what that backend
      sent, in which only the last event can be an error; an error that arrives is marked once. */
  lemma CommittedStream(name: string, sent: seq<StreamEvent>, turns: Turns)
    requires sent != [] && sent[0].Chunk?
    ensures
      var f := Forwarded(sent, turns);
      && f <= UpToFirstError(sent) <= sent
      && (f != [] ==> f[0].Chunk?)
      && (forall i :: 0 <= i < |f| - 1 ==> f[i].Chunk?)
      && (f != [] && f[|f| - 1].Failure? ==> Interrupted(sent, turns))
      && ((forall i :: 0 <= i < |sent| ==> turns(i).stop.Deliver?) ==> f == UpToFirstError(sent))
  {
    hide Forwarded, ForwardingMarks, Interrupted, InterruptionEvents;
    ForwardingEnds(name, sent, turns);
    var p, k := Ending(sent, turns, 0), FirstError(sent, 0);
    assert p <= k;
    assert sent[..p] <= sent[..k];
    if p < |sent| && sent[p].Failure? {
      assert sent[..p] + [sent[p]] == sent[..p + 1];
    }
  }

  lemma {:induction false} OthersDuringLeave(turns: Turns, n: nat, h: seq<Mark>, name: string, limits: Limits)
    requires forall i :: 0 <= i < n ==> NotMarked(turns(i).others, name)
    ensures HealthOf(h + OthersDuring(turns, n), name, limits) == HealthOf(h, name, limits)
  {
    hide HealthOf, NotMarked;
    if n == 0 {
      assert h + OthersDuring(turns, 0) == h;
    } else {
      OthersDuringLeave(turns, n - 1, h, name, limits);
      var others := turns(n - 1).others;
      OthersLeaveHealth(h + OthersDuring(turns, n - 1), others, |others|, name, limits);
      assert others[..|others|] == others;
      assert h + OthersDuring(turns, n) == (h + OthersDuring(turns, n - 1)) + others;
    }
  }

  /** A stream gives its backend one failure more exactly when an error arrives, unless other calls mark
      the backend meanwhile. */
  lemma InterruptionMark(name: string, sent: seq<StreamEvent>, turns: Turns, h: seq<Mark>, limits: Limits)
    requires limits.failureThreshold >= 1
    requires forall i :: 0 <= i < |sent| ==> NotMarked(turns(i).others, name)
    ensures
      var after := h + ForwardingMarks(name, sent, turns);
      && Failures(after, name) == Failures(h, name) + (if Interrupted(sent, turns) then 1 else 0)
      && (!Interrupted(sent, turns) ==> HealthOf(after, name, limits) == HealthOf(h, name, limits))
  {
    hide HealthOf, Failures, UnhealthyUntil, NotMarked, OthersDuring;
    var p := Ending(sent, turns, 0);
    var n := if p == |sent| then p else p + 1;
    OthersDuringLeave(turns, n, h, name, limits);
    var before := h + OthersDuring(turns, n);
    SameHealthSameFailures(before, h, name, limits);
    if Interrupted(sent, turns) {
      var m := Failed(name, turns(p).failedAt);
      OneFailureMore(before, m, name, limits);
      assert h + ForwardingMarks(name, sent, turns) == before + [m];
    } else {
      assert h + ForwardingMarks(name, sent, turns) == before;
    }
  }
}
