/** The metrics registry's copy of backend health, rebuilt from the router's events alone
    (internal/obs/metrics/registry.go). */
module Metrics {
  import opened Wrappers
  import opened Ranking
  import opened Health
  import opened Fallback
  import opened Router

  datatype ProviderStatus = ProviderStatus(healthy: bool, consecutiveFailures: nat, unhealthyUntil: Option<Time>)

  type Statuses = map<string, ProviderStatus>

  predicate Resets(kind: EventKind) {
    kind.RequestSucceeded? || kind.ProbePassed? || kind.Recovered?
  }

  predicate Fails(kind: EventKind) {
    kind.RequestFailed? || kind.StreamInterrupted? || kind.ProbeRefused?
  }

  predicate Touches(e: Event) {
    Resets(e.kind) || Fails(e.kind)
  }

  function Updated(s: Statuses, e: Event): Statuses {
    if e.backend == "" || !Touches(e) then s
    else if Resets(e.kind) then s[e.backend := ProviderStatus(true, 0, None)]
    else s[e.backend := ProviderStatus(e.unhealthyUntil.None?, e.consecutiveFailures, e.unhealthyUntil)]
  }

  function Absorbed(s: Statuses, events: seq<Event>, n: nat): Statuses
    requires n <= |events|
  {
    if n == 0 then s else Updated(Absorbed(s, events, n - 1), events[n - 1])
  }

  function Synced(s: Statuses, reports: seq<BackendStatus>, n: nat): Statuses
    requires n <= |reports|
  {
    if n == 0 then s
    else
      var b := reports[n - 1];
      Synced(s, reports, n - 1)[b.name := ProviderStatus(b.healthy, b.consecutiveFailures, b.unhealthyUntil)]
  }

  /** Go's time.Time.After on the zero time or a set time. */
  predicate After(t: Option<Time>, now: Time) {
    t.Some? && t.value > now
  }

  predicate IsProviderHealthy(s: ProviderStatus, now: Time) {
    if After(s.unhealthyUntil, now) then false
    else if s.unhealthyUntil.Some? && !After(s.unhealthyUntil, now) then true
    else s.healthy
  }

  class Registry {
    var providerStatuses: Statuses

    constructor ()
      ensures providerStatuses == map[]
    {
      providerStatuses := map[];
    }

    method SyncProviderStatuses(reports: seq<BackendStatus>)
      modifies this
      ensures providerStatuses == Synced(old(providerStatuses), reports, |reports|)
    {
      for i := 0 to |reports|
        invariant providerStatuses == Synced(old(providerStatuses), reports, i)
      {
        var b := reports[i];
        providerStatuses := providerStatuses[b.name := ProviderStatus(b.healthy, b.consecutiveFailures, b.unhealthyUntil)];
      }
    }

    method UpdateProviderStatus(e: Event)
      modifies this
      ensures providerStatuses == Updated(old(providerStatuses), e)
    {
      if e.backend == "" {
        return;
      }
      var status := if e.backend in providerStatuses then providerStatuses[e.backend] else ProviderStatus(false, 0, None);
      match e.kind {
        case RequestSucceeded | ProbePassed | Recovered =>
          status := status.(healthy := true, consecutiveFailures := 0, unhealthyUntil := None);
        case RequestFailed | StreamInterrupted | ProbeRefused =>
          status := status.(consecutiveFailures := e.consecutiveFailures, unhealthyUntil := e.unhealthyUntil);
          status := status.(healthy := e.unhealthyUntil.None?);
        case FallbackSucceeded | SkippedUnhealthy | ProbeSkipped =>
          return;
      }
      providerStatuses := providerStatuses[e.backend := status];
    }

    method OnEvents(events: seq<Event>)
      modifies this
      ensures providerStatuses == Absorbed(old(providerStatuses), events, |events|)
    {
      for i := 0 to |events|
        invariant providerStatuses == Absorbed(old(providerStatuses), events, i)
      {
        UpdateProviderStatus(events[i]);
      }
    }

    /** The lag_provider_ready gauge. */
    method ReadyGauge(now: Time) returns (gauge: nat)
      ensures gauge == if ShowsReady(providerStatuses, now) then 1 else 0
      ensures providerStatuses == map[] ==> gauge == 1
    {
      var healthyBackends, keys := 0, providerStatuses.Keys;
      while keys != {}
        invariant keys <= providerStatuses.Keys
        invariant healthyBackends > 0 <==>
                  exists name :: name in providerStatuses.Keys - keys && IsProviderHealthy(providerStatuses[name], now)
      {
        var key :| key in keys;
        if IsProviderHealthy(providerStatuses[key], now) {
          healthyBackends := healthyBackends + 1;
        }
        keys := keys - {key};
        if healthyBackends > 0 {
          assert exists name :: name in providerStatuses.Keys - keys && IsProviderHealthy(providerStatuses[name], now);
        }
      }
      gauge := if |providerStatuses| == 0 || healthyBackends > 0 then 1 else 0;
    }
  }

  predicate ShowsReady(s: Statuses, now: Time) {
    s == map[] || exists name :: name in s && IsProviderHealthy(s[name], now)
  }

  // ---- Agreement with the router ----

  /** The copy has one entry for each name, which says of it what the history says. */
  ghost predicate Replica(s: Statuses, names: set<string>, h: seq<Mark>, limits: Limits) {
    && s.Keys == names
    && forall name :: name in names ==> Agrees(s[name], HealthOf(h, name, limits))
  }

  /** The same for the backends that have a name. */
  ghost predicate NamedReplica(s: Statuses, names: set<string>, h: seq<Mark>, limits: Limits) {
    && s.Keys == names
    && forall name :: name in names && name != "" ==> Agrees(s[name], HealthOf(h, name, limits))
  }

  predicate Agrees(copy: ProviderStatus, s: BackendState) {
    && copy.consecutiveFailures == s.consecutiveFailures
    && copy.unhealthyUntil == s.unhealthyUntil
    && (s.unhealthyUntil.None? ==> copy.healthy)
  }

  /** A copy that agrees computes the router's health at every instant. */
  lemma SameHealth(copy: ProviderStatus, s: BackendState, now: Time)
    requires Agrees(copy, s)
    ensures IsProviderHealthy(copy, now) <==> !CoolingDown(s, now)
  {
  }

  /** Event e tells of mark m, which comes after history h. */
  predicate Reports(e: Event, h: seq<Mark>, m: Mark, limits: Limits) {
    && e.backend == m.name
    && (if IsSuccess(m, m.name) then Resets(e.kind)
        else
          && Fails(e.kind)
          && e.consecutiveFailures == Failures(h + [m], m.name)
          && e.unhealthyUntil == UnhealthyUntil(h + [m], m.name, limits))
  }

  /** These events announce m: among them is news of m, and of nothing else. */
  predicate Announces(events: seq<Event>, h: seq<Mark>, m: Mark, limits: Limits) {
    && (exists i :: 0 <= i < |events| && Touches(events[i]))
    && forall i :: 0 <= i < |events| && Touches(events[i]) ==> Reports(events[i], h, m, limits)
  }

  predicate NoNews(events: seq<Event>) {
    forall i :: 0 <= i < |events| ==> !Touches(events[i])
  }

  lemma {:induction false} NoNewsChangesNothing(s: Statuses, events: seq<Event>, n: nat)
    requires n <= |events| && NoNews(events)
    ensures Absorbed(s, events, n) == s
  {
    if n > 0 {
      NoNewsChangesNothing(s, events, n - 1);
    }
  }

  function News(h: seq<Mark>, m: Mark, limits: Limits): ProviderStatus {
    var until := UnhealthyUntil(h + [m], m.name, limits);
    if IsSuccess(m, m.name) then ProviderStatus(true, 0, None)
    else ProviderStatus(until.None?, Failures(h + [m], m.name), until)
  }

  lemma {:induction false} AnnouncedOnce(s: Statuses, events: seq<Event>, n: nat, h: seq<Mark>, m: Mark, limits: Limits)
    requires n <= |events| && m.name != ""
    requires forall i :: 0 <= i < |events| && Touches(events[i]) ==> Reports(events[i], h, m, limits)
    ensures Absorbed(s, events, n) ==
            if exists i :: 0 <= i < n && Touches(events[i]) then s[m.name := News(h, m, limits)] else s
  {
    hide Failures, UnhealthyUntil;
    if n > 0 {
      AnnouncedOnce(s, events, n - 1, h, m, limits);
    }
  }

  lemma NewsAgrees(h: seq<Mark>, m: Mark, limits: Limits)
    requires limits.failureThreshold >= 1
    ensures Agrees(News(h, m, limits), HealthOf(h + [m], m.name, limits))
  {
    hide Failures, UnhealthyUntil, LastProbeAt, ProbeErrorFrom, AfterLastSuccess;
    HealthIsIncremental(h, m, m.name, limits);
  }

  lemma {:induction false} UnnamedIsDropped(s: Statuses, events: seq<Event>, n: nat)
    requires n <= |events|
    requires forall i :: 0 <= i < |events| && Touches(events[i]) ==> events[i].backend == ""
    ensures Absorbed(s, events, n) == s
  {
    if n > 0 {
      UnnamedIsDropped(s, events, n - 1);
    }
  }

  lemma OthersStay(names: set<string>, h: seq<Mark>, m: Mark, limits: Limits)
    ensures forall name :: name in names && name != m.name ==> HealthOf(h + [m], name, limits) == HealthOf(h, name, limits)
  {
    hide HealthOf;
    forall name | name in names && name != m.name
      ensures HealthOf(h + [m], name, limits) == HealthOf(h, name, limits)
    {
      OtherMarks(h, m, name, limits);
    }
  }

  lemma NamedMark(s: Statuses, names: set<string>, h: seq<Mark>, m: Mark, events: seq<Event>, limits: Limits)
    requires NamedReplica(s, names, h, limits) && limits.failureThreshold >= 1
    requires m.name in names && m.name != "" && Announces(events, h, m, limits)
    ensures NamedReplica(Absorbed(s, events, |events|), names, h + [m], limits)
    ensures "" in names ==> Absorbed(s, events, |events|)[""] == s[""]
  {
    hide HealthOf, News, Agrees;
    AnnouncedOnce(s, events, |events|, h, m, limits);
    NewsAgrees(h, m, limits);
    OthersStay(names, h, m, limits);
  }

  /** One mark whose events arrive before the next mark keeps the named part of the copy in agreement,
      and does not touch the entry of a backend without a name. */
  lemma AnnouncedMark(s: Statuses, names: set<string>, h: seq<Mark>, m: Mark, events: seq<Event>, limits: Limits)
    requires NamedReplica(s, names, h, limits) && limits.failureThreshold >= 1
    requires m.name in names && Announces(events, h, m, limits)
    ensures NamedReplica(Absorbed(s, events, |events|), names, h + [m], limits)
    ensures "" in names ==> Absorbed(s, events, |events|)[""] == s[""]
  {
    hide HealthOf, Agrees, Absorbed;
    if m.name == "" {
      UnnamedIsDropped(s, events, |events|);
      OthersStay(names, h, m, limits);
    } else {
      NamedMark(s, names, h, m, events, limits);
    }
  }

  // ---- Whole runs ----

  /** The events delivered between two marks, and the mark they follow, if any. */
  datatype Step = Step(mark: Option<Mark>, events: seq<Event>)

  function MarksOf(steps: seq<Step>, n: nat): seq<Mark>
    requires n <= |steps|
  {
    if n == 0 then []
    else MarksOf(steps, n - 1) + if steps[n - 1].mark.Some? then [steps[n - 1].mark.value] else []
  }

  /** Every mark is of a configured backend, and its events come before the next mark. */
  predicate DeliveredInTurn(h: seq<Mark>, steps: seq<Step>, names: set<string>, limits: Limits) {
    forall i :: 0 <= i < |steps| ==> Delivered(h, steps, i, names, limits)
  }

  predicate Delivered(h: seq<Mark>, steps: seq<Step>, i: nat, names: set<string>, limits: Limits)
    requires i < |steps|
  {
    match steps[i].mark
    case None => NoNews(steps[i].events)
    case Some(m) => m.name in names && Announces(steps[i].events, h + MarksOf(steps, i), m, limits)
  }

  function Followed(s: Statuses, steps: seq<Step>, n: nat): Statuses
    requires n <= |steps|
  {
    if n == 0 then s else Absorbed(Followed(s, steps, n - 1), steps[n - 1].events, |steps[n - 1].events|)
  }

  /** The named part of the copy agrees after every step, and the entry of a backend without a name is
      what it was. */
  lemma {:induction false} NamedPartFollows(s: Statuses, names: set<string>, h: seq<Mark>, steps: seq<Step>, n: nat, limits: Limits)
    requires NamedReplica(s, names, h, limits) && limits.failureThreshold >= 1
    requires n <= |steps| && DeliveredInTurn(h, steps, names, limits)
    ensures NamedReplica(Followed(s, steps, n), names, h + MarksOf(steps, n), limits)
    ensures "" in names ==> "" in Followed(s, steps, n) && "" in s && Followed(s, steps, n)[""] == s[""]
  {
    hide HealthOf, Agrees, Announces, NoNews, Absorbed;
    if n == 0 {
      assert h + MarksOf(steps, 0) == h;
    } else {
      NamedPartFollows(s, names, h, steps, n - 1, limits);
      var before, step := Followed(s, steps, n - 1), steps[n - 1];
      assert Delivered(h, steps, n - 1, names, limits);
      match step.mark {
        case None =>
          NoNewsChangesNothing(before, step.events, |step.events|);
          assert MarksOf(steps, n) == MarksOf(steps, n - 1);
        case Some(m) =>
          AnnouncedMark(before, names, h + MarksOf(steps, n - 1), m, step.events, limits);
          assert (h + MarksOf(steps, n - 1)) + [m] == h + MarksOf(steps, n);
      }
    }
  }

  /** In every run in which the events of each mark are delivered before the next mark, the copy agrees
      with the router after every step if and only if there is no backend without a name, or the health
      of that backend is still what its entry said at the start. */
  lemma MetricsFollowRouter(s: Statuses, names: set<string>, h: seq<Mark>, steps: seq<Step>, n: nat, limits: Limits)
    requires Replica(s, names, h, limits) && limits.failureThreshold >= 1
    requires n <= |steps| && DeliveredInTurn(h, steps, names, limits)
    ensures Replica(Followed(s, steps, n), names, h + MarksOf(steps, n), limits) <==>
            ("" in names ==> Agrees(s[""], HealthOf(h + MarksOf(steps, n), "", limits)))
  {
    hide HealthOf, Agrees, Followed, DeliveredInTurn;
    NamedPartFollows(s, names, h, steps, n, limits);
  }

  // ---- Any order of delivery ----

  /** The news of a backend among the first n delivered events, in the order of delivery. */
  function NewsOf(events: seq<Event>, n: nat, name: string): seq<Event>
    requires n <= |events|
  {
    if n == 0 then []
    else NewsOf(events, n - 1, name) + if Touches(events[n - 1]) && events[n - 1].backend == name then [events[n - 1]] else []
  }

  function EntryOf(e: Event): ProviderStatus {
    if Resets(e.kind) then ProviderStatus(true, 0, None)
    else ProviderStatus(e.unhealthyUntil.None?, e.consecutiveFailures, e.unhealthyUntil)
  }

  /** The entry that the last of the news leaves, or else the one there was. A backend without a name
      gets no news. */
  function EntryAfter(was: ProviderStatus, news: seq<Event>, name: string): ProviderStatus {
    if name == "" || news == [] then was else EntryOf(news[|news| - 1])
  }

  /** The events are of these backends. */
  predicate NewsOnlyOf(events: seq<Event>, names: set<string>) {
    forall i :: 0 <= i < |events| && Touches(events[i]) ==> events[i].backend in names
  }

  lemma {:induction false} LastNewsDecides(s: Statuses, events: seq<Event>, n: nat, name: string)
    requires n <= |events| && NewsOnlyOf(events, s.Keys)
    ensures Absorbed(s, events, n).Keys == s.Keys
    ensures name in s ==> Absorbed(s, events, n)[name] == EntryAfter(s[name], NewsOf(events, n, name), name)
  {
    if n > 0 {
      LastNewsDecides(s, events, n - 1, name);
    }
  }

  /** Whatever the events are and in whatever order they are delivered: the copy agrees with the router
      if and only if, for each backend, the last event delivered about it, or its entry if there is none,
      says what the history says. */
  lemma ReplicaAfterAnyDelivery(s: Statuses, names: set<string>, events: seq<Event>, h: seq<Mark>, limits: Limits)
    requires s.Keys == names && NewsOnlyOf(events, names)
    ensures
      Replica(Absorbed(s, events, |events|), names, h, limits) <==>
      forall name :: name in names ==>
        Agrees(EntryAfter(s[name], NewsOf(events, |events|, name), name), HealthOf(h, name, limits))
  {
    hide HealthOf, Agrees, EntryAfter, NewsOf, NewsOnlyOf, Absorbed;
    LastNewsDecides(s, events, |events|, "");
    forall name | name in names
      ensures Absorbed(s, events, |events|)[name] == EntryAfter(s[name], NewsOf(events, |events|, name), name)
    {
      LastNewsDecides(s, events, |events|, name);
    }
  }

  /** Two deliveries with the same news of each backend, in the same order for each, leave the same copy. */
  lemma OrderAcrossBackendsIsFree(s: Statuses, a: seq<Event>, b: seq<Event>)
    requires NewsOnlyOf(a, s.Keys) && NewsOnlyOf(b, s.Keys)
    requires forall name :: NewsOf(a, |a|, name) == NewsOf(b, |b|, name)
    ensures Absorbed(s, a, |a|) == Absorbed(s, b, |b|)
  {
    hide NewsOf, NewsOnlyOf, EntryAfter, Absorbed;
    LastNewsDecides(s, a, |a|, "");
    LastNewsDecides(s, b, |b|, "");
    forall name | name in s ensures Absorbed(s, a, |a|)[name] == Absorbed(s, b, |b|)[name] {
      LastNewsDecides(s, a, |a|, name);
      LastNewsDecides(s, b, |b|, name);
    }
  }

  lemma {:induction false} NewsPrefix(a: seq<Event>, b: seq<Event>, n: nat, name: string)
    requires n <= |a|
    ensures NewsOf(a + b, n, name) == NewsOf(a, n, name)
  {
    if n > 0 {
      NewsPrefix(a, b, n - 1, name);
      assert (a + b)[n - 1] == a[n - 1];
    }
  }

  lemma {:induction false} NewsMember(events: seq<Event>, n: nat, i: nat, name: string)
    requires i < n <= |events| && Touches(events[i]) && events[i].backend == name
    ensures events[i] in NewsOf(events, n, name)
  {
    if i < n - 1 {
      NewsMember(events, n - 1, i, name);
    }
  }

  lemma {:induction false} NewsAreAbout(events: seq<Event>, n: nat, name: string)
    requires n <= |events|
    ensures forall e :: e in NewsOf(events, n, name) ==> e in events && Touches(e) && e.backend == name
  {
    if n > 0 {
      NewsAreAbout(events, n - 1, name);
    }
  }

  /** Whose news there is can be read off the news of each name. */
  lemma SameNewsSameBackends(a: seq<Event>, b: seq<Event>, names: set<string>)
    requires NewsOnlyOf(b, names) && forall name :: NewsOf(a, |a|, name) == NewsOf(b, |b|, name)
    ensures NewsOnlyOf(a, names)
  {
    hide NewsOf;
    forall i | 0 <= i < |a| && Touches(a[i]) ensures a[i].backend in names {
      var name := a[i].backend;
      NewsMember(a, |a|, i, name);
      NewsAreAbout(b, |b|, name);
      assert a[i] in NewsOf(b, |b|, name);
      var j :| 0 <= j < |b| && b[j] == a[i];
    }
  }

  lemma {:induction false} AbsorbedPrefix(s: Statuses, a: seq<Event>, b: seq<Event>, n: nat)
    requires n <= |a|
    ensures Absorbed(s, a + b, n) == Absorbed(s, a, n)
  {
    hide Updated;
    if n > 0 {
      AbsorbedPrefix(s, a, b, n - 1);
    }
  }

  lemma {:induction false} AbsorbedSuffix(s: Statuses, a: seq<Event>, b: seq<Event>, n: nat)
    requires n <= |b|
    ensures Absorbed(s, a + b, |a| + n) == Absorbed(Absorbed(s, a, |a|), b, n)
  {
    hide Updated;
    if n == 0 {
      AbsorbedPrefix(s, a, b, |a|);
    } else {
      AbsorbedSuffix(s, a, b, n - 1);
    }
  }

  lemma AbsorbedConcat(s: Statuses, a: seq<Event>, b: seq<Event>)
    ensures Absorbed(s, a + b, |a + b|) == Absorbed(Absorbed(s, a, |a|), b, |b|)
  {
    hide Absorbed;
    assert |a + b| == |a| + |b|;
    AbsorbedSuffix(s, a, b, |b|);
  }

  /** The names of all backends. */
  function NameSet(backends: seq<Backend>): set<string> {
    set i | 0 <= i < |backends| :: backends[i].name
  }

  /** What BackendStatuses reports: the first n backends as the history has them. */
  predicate ReportedAt(reports: seq<BackendStatus>, backends: seq<Backend>, h: seq<Mark>, limits: Limits, now: Time) {
    |reports| == |backends| && forall i :: 0 <= i < |backends| ==> reports[i] == StatusOf(backends[i], HealthOf(h, backends[i].name, limits), now)
  }

  lemma {:induction false} SyncedAgrees(s: Statuses, reports: seq<BackendStatus>, n: nat, backends: seq<Backend>,
                                        h: seq<Mark>, limits: Limits, now: Time)
    requires n <= |reports| && ReportedAt(reports, backends, h, limits, now)
    ensures var synced := Synced(s, reports, n);
      && synced.Keys == s.Keys + (set i | 0 <= i < n :: backends[i].name)
      && forall i :: 0 <= i < n ==> Agrees(synced[backends[i].name], HealthOf(h, backends[i].name, limits))
  {
    hide HealthOf;
    if n > 0 {
      SyncedAgrees(s, reports, n - 1, backends, h, limits, now);
    }
  }

  /** The initial synchronisation makes the copy agree. */
  lemma SyncMakesReplica(reports: seq<BackendStatus>, backends: seq<Backend>, h: seq<Mark>, limits: Limits, now: Time)
    requires ReportedAt(reports, backends, h, limits, now)
    ensures Replica(Synced(map[], reports, |reports|), NameSet(backends), h, limits)
  {
    hide HealthOf, Agrees;
    SyncedAgrees(map[], reports, |reports|, backends, h, limits, now);
  }

  /** While the copy agrees, the gauge is the router's Ready, as long as there is a backend at all. */
  lemma GaugeIsReady(s: Statuses, backends: seq<Backend>, h: seq<Mark>, limits: Limits, now: Time)
    requires Replica(s, NameSet(backends), h, limits) && backends != []
    ensures ShowsReady(s, now) <==>
            exists i :: 0 <= i < |backends| && !CoolingDown(HealthOf(h, backends[i].name, limits), now)
  {
    hide HealthOf, CoolingDown, IsProviderHealthy, Agrees;
    assert backends[0].name in NameSet(backends);
    forall name | name in s ensures IsProviderHealthy(s[name], now) <==> !CoolingDown(HealthOf(h, name, limits), now) {
      SameHealth(s[name], HealthOf(h, name, limits), now);
    }
    forall i | 0 <= i < |backends| ensures backends[i].name in s {
    }
  }
}
