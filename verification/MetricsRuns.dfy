/** When the router's events keep the metrics copy in agreement, and when they do not. A mark is made under
    the router's mutex, and its events are observed after the mutex is released, so the events of calls
    that run at the same time can arrive in another order than their marks
    (internal/provider/router/chat.go, internal/obs/metrics/registry.go). */
module MetricsRuns {
  import opened Wrappers
  import opened Ranking
  import opened RoutePolicy
  import opened Health
  import opened Provider
  import opened Fallback
  import opened Metrics
  import Router
  import Seeding

  // ---- What a call does to the router, one deed at a time ----

  /** A mark with the events that go with it, or the skipping of backends, which marks nothing. */
  datatype Op =
    | Winning(operation: Operation, name: string, attempt: nat)
    | Losing(interrupted: bool, operation: Operation, name: string, attempt: nat, error: string, at: Time)
    | Probing(backend: Backend, turn: ProbeTurn)
    | Skipping(operation: Operation, backends: seq<Backend>)

  /** An operation of the call that is looked at, or of another call. */
  datatype Deed = Deed(own: bool, op: Op)

  function MarkOf(op: Op): Option<Mark> {
    match op
    case Winning(_, name, _) => Some(Succeeded(name))
    case Losing(_, _, name, _, _, at) => Some(Failed(name, at))
    case Probing(b, t) => if ProbeMark(b, t) == [] then None else Some(ProbeMark(b, t)[0])
    case Skipping(_, _) => None
  }

  /** The events of an operation that is done at the end of history h. */
  function EventsOf(op: Op, h: seq<Mark>, limits: Limits): seq<Event> {
    match op
    case Winning(operation, name, attempt) => SuccessEvents(operation, name, attempt, h)
    case Losing(interrupted, operation, name, attempt, error, at) =>
      [FailureEvent(if interrupted then StreamInterrupted else RequestFailed, operation, name, attempt,
                    h + [Failed(name, at)], limits, error)]
    case Probing(b, t) => ProbeEvents(b, t, h, limits)
    case Skipping(operation, backends) => SkippedEvents(operation, backends)
  }

  function MarkSeq(op: Op): seq<Mark> {
    if MarkOf(op).Some? then [MarkOf(op).value] else []
  }

  function Marks(deeds: seq<Deed>, n: nat): seq<Mark>
    requires n <= |deeds|
  {
    if n == 0 then [] else Marks(deeds, n - 1) + MarkSeq(deeds[n - 1].op)
  }

  /** The events that the call itself reports. */
  function Told(h: seq<Mark>, deeds: seq<Deed>, n: nat, limits: Limits): seq<Event>
    requires n <= |deeds|
  {
    if n == 0 then []
    else
      Told(h, deeds, n - 1, limits)
      + if deeds[n - 1].own then EventsOf(deeds[n - 1].op, h + Marks(deeds, n - 1), limits) else []
  }

  /** The deeds as the registry sees them if each one's events happen to arrive before the next mark. */
  function StepsOf(h: seq<Mark>, deeds: seq<Deed>, limits: Limits): (steps: seq<Step>)
    ensures |steps| == |deeds|
    ensures forall i :: 0 <= i < |deeds| ==>
              steps[i] == Step(MarkOf(deeds[i].op), EventsOf(deeds[i].op, h + Marks(deeds, i), limits))
  {
    seq(|deeds|, i requires 0 <= i < |deeds| =>
      Step(MarkOf(deeds[i].op), EventsOf(deeds[i].op, h + Marks(deeds, i), limits)))
  }

  // ---- The router's events announce its marks ----

  lemma SuccessAnnounces(operation: Operation, name: string, attempt: nat, h: seq<Mark>, limits: Limits)
    ensures Announces(SuccessEvents(operation, name, attempt, h), h, Succeeded(name), limits)
  {
    hide Failures, UnhealthyUntil;
    assert Touches(SuccessEvents(operation, name, attempt, h)[0]);
  }

  lemma FailureAnnounces(kind: EventKind, operation: Operation, attempt: nat, h: seq<Mark>, m: Mark, limits: Limits, error: string)
    requires Fails(kind) && !IsSuccess(m, m.name)
    ensures Announces([FailureEvent(kind, operation, m.name, attempt, h + [m], limits, error)], h, m, limits)
  {
    hide Failures, UnhealthyUntil;
    assert Touches([FailureEvent(kind, operation, m.name, attempt, h + [m], limits, error)][0]);
  }

  lemma ProbeAnnounces(b: Backend, t: ProbeTurn, h: seq<Mark>, limits: Limits)
    ensures
      match t.outcome
      case NotAModelProvider => NoNews(ProbeEvents(b, t, h, limits)) && ProbeMark(b, t) == []
      case _ => |ProbeMark(b, t)| == 1 && Announces(ProbeEvents(b, t, h, limits), h, ProbeMark(b, t)[0], limits)
  {
    hide Failures, UnhealthyUntil;
    if !t.outcome.NotAModelProvider? {
      assert Touches(ProbeEvents(b, t, h, limits)[0]);
    }
  }

  lemma SkippedIsNoNews(operation: Operation, skipped: seq<Backend>)
    ensures NoNews(SkippedEvents(operation, skipped))
  {
  }

  /** Whatever an operation is and whatever came before it, its events tell its mark and nothing else. */
  lemma OpAnnounces(op: Op, h: seq<Mark>, limits: Limits)
    ensures
      match MarkOf(op)
      case None => NoNews(EventsOf(op, h, limits))
      case Some(m) => Announces(EventsOf(op, h, limits), h, m, limits)
  {
    hide Announces, NoNews, SuccessEvents, FailureEvent, ProbeEvents, SkippedEvents;
    match op
    case Winning(operation, name, attempt) => SuccessAnnounces(operation, name, attempt, h, limits);
    case Losing(interrupted, operation, name, attempt, error, at) =>
      FailureAnnounces(if interrupted then StreamInterrupted else RequestFailed, operation, attempt, h, Failed(name, at), limits, error);
    case Probing(b, t) => ProbeAnnounces(b, t, h, limits);
    case Skipping(operation, backends) => SkippedIsNoNews(operation, backends);
  }

  lemma {:induction false} SameMarks(steps: seq<Step>, deeds: seq<Deed>, n: nat)
    requires n <= |steps| == |deeds| && forall i :: 0 <= i < n ==> steps[i].mark == MarkOf(deeds[i].op)
    ensures MarksOf(steps, n) == Marks(deeds, n)
  {
    hide MarkOf;
    if n > 0 {
      SameMarks(steps, deeds, n - 1);
    }
  }

  lemma StepMarks(h: seq<Mark>, deeds: seq<Deed>, limits: Limits, n: nat)
    requires n <= |deeds|
    ensures MarksOf(StepsOf(h, deeds, limits), n) == Marks(deeds, n)
  {
    hide EventsOf, MarkOf, Marks, MarksOf;
    SameMarks(StepsOf(h, deeds, limits), deeds, n);
  }

  lemma {:induction false} MarkIsMade(deeds: seq<Deed>, n: nat, i: nat)
    requires i < n <= |deeds| && MarkOf(deeds[i].op).Some?
    ensures MarkOf(deeds[i].op).value in Marks(deeds, n)
  {
    if i < n - 1 {
      MarkIsMade(deeds, n - 1, i);
    }
  }

  ghost predicate OfBackends(marks: seq<Mark>, names: set<string>) {
    forall m :: m in marks ==> m.name in names
  }

  /** Any list of deeds whose events arrive in turn is a run of the kind that MetricsFollowRouter is about. */
  lemma DeedsAreDelivered(h: seq<Mark>, deeds: seq<Deed>, names: set<string>, limits: Limits)
    requires OfBackends(Marks(deeds, |deeds|), names)
    ensures DeliveredInTurn(h, StepsOf(h, deeds, limits), names, limits)
  {
    hide Marks, Delivered;
    var steps := StepsOf(h, deeds, limits);
    forall i | 0 <= i < |steps| ensures Delivered(h, steps, i, names, limits) {
      OneDelivered(h, deeds, names, limits, i);
    }
  }

  lemma OneDelivered(h: seq<Mark>, deeds: seq<Deed>, names: set<string>, limits: Limits, i: nat)
    requires i < |deeds| && OfBackends(Marks(deeds, |deeds|), names)
    ensures Delivered(h, StepsOf(h, deeds, limits), i, names, limits)
  {
    hide Announces, NoNews, EventsOf, MarkOf, Marks;
    StepMarks(h, deeds, limits, i);
    OpAnnounces(deeds[i].op, h + Marks(deeds, i), limits);
    if MarkOf(deeds[i].op).Some? {
      MarkIsMade(deeds, |deeds|, i);
    }
  }

  /** If each deed's events arrive before the next mark, the copy agrees after the deeds. */
  lemma InTurnKeepsReplica(s: Statuses, names: set<string>, h: seq<Mark>, deeds: seq<Deed>, limits: Limits)
    requires Replica(s, names, h, limits) && limits.failureThreshold >= 1 && "" !in names
    requires OfBackends(Marks(deeds, |deeds|), names)
    ensures Replica(Followed(s, StepsOf(h, deeds, limits), |deeds|), names, h + Marks(deeds, |deeds|), limits)
  {
    hide Replica, Followed, DeliveredInTurn, EventsOf, OfBackends;
    DeedsAreDelivered(h, deeds, names, limits);
    StepMarks(h, deeds, limits, |deeds|);
    MetricsFollowRouter(s, names, h, StepsOf(h, deeds, limits), |deeds|, limits);
  }

  // ---- Delivery in any order ----

  /** The events of all deeds, in the order of their marks. */
  function InMarkOrder(h: seq<Mark>, deeds: seq<Deed>, n: nat, limits: Limits): seq<Event>
    requires n <= |deeds|
  {
    if n == 0 then [] else InMarkOrder(h, deeds, n - 1, limits) + EventsOf(deeds[n - 1].op, h + Marks(deeds, n - 1), limits)
  }

  lemma {:induction false} InTurnIsMarkOrder(s: Statuses, h: seq<Mark>, deeds: seq<Deed>, n: nat, limits: Limits)
    requires n <= |deeds|
    ensures
      var events := InMarkOrder(h, deeds, n, limits);
      Followed(s, StepsOf(h, deeds, limits), n) == Absorbed(s, events, |events|)
  {
    hide EventsOf, Absorbed, Marks;
    if n == 0 {
      NothingAbsorbed(s);
    } else {
      InTurnIsMarkOrder(s, h, deeds, n - 1, limits);
      AbsorbedConcat(s, InMarkOrder(h, deeds, n - 1, limits), EventsOf(deeds[n - 1].op, h + Marks(deeds, n - 1), limits));
    }
  }

  lemma NothingAbsorbed(s: Statuses)
    ensures Absorbed(s, [], 0) == s
  {
  }

  lemma OpNewsIsOfItsMark(op: Op, h: seq<Mark>, limits: Limits, names: set<string>)
    requires MarkOf(op).Some? ==> MarkOf(op).value.name in names
    ensures NewsOnlyOf(EventsOf(op, h, limits), names)
  {
    hide EventsOf;
    OpAnnounces(op, h, limits);
  }

  lemma NewsOfBoth(a: seq<Event>, b: seq<Event>, names: set<string>)
    requires NewsOnlyOf(a, names) && NewsOnlyOf(b, names)
    ensures NewsOnlyOf(a + b, names)
  {
  }

  lemma {:induction false} DeedsAreNewsOfBackends(h: seq<Mark>, deeds: seq<Deed>, n: nat, limits: Limits, names: set<string>)
    requires n <= |deeds| && OfBackends(Marks(deeds, |deeds|), names)
    ensures NewsOnlyOf(InMarkOrder(h, deeds, n, limits), names)
  {
    hide EventsOf, NewsOnlyOf, Marks;
    if n == 0 {
      NoNewsAtAll(names);
    } else {
      DeedsAreNewsOfBackends(h, deeds, n - 1, limits, names);
      if MarkOf(deeds[n - 1].op).Some? {
        MarkIsMade(deeds, |deeds|, n - 1);
      }
      OpNewsIsOfItsMark(deeds[n - 1].op, h + Marks(deeds, n - 1), limits, names);
      NewsOfBoth(InMarkOrder(h, deeds, n - 1, limits), EventsOf(deeds[n - 1].op, h + Marks(deeds, n - 1), limits), names);
    }
  }

  lemma NoNewsAtAll(names: set<string>)
    ensures NewsOnlyOf([], names)
  {
  }

  /** The news of each backend is delivered in the order of its marks. News of different backends, and
      events that are no news, may come in any order. */
  ghost predicate InOrderForEach(delivered: seq<Event>, h: seq<Mark>, deeds: seq<Deed>, limits: Limits) {
    forall name :: NewsOf(delivered, |delivered|, name) ==
                   NewsOf(InMarkOrder(h, deeds, |deeds|, limits), |InMarkOrder(h, deeds, |deeds|, limits)|, name)
  }

  /** After any list of deeds the copy agrees with the router, as long as every backend has a name and its
      news was delivered in the order of its marks. */
  lemma DeedsKeepReplica(s: Statuses, names: set<string>, h: seq<Mark>, deeds: seq<Deed>, delivered: seq<Event>, limits: Limits)
    requires Replica(s, names, h, limits) && limits.failureThreshold >= 1 && "" !in names
    requires OfBackends(Marks(deeds, |deeds|), names) && InOrderForEach(delivered, h, deeds, limits)
    ensures Replica(Absorbed(s, delivered, |delivered|), names, h + Marks(deeds, |deeds|), limits)
  {
    hide NewsOf, NewsOnlyOf, Absorbed, InMarkOrder, Marks, OfBackends, StepsOf, Followed, HealthOf, Agrees;
    var events := InMarkOrder(h, deeds, |deeds|, limits);
    InTurnKeepsReplica(s, names, h, deeds, limits);
    InTurnIsMarkOrder(s, h, deeds, |deeds|, limits);
    DeedsAreNewsOfBackends(h, deeds, |deeds|, limits, names);
    SameNewsSameBackends(delivered, events, names);
    OrderAcrossBackendsIsFree(s, delivered, events);
  }

  /** Two calls fail at a backend whose next failure but one would start its cooldown, and the second one's
      event is delivered first. The router cools the backend down; the copy has it one failure short, and
      healthy at every instant, until other news comes. */
  lemma LateEventIsBelieved(h: seq<Mark>, name: string, t0: Time, t1: Time, first: string, second: string, limits: Limits)
    requires limits.failureThreshold >= 2 && Failures(h, name) == limits.failureThreshold - 2 && name != ""
    ensures
      var h1, h2 := h + [Failed(name, t0)], h + [Failed(name, t0)] + [Failed(name, t1)];
      var e1 := FailureEvent(RequestFailed, Create, name, 1, h1, limits, first);
      var e2 := FailureEvent(RequestFailed, Create, name, 1, h2, limits, second);
      && HealthOf(h2, name, limits).consecutiveFailures == limits.failureThreshold
      && HealthOf(h2, name, limits).unhealthyUntil == Some(t1 + limits.cooldown)
      && (forall s, now :: IsProviderHealthy(Absorbed(s, [e2, e1], 2)[name], now))
      && (forall s, names :: !Replica(Absorbed(s, [e2, e1], 2), names + {name}, h2, limits))
  {
    hide Failures, UnhealthyUntil, LastProbeAt, ProbeErrorFrom;
    var m1, m2 := Failed(name, t0), Failed(name, t1);
    HealthIsIncremental(h, m1, name, limits);
    HealthIsIncremental(h + [m1], m2, name, limits);
    NotYetCooling(h, name, limits);
    var e1 := FailureEvent(RequestFailed, Create, name, 1, h + [m1], limits, first);
    var e2 := FailureEvent(RequestFailed, Create, name, 1, h + [m1] + [m2], limits, second);
    forall s ensures Absorbed(s, [e2, e1], 2) == Updated(Updated(s, e2), e1) {
      assert Absorbed(s, [e2, e1], 0) == s && Absorbed(s, [e2, e1], 1) == Updated(s, e2);
    }
    forall s, names ensures !Replica(Absorbed(s, [e2, e1], 2), names + {name}, h + [m1] + [m2], limits) {
      assert name in names + {name};
    }
  }

  lemma NotYetCooling(h: seq<Mark>, name: string, limits: Limits)
    requires limits.failureThreshold >= 1 && Failures(h, name) < limits.failureThreshold
    ensures UnhealthyUntil(h, name, limits).None?
  {
  }

  /** A failure between a success that ends a series of failures and the success's last event: the copy
      has no failure, the router one. */
  lemma LateRecoveryIsBelieved(s: Statuses, h: seq<Mark>, name: string, at: Time, operation: Operation, attempt: nat,
                               error: string, limits: Limits)
    requires limits.failureThreshold >= 1 && Failures(h, name) > 0 && name != ""
    ensures
      var success := SuccessEvents(operation, name, attempt, h);
      var n := |success| - 1;
      var h2 := h + [Succeeded(name)] + [Failed(name, at)];
      var e := FailureEvent(RequestFailed, operation, name, attempt, h2, limits, error);
      var delivered := success[..n] + [e] + [success[n]];
      var after := Absorbed(s, delivered, |delivered|);
      && success[n].kind.Recovered? && Failures(h2, name) == 1
      && name in after && after[name] == ProviderStatus(true, 0, None)
      && forall names :: !Replica(after, names, h2, limits)
  {
    var success := SuccessEvents(operation, name, attempt, h);
    var n := |success| - 1;
    var h2 := h + [Succeeded(name)] + [Failed(name, at)];
    var e := FailureEvent(RequestFailed, operation, name, attempt, h2, limits, error);
    LastEventRecovers(operation, name, attempt, h);
    OneFailure(h, name, at, limits);
    hide SuccessEvents, FailureEvent, Absorbed, Failures, UnhealthyUntil, LastProbeAt, ProbeErrorFrom;
    var delivered := success[..n] + [e] + [success[n]];
    assert delivered[|delivered| - 1] == success[n];
    LastResets(s, delivered, name);
    forall names ensures !Replica(Absorbed(s, delivered, |delivered|), names, h2, limits) {
    }
  }

  lemma LastEventRecovers(operation: Operation, name: string, attempt: nat, h: seq<Mark>)
    requires Failures(h, name) > 0
    ensures
      var success := SuccessEvents(operation, name, attempt, h);
      success != [] && success[|success| - 1].kind.Recovered? && success[|success| - 1].backend == name
  {
    hide Failures;
  }

  lemma OneFailure(h: seq<Mark>, name: string, at: Time, limits: Limits)
    requires limits.failureThreshold >= 1
    ensures Failures(h + [Succeeded(name)] + [Failed(name, at)], name) == 1
  {
    hide Failures, UnhealthyUntil, LastProbeAt, ProbeErrorFrom;
    HealthIsIncremental(h, Succeeded(name), name, limits);
    HealthIsIncremental(h + [Succeeded(name)], Failed(name, at), name, limits);
  }

  lemma LastResets(s: Statuses, events: seq<Event>, name: string)
    requires events != [] && name != ""
    requires Resets(events[|events| - 1].kind) && events[|events| - 1].backend == name
    ensures
      var after := Absorbed(s, events, |events|);
      name in after && after[name] == ProviderStatus(true, 0, None)
  {
  }

  /** Every backend that a configuration builds has one. */
  lemma ConfiguredBackendsAreNamed(cfg: Config, bs: seq<Backend>)
    requires Built(ConfiguredEndpoints(cfg), bs)
    ensures "" !in NameSet(bs)
  {
    hide ProviderName, ConfiguredEndpoints;
    forall i | 0 <= i < |bs| ensures bs[i].name != "" {
      Seeding.NameIsNotBlank(ConfiguredEndpoints(cfg)[i]);
    }
  }

  /** Whatever copy agreed before the deeds, by whatever names, agrees after them, if the news of each
      backend was delivered in the order of its marks. */
  ghost predicate KeepsReplicas(h: seq<Mark>, deeds: seq<Deed>, limits: Limits) {
    forall s, names, delivered ::
      Replica(s, names, h, limits) && "" !in names && OfBackends(AllMarks(deeds), names) && InOrderForEach(delivered, h, deeds, limits) ==>
      Replica(Absorbed(s, delivered, |delivered|), names, h + AllMarks(deeds), limits)
  }

  lemma AllDeedsKeepReplicas(h: seq<Mark>, deeds: seq<Deed>, limits: Limits)
    requires limits.failureThreshold >= 1
    ensures KeepsReplicas(h, deeds, limits)
  {
    hide Replica, OfBackends, InOrderForEach, Absorbed, Marks;
    forall s, names, delivered |
      Replica(s, names, h, limits) && "" !in names && OfBackends(AllMarks(deeds), names) && InOrderForEach(delivered, h, deeds, limits)
      ensures Replica(Absorbed(s, delivered, |delivered|), names, h + AllMarks(deeds), limits)
    {
      DeedsKeepReplica(s, names, h, deeds, delivered, limits);
    }
  }

  // ---- Joining lists of deeds ----

  lemma {:induction false} MarksPrefix(a: seq<Deed>, b: seq<Deed>, n: nat)
    requires n <= |a|
    ensures Marks(a + b, n) == Marks(a, n)
  {
    hide MarkSeq;
    if n > 0 {
      MarksPrefix(a, b, n - 1);
      assert (a + b)[n - 1] == a[n - 1];
    }
  }

  lemma {:induction false} MarksSuffix(a: seq<Deed>, b: seq<Deed>, n: nat)
    requires n <= |b|
    ensures Marks(a + b, |a| + n) == Marks(a, |a|) + Marks(b, n)
  {
    hide MarkSeq;
    if n == 0 {
      MarksPrefix(a, b, |a|);
    } else {
      MarksSuffix(a, b, n - 1);
      assert (a + b)[|a| + n - 1] == b[n - 1];
      Router.Concatenated(Marks(a, |a|), Marks(b, n - 1), MarkSeq(b[n - 1].op));
    }
  }

  function AllMarks(deeds: seq<Deed>): seq<Mark> {
    Marks(deeds, |deeds|)
  }

  function AllTold(h: seq<Mark>, deeds: seq<Deed>, limits: Limits): seq<Event> {
    Told(h, deeds, |deeds|, limits)
  }

  lemma MarksJoin(a: seq<Deed>, b: seq<Deed>)
    ensures AllMarks(a + b) == AllMarks(a) + AllMarks(b)
  {
    hide Marks;
    MarksSuffix(a, b, |b|);
    assert |a + b| == |a| + |b|;
  }

  lemma {:induction false} ToldPrefix(h: seq<Mark>, a: seq<Deed>, b: seq<Deed>, n: nat, limits: Limits)
    requires n <= |a|
    ensures Told(h, a + b, n, limits) == Told(h, a, n, limits)
  {
    hide EventsOf, Marks;
    if n > 0 {
      ToldPrefix(h, a, b, n - 1, limits);
      MarksPrefix(a, b, n - 1);
      assert (a + b)[n - 1] == a[n - 1];
    }
  }

  lemma {:induction false} ToldSuffix(h: seq<Mark>, a: seq<Deed>, b: seq<Deed>, n: nat, limits: Limits)
    requires n <= |b|
    ensures Told(h, a + b, |a| + n, limits) == Told(h, a, |a|, limits) + Told(h + Marks(a, |a|), b, n, limits)
  {
    hide EventsOf, Marks;
    if n == 0 {
      ToldPrefix(h, a, b, |a|, limits);
    } else {
      ToldSuffix(h, a, b, n - 1, limits);
      MarksSuffix(a, b, n - 1);
      Router.Concatenated(h, Marks(a, |a|), Marks(b, n - 1));
      assert (a + b)[|a| + n - 1] == b[n - 1];
      var last := if b[n - 1].own then EventsOf(b[n - 1].op, (h + Marks(a, |a|)) + Marks(b, n - 1), limits) else [];
      Router.Concatenated(Told(h, a, |a|, limits), Told(h + Marks(a, |a|), b, n - 1, limits), last);
    }
  }

  lemma ToldJoin(h: seq<Mark>, a: seq<Deed>, b: seq<Deed>, limits: Limits)
    ensures AllTold(h, a + b, limits) == AllTold(h, a, limits) + AllTold(h + AllMarks(a), b, limits)
  {
    hide Told, Marks;
    ToldSuffix(h, a, b, |b|, limits);
    assert |a + b| == |a| + |b|;
  }

  predicate Foreign(deeds: seq<Deed>) {
    forall i :: 0 <= i < |deeds| ==> !deeds[i].own
  }

  lemma {:induction false} ForeignTellsNothing(h: seq<Mark>, deeds: seq<Deed>, n: nat, limits: Limits)
    requires n <= |deeds| && Foreign(deeds)
    ensures Told(h, deeds, n, limits) == []
  {
    if n > 0 {
      ForeignTellsNothing(h, deeds, n - 1, limits);
    }
  }

  /** One own deed after the deeds of other calls. */
  lemma CompanyThenOwn(h: seq<Mark>, before: seq<Deed>, company: seq<Deed>, op: Op, limits: Limits)
    requires Foreign(company)
    ensures
      var deeds, then_ := before + company + [Deed(true, op)], h + AllMarks(before) + AllMarks(company);
      && AllMarks(deeds) == AllMarks(before) + AllMarks(company) + MarkSeq(op)
      && AllTold(h, deeds, limits) == AllTold(h, before, limits) + EventsOf(op, then_, limits)
  {
    hide EventsOf, MarkSeq;
    var own := [Deed(true, op)];
    MarksJoin(before, company);
    MarksJoin(before + company, own);
    ToldJoin(h, before, company, limits);
    ToldJoin(h, before + company, own, limits);
    ForeignTellsNothing(h + AllMarks(before), company, |company|, limits);
    Router.Concatenated(h, AllMarks(before), AllMarks(company));
    OneDeed(h + (AllMarks(before) + AllMarks(company)), op, limits);
    assert AllTold(h, before, limits) + [] == AllTold(h, before, limits);
  }

  lemma OneDeed(h: seq<Mark>, op: Op, limits: Limits)
    ensures AllMarks([Deed(true, op)]) == MarkSeq(op)
    ensures AllTold(h, [Deed(true, op)], limits) == EventsOf(op, h, limits)
  {
    hide EventsOf, MarkSeq;
    var own := [Deed(true, op)];
    assert Marks(own, 0) == [] && Told(h, own, 0, limits) == [];
    assert Marks(own, 1) == [] + MarkSeq(op);
    assert h + [] == h;
    assert Told(h, own, 1, limits) == [] + EventsOf(op, h, limits);
  }

  /** Other calls can leave any marks: each of them is some deed's. */
  function Anyone(m: Mark): Deed {
    match m
    case Succeeded(name) => Deed(false, Winning(Create, name, 1))
    case Failed(name, at) => Deed(false, Losing(false, Create, name, 1, "", at))
    case ProbeSucceeded(name, probedAt) => Deed(false, Probing(Backend(name, 0, [], [], 0), ProbeTurn([], probedAt, Listed, 0)))
    case ProbeFailed(name, at, probedAt, error) =>
      Deed(false, Probing(Backend(name, 0, [], [], 0), ProbeTurn([], probedAt, ListFailed(error), at)))
  }

  lemma {:induction false} AnyMarksAreDeeds(others: seq<Mark>, n: nat) returns (deeds: seq<Deed>)
    requires n <= |others|
    ensures Foreign(deeds) && AllMarks(deeds) == others[..n]
  {
    if n == 0 {
      return [];
    }
    var front := AnyMarksAreDeeds(others, n - 1);
    var last := Anyone(others[n - 1]);
    deeds := front + [last];
    MarksPrefix(front, [last], |front|);
    assert others[..n] == others[..n - 1] + [others[n - 1]];
  }

  // ---- A request in company ----

  /** What the other calls do before each attempt, with the marks that the script says. */
  type Company = (nat, Backend) -> seq<Deed>

  ghost predicate Accompanies<T(!new)>(company: Company, script: Script<T>) {
    forall i, b :: Foreign(company(i, b)) && AllMarks(company(i, b)) == script(i, b).others
  }

  function Refusal<T>(operation: Operation, cands: seq<Backend>, script: Script<T>, i: nat): Op
    requires i < |cands| && script(i, cands[i]).outcome.Refused?
  {
    var a := script(i, cands[i]);
    Losing(false, operation, cands[i].name, i + 1, ErrorText(a.outcome.error), a.failedAt)
  }

  function RefusalDeeds<T>(operation: Operation, cands: seq<Backend>, skipped: seq<Backend>, script: Script<T>, company: Company, k: nat): seq<Deed>
    requires k <= |cands|
    requires forall j :: 0 <= j < k ==> script(j, cands[j]).outcome.Refused?
  {
    if k == 0 then [Deed(true, Skipping(operation, skipped))]
    else RefusalDeeds(operation, cands, skipped, script, company, k - 1) + company(k - 1, cands[k - 1]) + [Deed(true, Refusal(operation, cands, script, k - 1))]
  }

  lemma {:induction false} RefusalsTold<T(!new)>(operation: Operation, cands: seq<Backend>, skipped: seq<Backend>, script: Script<T>,
                                           company: Company, k: nat, h: seq<Mark>, limits: Limits)
    requires k <= |cands| && Accompanies(company, script)
    requires forall j :: 0 <= j < k ==> script(j, cands[j]).outcome.Refused?
    ensures
      var deeds := RefusalDeeds(operation, cands, skipped, script, company, k);
      && h + AllMarks(deeds) == h + RefusedMarks(cands, script, k)
      && AllTold(h, deeds, limits) == SkippedEvents(operation, skipped) + RefusedEvents(operation, cands, script, k, h, limits)
  {
    hide AllMarks, AllTold, FailureEvent, SkippedEvents;
    if k == 0 {
      OneDeed(h, Skipping(operation, skipped), limits);
      assert SkippedEvents(operation, skipped) + [] == SkippedEvents(operation, skipped);
    } else {
      RefusalsTold(operation, cands, skipped, script, company, k - 1, h, limits);
      var before := RefusalDeeds(operation, cands, skipped, script, company, k - 1);
      var op := Refusal(operation, cands, script, k - 1);
      CompanyThenOwn(h, before, company(k - 1, cands[k - 1]), op, limits);
      RefusedOneMore(cands, script, k - 1, h);
      Fallback.Regroup(h, AllMarks(before), AllMarks(company(k - 1, cands[k - 1])), MarkSeq(op));
      Router.Concatenated(AllMarks(before), AllMarks(company(k - 1, cands[k - 1])), MarkSeq(op));
      Router.Concatenated(SkippedEvents(operation, skipped), RefusedEvents(operation, cands, script, k - 1, h, limits),
                          EventsOf(op, HistoryAt(cands, script, k - 1, h), limits));
    }
  }

  /** The deeds of a whole request: skips, refusals, and the win of the deciding candidate, if it wins. */
  function RequestDeeds<T>(operation: Operation, cands: seq<Backend>, skipped: seq<Backend>, script: Script<T>, company: Company): seq<Deed> {
    var k := Deciding(cands, script, 0);
    var refusals := RefusalDeeds(operation, cands, skipped, script, company, k);
    if k < |cands| && script(k, cands[k]).outcome.Answered? then
      refusals + company(k, cands[k]) + [Deed(true, Winning(operation, cands[k].name, k + 1))]
    else if k < |cands| then refusals + company(k, cands[k])
    else refusals
  }

  /** The marks and the reports of a request among the marks of other calls. */
  lemma RequestTold<T(!new)>(operation: Operation, cands: seq<Backend>, skipped: seq<Backend>, script: Script<T>,
                       company: Company, h: seq<Mark>, limits: Limits)
    requires Accompanies(company, script)
    ensures
      var k, deeds := Deciding(cands, script, 0), RequestDeeds(operation, cands, skipped, script, company);
      var events := SkippedEvents(operation, skipped) + RefusedEvents(operation, cands, script, k, h, limits);
      if k == |cands| then h + AllMarks(deeds) == h + RefusedMarks(cands, script, k) && AllTold(h, deeds, limits) == events
      else
        var before := HistoryAt(cands, script, k, h);
        if script(k, cands[k]).outcome.Answered? then
          && h + AllMarks(deeds) == before + [Succeeded(cands[k].name)]
          && AllTold(h, deeds, limits) == events + SuccessEvents(operation, cands[k].name, k + 1, before)
        else h + AllMarks(deeds) == before && AllTold(h, deeds, limits) == events
  {
    hide AllMarks, AllTold, SuccessEvents, SkippedEvents, RefusedEvents, RefusedMarks, RefusalDeeds;
    var k := Deciding(cands, script, 0);
    var refusals := RefusalDeeds(operation, cands, skipped, script, company, k);
    RefusalsTold(operation, cands, skipped, script, company, k, h, limits);
    if k < |cands| {
      var marks := AllMarks(company(k, cands[k]));
      if script(k, cands[k]).outcome.Answered? {
        var op := Winning(operation, cands[k].name, k + 1);
        CompanyThenOwn(h, refusals, company(k, cands[k]), op, limits);
        Fallback.Regroup(h, AllMarks(refusals), marks, MarkSeq(op));
        Router.Concatenated(AllMarks(refusals), marks, MarkSeq(op));
      } else {
        MarksJoin(refusals, company(k, cands[k]));
        ToldJoin(h, refusals, company(k, cands[k]), limits);
        ForeignTellsAll(h + AllMarks(refusals), company(k, cands[k]), limits);
        Router.Concatenated(h, AllMarks(refusals), marks);
      }
    }
  }

  lemma ForeignTellsAll(h: seq<Mark>, deeds: seq<Deed>, limits: Limits)
    requires Foreign(deeds)
    ensures AllTold(h, deeds, limits) == []
  {
    ForeignTellsNothing(h, deeds, |deeds|, limits);
  }

  // ---- A stream in company ----

  /** What the other calls do before each turn of the forwarding. */
  type TurnCompany = nat -> seq<Deed>

  ghost predicate AccompaniesTurns(company: TurnCompany, turns: Turns, n: nat) {
    forall i :: 0 <= i < n ==> Foreign(company(i)) && AllMarks(company(i)) == turns(i).others
  }

  function CompanyDeeds(company: TurnCompany, n: nat): seq<Deed> {
    if n == 0 then [] else CompanyDeeds(company, n - 1) + company(n - 1)
  }

  lemma {:induction false} CompanyMarks(company: TurnCompany, turns: Turns, n: nat, m: nat)
    requires n <= m && AccompaniesTurns(company, turns, m)
    ensures Foreign(CompanyDeeds(company, n)) && AllMarks(CompanyDeeds(company, n)) == OthersDuring(turns, n)
  {
    hide AllMarks;
    if n == 0 {
      NoDeeds();
    } else {
      CompanyMarks(company, turns, n - 1, m);
      MarksJoin(CompanyDeeds(company, n - 1), company(n - 1));
    }
  }

  lemma NoDeeds()
    ensures AllMarks([]) == []
  {
  }

  /** The deeds of forwarding: what the others do, and the interruption, if there is one. */
  function ForwardingDeeds(name: string, attempt: nat, sent: seq<StreamEvent>, turns: Turns, company: TurnCompany): seq<Deed> {
    var p := Ending(sent, turns, 0);
    CompanyDeeds(company, if p == |sent| then p else p + 1)
    + if Interrupted(sent, turns) then [Deed(true, Losing(true, Stream, name, attempt, ErrorText(sent[p].error), turns(p).failedAt))]
      else []
  }

  lemma ForwardingTold(name: string, attempt: nat, sent: seq<StreamEvent>, turns: Turns, company: TurnCompany, h: seq<Mark>, limits: Limits)
    requires AccompaniesTurns(company, turns, |sent|)
    ensures AllMarks(ForwardingDeeds(name, attempt, sent, turns, company)) == ForwardingMarks(name, sent, turns)
    ensures AllTold(h, ForwardingDeeds(name, attempt, sent, turns, company), limits)
         == InterruptionEvents(name, attempt, sent, turns, h, limits)
  {
    hide AllMarks, AllTold, FailureEvent;
    var p := Ending(sent, turns, 0);
    var n := if p == |sent| then p else p + 1;
    CompanyMarks(company, turns, n, |sent|);
    var others := CompanyDeeds(company, n);
    ForeignTellsAll(h, others, limits);
    if Interrupted(sent, turns) {
      var op := Losing(true, Stream, name, attempt, ErrorText(sent[p].error), turns(p).failedAt);
      CompanyThenOwn(h, [], others, op, limits);
      NothingBefore(h, others, limits);
      Router.Concatenated(h, OthersDuring(turns, n), MarkSeq(op));
    } else {
      assert others + [] == others;
    }
  }

  lemma NothingBefore(h: seq<Mark>, others: seq<Deed>, limits: Limits)
    ensures [] + others == others && AllMarks([]) == [] && AllTold(h, [], limits) == []
    ensures h + AllMarks([]) == h
    ensures AllMarks([]) + AllMarks(others) == AllMarks(others)
  {
  }

  // ---- A round of probes in company ----

  ghost predicate AccompaniesProbes(company: Company, script: ProbeScript) {
    forall i, b :: Foreign(company(i, b)) && AllMarks(company(i, b)) == script(i, b).others
  }

  function ProbeDeeds(backends: seq<Backend>, script: ProbeScript, company: Company, n: nat): seq<Deed>
    requires n <= |backends|
  {
    if n == 0 then []
    else
      ProbeDeeds(backends, script, company, n - 1) + company(n - 1, backends[n - 1])
      + [Deed(true, Probing(backends[n - 1], script(n - 1, backends[n - 1])))]
  }

  lemma {:induction false} ProbesTold(backends: seq<Backend>, script: ProbeScript, company: Company, n: nat, h: seq<Mark>, limits: Limits)
    requires n <= |backends| && AccompaniesProbes(company, script)
    ensures h + AllMarks(ProbeDeeds(backends, script, company, n)) == Probed(backends, script, n, h)
    ensures AllTold(h, ProbeDeeds(backends, script, company, n), limits) == ProbeReport(backends, script, n, h, limits)
  {
    hide AllMarks, AllTold, ProbeEvents, ProbeMark;
    if n == 0 {
      NothingBefore(h, [], limits);
    } else {
      ProbesTold(backends, script, company, n - 1, h, limits);
      var before := ProbeDeeds(backends, script, company, n - 1);
      var op := Probing(backends[n - 1], script(n - 1, backends[n - 1]));
      CompanyThenOwn(h, before, company(n - 1, backends[n - 1]), op, limits);
      Router.Concatenated(h, AllMarks(before), AllMarks(company(n - 1, backends[n - 1])));
      Router.Concatenated(h, AllMarks(before) + AllMarks(company(n - 1, backends[n - 1])), MarkSeq(op));
      ProbeMarkIsOne(backends[n - 1], script(n - 1, backends[n - 1]));
    }
  }

  lemma ProbeMarkIsOne(b: Backend, t: ProbeTurn)
    ensures MarkSeq(Probing(b, t)) == ProbeMark(b, t)
  {
  }

  // ---- The router's methods, watched ----

  /** A create request among other calls: the deeds account for all of the router's new history and for
      everything that the request reports, and if the news of each backend is
      delivered in the order of its marks, the registry stays in agreement. */
  method WatchedCreate(router: Router.Router, model: string, now: Time, script: Script<Response>, ghost company: Company)
    returns (r: Result<Response, Error>, reported: seq<Event>, ghost deeds: seq<Deed>)
    requires router.Valid()
    requires Accompanies(company, script)
    modifies router
    ensures router.Valid() && router.history == old(router.history) + AllMarks(deeds)
    ensures reported == AllTold(old(router.history), deeds, router.limits)
    ensures KeepsReplicas(old(router.history), deeds, router.limits)
  {
    hide RankedBackends, CandidatesOf, SkippedOf, AllMarks, AllTold, RefusedEvents, RefusedMarks, SkippedEvents, SuccessEvents,
         RequestDeeds, HistoryAt, KeepsReplicas;
    ghost var h := router.history;
    ghost var ranked := RankedBackends(router.backends, model);
    ghost var cands, skipped := CandidatesOf(ranked, h, router.limits, now), SkippedOf(ranked, h, router.limits, now);
    r, reported := router.CreateChatCompletion(model, now, script);
    RequestTold(Create, cands, skipped, script, company, h, router.limits);
    deeds := if cands == [] then [] else RequestDeeds(Create, cands, skipped, script, company);
    NothingBefore(h, [], router.limits);
    AllDeedsKeepReplicas(h, deeds, router.limits);
  }

  /** A stream request among other calls, to the end of the stream. */
  method WatchedStream(router: Router.Router, model: string, now: Time, script: Script<OpenStream>, turns: Turns,
                       ghost company: Company, ghost later: TurnCompany)
    returns (r: Result<seq<StreamEvent>, Error>, reported: seq<Event>, ghost deeds: seq<Deed>)
    requires router.Valid()
    requires Accompanies(company, AwaitedScript(script))
    requires forall n :: AccompaniesTurns(later, turns, n)
    modifies router
    ensures router.Valid() && router.history == old(router.history) + AllMarks(deeds)
    ensures reported == AllTold(old(router.history), deeds, router.limits)
    ensures KeepsReplicas(old(router.history), deeds, router.limits)
  {
    hide RankedBackends, CandidatesOf, SkippedOf, AllMarks, AllTold, RefusedEvents, RefusedMarks, SkippedEvents, SuccessEvents,
         RequestDeeds, ForwardingDeeds, ForwardingMarks, InterruptionEvents, HistoryAt, AwaitedScript, Forwarded, KeepsReplicas;
    ghost var h := router.history;
    ghost var ranked, awaited := RankedBackends(router.backends, model), AwaitedScript(script);
    ghost var cands, skipped := CandidatesOf(ranked, h, router.limits, now), SkippedOf(ranked, h, router.limits, now);
    ghost var k := Deciding(cands, awaited, 0);
    var called, cancelled;
    r, reported, called, cancelled := router.StreamChatCompletion(model, now, script, turns);
    RequestTold(Stream, cands, skipped, awaited, company, h, router.limits);
    deeds := if cands == [] then [] else RequestDeeds(Stream, cands, skipped, awaited, company);
    NothingBefore(h, [], router.limits);
    if k < |cands| && awaited(k, cands[k]).outcome.Answered? {
      var name, sent := cands[k].name, awaited(k, cands[k]).outcome.value;
      var forwarding := ForwardingDeeds(name, k + 1, sent, turns, later);
      ForwardingTold(name, k + 1, sent, turns, later, h + AllMarks(deeds), router.limits);
      MarksJoin(deeds, forwarding);
      ToldJoin(h, deeds, forwarding, router.limits);
      Router.Concatenated(h, AllMarks(deeds), AllMarks(forwarding));
      deeds := deeds + forwarding;
    }
    AllDeedsKeepReplicas(h, deeds, router.limits);
  }

  /** A round of probes among other calls. */
  method WatchedProbes(router: Router.Router, script: ProbeScript, ghost company: Company)
    returns (reported: seq<Event>, ghost deeds: seq<Deed>)
    requires router.Valid() && AccompaniesProbes(company, script)
    modifies router
    ensures router.Valid() && router.history == old(router.history) + AllMarks(deeds)
    ensures reported == AllTold(old(router.history), deeds, router.limits)
    ensures KeepsReplicas(old(router.history), deeds, router.limits)
  {
    hide AllMarks, AllTold, ProbeReport, Probed, KeepsReplicas;
    ghost var h := router.history;
    reported := router.ProbeAll(script);
    ProbesTold(router.backends, script, company, |router.backends|, h, router.limits);
    deeds := ProbeDeeds(router.backends, script, company, |router.backends|);
    AllDeedsKeepReplicas(h, deeds, router.limits);
  }
}
