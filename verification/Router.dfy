/** The provider router: health, fallback, the streaming boundary and probes
    (internal/provider/router/chat.go). */
module Router {
  import opened Wrappers
  import opened Ranking
  import opened Health
  import opened Provider
  import opened Fallback

  datatype BackendStatus = BackendStatus(
    name: string, priority: int, models: seq<string>, routeRules: seq<RouteRule>,
    healthy: bool, consecutiveFailures: nat, unhealthyUntil: Option<Time>,
    lastProbeAt: Option<Time>, lastProbeError: string)

  function StatusOf(b: Backend, s: BackendState, now: Time): BackendStatus {
    BackendStatus(b.name, b.priority, b.models, b.routeRules, !CoolingDown(s, now),
                  s.consecutiveFailures, s.unhealthyUntil, s.lastProbeAt, s.lastProbeError)
  }

  function Names(backends: seq<Backend>, n: nat): (names: seq<string>)
    requires n <= |backends|
    ensures |names| == n
  {
    if n == 0 then [] else Names(backends, n - 1) + [backends[n - 1].name]
  }

  class Router {
    const backends: seq<Backend>
    const limits: Limits
    var states: map<string, BackendState>
    ghost var history: seq<Mark>

    constructor (backends: seq<Backend>, failureThreshold: int, cooldown: Time)
      ensures Valid() && history == []
      ensures this.backends == backends
      ensures limits == Limits(if failureThreshold <= 0 then 1 else failureThreshold,
                               if cooldown <= 0 then 30_000_000_000 else cooldown)
    {
      this.backends := backends;
      limits := Limits(if failureThreshold <= 0 then 1 else failureThreshold,
                       if cooldown <= 0 then 30_000_000_000 else cooldown);
      states := map[];
      history := [];
    }

    function StateOf(name: string): BackendState
      reads this
    {
      if name in states then states[name] else UNMARKED
    }

    /** Every recorded state is the health that the history gives. */
    ghost predicate Valid()
      reads this
    {
      limits.failureThreshold >= 1 && forall name :: StateOf(name) == HealthOf(history, name, limits)
    }

    method MarkSuccess(name: string) returns (recovered: bool)
      requires Valid()
      modifies this
      ensures Valid() && history == old(history) + [Succeeded(name)]
      ensures recovered <==> Failures(old(history), name) > 0
    {
      Remember(Succeeded(name));
      CooldownNeedsFailures(history, name, limits);
      var previous := StateOf(name);
      states := states[name := BackendState(0, None, previous.lastProbeAt, "")];
      history := history + [Succeeded(name)];
      recovered := previous.consecutiveFailures > 0 || previous.unhealthyUntil.Some?;
    }

    method MarkFailure(name: string, now: Time) returns (failures: nat, unhealthyUntil: Option<Time>)
      requires Valid()
      modifies this
      ensures Valid() && history == old(history) + [Failed(name, now)]
      ensures failures == Failures(history, name) && unhealthyUntil == UnhealthyUntil(history, name, limits)
    {
      Remember(Failed(name, now));
      var state := StateOf(name);
      state := state.(consecutiveFailures := state.consecutiveFailures + 1);
      if state.consecutiveFailures >= limits.failureThreshold {
        state := state.(unhealthyUntil := Some(now + limits.cooldown));
      }
      states := states[name := state];
      history := history + [Failed(name, now)];
      return state.consecutiveFailures, state.unhealthyUntil;
    }

    method MarkProbeSuccess(name: string, probedAt: Time) returns (recovered: bool)
      requires Valid()
      modifies this
      ensures Valid() && history == old(history) + [ProbeSucceeded(name, probedAt)]
      ensures recovered <==> Failures(old(history), name) > 0
    {
      Remember(ProbeSucceeded(name, probedAt));
      CooldownNeedsFailures(history, name, limits);
      var previous := StateOf(name);
      states := states[name := BackendState(0, None, Some(probedAt), "")];
      history := history + [ProbeSucceeded(name, probedAt)];
      recovered := previous.consecutiveFailures > 0 || previous.unhealthyUntil.Some?;
    }

    method MarkProbeFailure(name: string, error: string, probedAt: Time, now: Time)
      returns (failures: nat, unhealthyUntil: Option<Time>)
      requires Valid()
      modifies this
      ensures Valid() && history == old(history) + [ProbeFailed(name, now, probedAt, error)]
      ensures failures == Failures(history, name) && unhealthyUntil == UnhealthyUntil(history, name, limits)
    {
      Remember(ProbeFailed(name, now, probedAt, error));
      var state := StateOf(name);
      state := BackendState(state.consecutiveFailures + 1, state.unhealthyUntil, Some(probedAt), error);
      if state.consecutiveFailures >= limits.failureThreshold {
        state := state.(unhealthyUntil := Some(now + limits.cooldown));
      }
      states := states[name := state];
      history := history + [ProbeFailed(name, now, probedAt, error)];
      return state.consecutiveFailures, state.unhealthyUntil;
    }

    /** What the next mark will mean for every backend. */
    lemma Remember(m: Mark)
      requires limits.failureThreshold >= 1
      ensures forall name :: HealthOf(history + [m], name, limits) ==
                if m.name == name then Marked(HealthOf(history, name, limits), m, limits)
                else HealthOf(history, name, limits)
    {
      hide HealthOf, Marked;
      forall name ensures HealthOf(history + [m], name, limits) ==
          if m.name == name then Marked(HealthOf(history, name, limits), m, limits)
          else HealthOf(history, name, limits)
      {
        HealthIsIncremental(history, m, name, limits);
      }
    }

    /** Marks of other calls. */
    method Interfere(others: seq<Mark>)
      requires Valid()
      modifies this
      ensures Valid() && history == old(history) + others
    {
      hide HealthOf;
      for i := 0 to |others|
        invariant Valid() && history == old(history) + others[..i]
      {
        match others[i] {
          case Succeeded(name) =>
            var _ := MarkSuccess(name);
          case Failed(name, at) =>
            var _, _ := MarkFailure(name, at);
          case ProbeSucceeded(name, probedAt) =>
            var _ := MarkProbeSuccess(name, probedAt);
          case ProbeFailed(name, at, probedAt, error) =>
            var _, _ := MarkProbeFailure(name, error, probedAt, at);
        }
        assert others[..i + 1] == others[..i] + [others[i]];
      }
      assert others[..|others|] == others;
    }

    method Candidates(model: string, now: Time) returns (candidates: seq<Backend>, skipped: seq<Backend>)
      requires Valid()
      ensures candidates == CandidatesOf(RankedBackends(backends, model), history, limits, now)
      ensures skipped == SkippedOf(RankedBackends(backends, model), history, limits, now)
    {
      hide HealthOf, RankedBackends;
      var ranked := RankBackends(backends, model);
      candidates, skipped := [], [];
      for i := 0 to |ranked|
        invariant candidates == Split(ranked, i, false, history, limits, now)
        invariant skipped == Split(ranked, i, true, history, limits, now)
      {
        var state := StateOf(ranked[i].name);
        if state.unhealthyUntil.Some? && state.unhealthyUntil.value > now {
          skipped := skipped + [ranked[i]];
          continue;
        }
        candidates := candidates + [ranked[i]];
      }
      if |candidates| == 0 {
        candidates, skipped := candidates + skipped, [];
      }
    }

    method BackendStatuses(now: Time) returns (statuses: seq<BackendStatus>)
      requires Valid()
      ensures |statuses| == |backends|
      ensures forall i :: 0 <= i < |backends| ==>
                statuses[i] == StatusOf(backends[i], HealthOf(history, backends[i].name, limits), now)
      ensures forall i :: 0 <= i < |backends| ==>
                var b, s := backends[i], HealthOf(history, backends[i].name, limits);
                statuses[i] == BackendStatus(b.name, b.priority, b.models, b.routeRules,
                                             s.unhealthyUntil.None? || s.unhealthyUntil.value <= now,
                                             s.consecutiveFailures, s.unhealthyUntil, s.lastProbeAt, s.lastProbeError)
    {
      hide HealthOf;
      statuses := [];
      for i := 0 to |backends|
        invariant |statuses| == i
        invariant forall j :: 0 <= j < i ==>
                    statuses[j] == StatusOf(backends[j], HealthOf(history, backends[j].name, limits), now)
      {
        var b, state := backends[i], StateOf(backends[i].name);
        var healthy := state.unhealthyUntil.None? || state.unhealthyUntil.value <= now;
        statuses := statuses + [BackendStatus(b.name, b.priority, b.models, b.routeRules, healthy,
                                              state.consecutiveFailures, state.unhealthyUntil,
                                              state.lastProbeAt, state.lastProbeError)];
      }
    }

    method Ready(now: Time) returns (ready: bool)
      requires Valid()
      ensures ready <==> exists i :: 0 <= i < |backends| && !CoolingDown(HealthOf(history, backends[i].name, limits), now)
    {
      hide HealthOf;
      var statuses := BackendStatuses(now);
      for i := 0 to |statuses|
        invariant forall j :: 0 <= j < i ==> !statuses[j].healthy
      {
        if statuses[i].healthy {
          return true;
        }
      }
      return false;
    }

    /** The winner of a request is reset, and its success is reported. */
    method Win(operation: Operation, name: string, attempt: nat) returns (events: seq<Event>)
      requires Valid()
      modifies this
      ensures Valid() && history == old(history) + [Succeeded(name)]
      ensures events == SuccessEvents(operation, name, attempt, old(history))
    {
      hide HealthOf;
      var recovered := MarkSuccess(name);
      events := [PlainEvent(RequestSucceeded, operation, name, attempt)];
      if attempt > 1 {
        events := events + [PlainEvent(FallbackSucceeded, operation, name, attempt)];
      }
      if recovered {
        events := events + [PlainEvent(Recovered, operation, name, attempt)];
      }
    }

    /** A failure is marked and reported. */
    method Lose(kind: EventKind, operation: Operation, name: string, attempt: nat, error: string, now: Time)
      returns (event: Event)
      requires Valid()
      modifies this
      ensures Valid() && history == old(history) + [Failed(name, now)]
      ensures event == FailureEvent(kind, operation, name, attempt, history, limits, error)
    {
      hide HealthOf;
      var failures, unhealthyUntil := MarkFailure(name, now);
      event := Event(kind, operation, name, attempt, failures, unhealthyUntil, error);
    }

    /** A create request: the first answer in candidate order wins, every refusal before it is marked,
        and an accounting error stops the loop without marking its backend. */
    method CreateChatCompletion(model: string, now: Time, script: Script<Response>)
      returns (r: Result<Response, Error>, reported: seq<Event>)
      requires Valid()
      modifies this
      ensures Valid()
      ensures
        var ranked := RankedBackends(backends, model);
        var cands := CandidatesOf(ranked, old(history), limits, now);
        var k := Deciding(cands, script, 0);
        var events := SkippedEvents(Create, SkippedOf(ranked, old(history), limits, now))
                      + RefusedEvents(Create, cands, script, k, old(history), limits);
        if cands == [] then
          && r == Err(NoCandidatesError(|backends|)) && history == old(history) && reported == []
          && r.error == Other(if backends == [] then "no provider backends configured" else "no provider backends matched routing policy")
        else if k == |cands| then
          && r == Err(script(k - 1, cands[k - 1]).outcome.error)
          && history == old(history) + RefusedMarks(cands, script, k) && reported == events
        else
          var before := HistoryAt(cands, script, k, old(history));
          match script(k, cands[k]).outcome
          case Answered(response) =>
            && r == Ok(response) && history == before + [Succeeded(cands[k].name)]
            && reported == events + SuccessEvents(Create, cands[k].name, k + 1, before)
          case Unaccounted(error) => r == Err(error) && history == before && reported == events
    {
      hide HealthOf, RankedBackends, CandidatesOf, SkippedOf, SuccessEvents, FailureEvent, SkippedEvents, RefusedMarks;
      var candidates, skipped := Candidates(model, now);
      if |candidates| == 0 {
        return Err(NoCandidatesError(|backends|)), [];
      }
      reported := SkippedEvents(Create, skipped);
      ghost var k := Deciding(candidates, script, 0);
      ghost var begun := reported;
      NoMarksYet(candidates, script);
      var lastErr := Other("");
      for index := 0 to |candidates|
        invariant Valid() && index <= k
        invariant history == old(history) + RefusedMarks(candidates, script, index)
        invariant reported == begun + RefusedEvents(Create, candidates, script, index, old(history), limits)
        invariant index > 0 ==> lastErr == script(index - 1, candidates[index - 1]).outcome.error
      {
        var backend := candidates[index];
        var attempt := script(index, backend);
        Interfere(attempt.others);
        RefusedOneMore(candidates, script, index, old(history));
        match attempt.outcome {
          case Answered(response) =>
            var events := Win(Create, backend.name, index + 1);
            return Ok(response), reported + events;
          case Unaccounted(error) =>
            return Err(error), reported;
          case Refused(error) =>
            lastErr := error;
            var event := Lose(RequestFailed, Create, backend.name, index + 1, ErrorText(error), attempt.failedAt);
            reported := reported + [event];
        }
      }
      return Err(lastErr), reported;
    }

    /** A stream request, to the end of the stream: the first backend that delivers a chunk is committed
        to, and its events are forwarded. Every backend that was called has its context cancelled. */
    method StreamChatCompletion(model: string, now: Time, script: Script<OpenStream>, turns: Turns)
      returns (r: Result<seq<StreamEvent>, Error>, reported: seq<Event>, called: seq<string>, cancelled: seq<string>)
      requires Valid()
      modifies this
      ensures Valid()
      ensures cancelled == called
      ensures
        var ranked := RankedBackends(backends, model);
        var cands := CandidatesOf(ranked, old(history), limits, now);
        var awaited := AwaitedScript(script);
        var k := Deciding(cands, awaited, 0);
        var events := SkippedEvents(Stream, SkippedOf(ranked, old(history), limits, now))
                      + RefusedEvents(Stream, cands, awaited, k, old(history), limits);
        if cands == [] then
          && r == Err(NoCandidatesError(|backends|)) && history == old(history) && reported == [] && called == []
          && r.error == Other(if backends == [] then "no provider backends configured" else "no provider backends matched routing policy")
        else if k == |cands| then
          && r == Err(awaited(k - 1, cands[k - 1]).outcome.error)
          && history == old(history) + RefusedMarks(cands, awaited, k) && reported == events
          && called == Names(cands, k)
        else
          var before, name := HistoryAt(cands, awaited, k, old(history)), cands[k].name;
          && called == Names(cands, k + 1)
          && match awaited(k, cands[k]).outcome
             case Answered(sent) =>
               var started := before + [Succeeded(name)];
               && r == Ok(Forwarded(sent, turns))
               && history == started + ForwardingMarks(name, sent, turns)
               && reported == events + SuccessEvents(Stream, name, k + 1, before)
                              + InterruptionEvents(name, k + 1, sent, turns, started, limits)
             case Unaccounted(error) => r == Err(error) && history == before && reported == events
    {
      hide HealthOf, RankedBackends, CandidatesOf, SkippedOf, SuccessEvents, FailureEvent, SkippedEvents, RefusedMarks,
           Forwarded, ForwardingMarks, InterruptionEvents, FirstEvent, Awaited, AwaitedScript;
      called, cancelled := [], [];
      var candidates, skipped := Candidates(model, now);
      if |candidates| == 0 {
        return Err(NoCandidatesError(|backends|)), [], [], [];
      }
      reported := SkippedEvents(Stream, skipped);
      ghost var awaited := AwaitedScript(script);
      ghost var k := Deciding(candidates, awaited, 0);
      ghost var begun := reported;
      NoMarksYet(candidates, awaited);
      var lastErr := Other("");
      for index := 0 to |candidates|
        invariant Valid() && index <= k
        invariant history == old(history) + RefusedMarks(candidates, awaited, index)
        invariant reported == begun + RefusedEvents(Stream, candidates, awaited, index, old(history), limits)
        invariant called == Names(candidates, index) && cancelled == called
        invariant index > 0 ==> lastErr == awaited(index - 1, candidates[index - 1]).outcome.error
      {
        var backend := candidates[index];
        var attempt := script(index, backend);
        Interfere(attempt.others);
        AwaitedAt(script, index, backend);
        RefusedOneMore(candidates, awaited, index, old(history));
        called := called + [backend.name];
        match attempt.outcome {
          case Unaccounted(error) =>
            cancelled := cancelled + [backend.name];
            return Err(error), reported, called, cancelled;
          case Refused(error) =>
            cancelled := cancelled + [backend.name];
            lastErr := error;
            var event := Lose(RequestFailed, Stream, backend.name, index + 1, ErrorText(error), attempt.failedAt);
            reported := reported + [event];
          case Answered(stream) =>
            match FirstEvent(backend, stream) {
              case Err(error) =>
                cancelled := cancelled + [backend.name];
                lastErr := error;
                var event := Lose(RequestFailed, Stream, backend.name, index + 1, ErrorText(error), attempt.failedAt);
                reported := reported + [event];
              case Ok(first) =>
                var events := Win(Stream, backend.name, index + 1);
                var forwarded, interruption := WrapStream(backend.name, index + 1, stream.events, turns);
                cancelled := cancelled + [backend.name];
                return Ok(forwarded), reported + events + interruption, called, cancelled;
            }
        }
      }
      return Err(lastErr), reported, called, cancelled;
    }

    /** One event offered to the reader; an error is marked and reported whether or not it is read. */
    method ForwardStreamEvent(name: string, attempt: nat, event: StreamEvent, turn: Turn)
      returns (delivered: bool, next: bool, events: seq<Event>)
      requires Valid()
      modifies this
      ensures Valid()
      ensures delivered <==> !turn.stop.StopDuring?
      ensures next <==> delivered && event.Chunk?
      ensures event.Chunk? ==> history == old(history) && events == []
      ensures event.Failure? ==>
                && history == old(history) + [Failed(name, turn.failedAt)]
                && events == [FailureEvent(StreamInterrupted, Stream, name, attempt, history, limits, ErrorText(event.error))]
    {
      hide HealthOf, FailureEvent;
      events := [];
      delivered := !turn.stop.StopDuring?;
      match event {
        case Failure(error) =>
          var reported := Lose(StreamInterrupted, Stream, name, attempt, ErrorText(error), turn.failedAt);
          events := [reported];
          next := false;
        case Chunk(_) =>
          next := delivered;
      }
    }

    /** The goroutine that forwards a stream: its first event has been received, and the others follow
        until the stream closes, fails, or the request's context is done. */
    method WrapStream(name: string, attempt: nat, sent: seq<StreamEvent>, turns: Turns)
      returns (forwarded: seq<StreamEvent>, events: seq<Event>)
      requires Valid() && sent != []
      modifies this
      ensures Valid()
      ensures forwarded == Forwarded(sent, turns)
      ensures history == old(history) + ForwardingMarks(name, sent, turns)
      ensures events == InterruptionEvents(name, attempt, sent, turns, old(history), limits)
    {
      hide HealthOf, FailureEvent, Forwarded, ForwardingMarks, InterruptionEvents, Interrupted;
      forwarded := [];
      ghost var p := Ending(sent, turns, 0);
      ForwardingEnds(name, sent, turns);
      for i := 0 to |sent|
        invariant Valid() && i <= p && p == Ending(sent, turns, i)
        invariant history == old(history) + OthersDuring(turns, i)
        invariant forwarded == sent[..i]
      {
        var turn := turns(i);
        Interfere(turn.others);
        Concatenated(old(history), OthersDuring(turns, i), turn.others);
        assert history == old(history) + OthersDuring(turns, i + 1);
        if i > 0 && turn.stop.StopBefore? {
          assert p == i;
          return forwarded, [];
        }
        var delivered, next, reported := ForwardStreamEvent(name, attempt, sent[i], turn);
        if sent[i].Failure? {
          assert p == i;
          Concatenated(old(history), OthersDuring(turns, i + 1), [Failed(name, turn.failedAt)]);
          assert history == old(history) + ForwardingMarks(name, sent, turns);
        }
        if delivered {
          forwarded := forwarded + [sent[i]];
        }
        if !next {
          assert p == i;
          return forwarded, reported;
        }
        assert sent[..i + 1] == sent[..i] + [sent[i]];
      }
      assert sent[..|sent|] == sent;
      return forwarded, [];
    }

    /** Every backend that lists models is asked for them, and marked by the answer. */
    method ProbeAll(script: ProbeScript) returns (reported: seq<Event>)
      requires Valid()
      modifies this
      ensures Valid() && history == Probed(backends, script, |backends|, old(history))
      ensures reported == ProbeReport(backends, script, |backends|, old(history), limits)
    {
      hide HealthOf, Failures, UnhealthyUntil, ProbeMark, ProbeEvents;
      reported := [];
      for i := 0 to |backends|
        invariant Valid() && history == Probed(backends, script, i, old(history))
        invariant reported == ProbeReport(backends, script, i, old(history), limits)
      {
        var b := backends[i];
        var turn := script(i, b);
        Interfere(turn.others);
        var events := ProbeOne(b, turn);
        reported := reported + events;
      }
    }

    method ProbeOne(b: Backend, turn: ProbeTurn) returns (events: seq<Event>)
      requires Valid()
      modifies this
      ensures Valid() && history == old(history) + ProbeMark(b, turn)
      ensures events == ProbeEvents(b, turn, old(history), limits)
      ensures
        match turn.outcome
        case NotAModelProvider =>
          history == old(history) && events == [Event(ProbeSkipped, Probe, b.name, 0, 0, None, "")]
        case Listed =>
          && history == old(history) + [ProbeSucceeded(b.name, turn.probedAt)]
          && events == [Event(ProbePassed, Probe, b.name, 0, 0, None, "")]
                       + (if Failures(old(history), b.name) > 0 then [Event(Recovered, Probe, b.name, 0, 0, None, "")] else [])
        case ListFailed(error) =>
          && history == old(history) + [ProbeFailed(b.name, turn.failedAt, turn.probedAt, error)]
          && events == [Event(ProbeRefused, Probe, b.name, 0, Failures(history, b.name),
                              UnhealthyUntil(history, b.name, limits), error)]
    {
      hide HealthOf, Failures, UnhealthyUntil;
      match turn.outcome {
        case NotAModelProvider =>
          events := [PlainEvent(ProbeSkipped, Probe, b.name, 0)];
        case ListFailed(error) =>
          var failures, unhealthyUntil := MarkProbeFailure(b.name, error, turn.probedAt, turn.failedAt);
          events := [Event(ProbeRefused, Probe, b.name, 0, failures, unhealthyUntil, error)];
        case Listed =>
          var recovered := MarkProbeSuccess(b.name, turn.probedAt);
          events := [PlainEvent(ProbePassed, Probe, b.name, 0)];
          if recovered {
            events := events + [PlainEvent(Recovered, Probe, b.name, 0)];
          }
      }
    }
  }

  lemma NoMarksYet<T>(cands: seq<Backend>, script: Script<T>)
    ensures RefusedMarks(cands, script, 0) == []
  {
  }

  lemma Concatenated<T>(a: seq<T>, b: seq<T>, c: seq<T>)
    ensures (a + b) + c == a + (b + c)
  {
  }

  lemma CooldownNeedsFailures(h: seq<Mark>, name: string, limits: Limits)
    requires limits.failureThreshold >= 1
    ensures HealthOf(h, name, limits).unhealthyUntil.Some? ==> Failures(h, name) > 0
  {
  }
}
