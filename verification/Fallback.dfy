/** What the provider router is to do with a request, as functions of the marks its backends have had
    and of what the backends answer (internal/provider/router/chat.go).
    Other calls run at the same time. Each of them touches the router only inside the mark methods,
    so what they do between two steps of a call is a list of marks, the `others` of that step. */
module Fallback {
  import opened Wrappers
  import opened Ranking
  import opened Health
  import opened Provider

  // ---- Events ----

  datatype EventKind =
    | RequestSucceeded | FallbackSucceeded | Recovered
    | RequestFailed | StreamInterrupted
    | SkippedUnhealthy | ProbeSkipped | ProbePassed | ProbeRefused

  datatype Operation = Create | Stream | Probe

  datatype Event = Event(
    kind: EventKind, operation: Operation, backend: string, attempt: nat,
    consecutiveFailures: nat, unhealthyUntil: Option<Time>, error: string)

  function PlainEvent(kind: EventKind, operation: Operation, backend: string, attempt: nat): Event {
    Event(kind, operation, backend, attempt, 0, None, "")
  }

  /** The event of a failure, with the backend's health after the mark that ends history h. */
  function FailureEvent(kind: EventKind, operation: Operation, backend: string, attempt: nat,
                        h: seq<Mark>, limits: Limits, error: string): Event
  {
    Event(kind, operation, backend, attempt, Failures(h, backend), UnhealthyUntil(h, backend, limits), error)
  }

  /** The events of a request's success that marks the end of history h. */
  function SuccessEvents(operation: Operation, backend: string, attempt: nat, h: seq<Mark>): seq<Event> {
    [PlainEvent(RequestSucceeded, operation, backend, attempt)]
    + (if attempt > 1 then [PlainEvent(FallbackSucceeded, operation, backend, attempt)] else [])
    + (if Failures(h, backend) > 0 then [PlainEvent(Recovered, operation, backend, attempt)] else [])
  }

  function SkippedEvents(operation: Operation, backends: seq<Backend>): (events: seq<Event>)
    ensures |events| == |backends|
  {
    seq(|backends|, i requires 0 <= i < |backends| => PlainEvent(SkippedUnhealthy, operation, backends[i].name, 0))
  }

  // ---- Candidates ----

  /** Those of the first n backends that are, or are not, cooling down. */
  function Split(ranked: seq<Backend>, n: nat, cooling: bool, h: seq<Mark>, limits: Limits, now: Time): seq<Backend>
    requires n <= |ranked|
  {
    if n == 0 then []
    else
      var front, b := Split(ranked, n - 1, cooling, h, limits, now), ranked[n - 1];
      if CoolingDown(HealthOf(h, b.name, limits), now) == cooling then front + [b] else front
  }

  /** The backends a request tries: those not cooling down, or all of them when all are. */
  function CandidatesOf(ranked: seq<Backend>, h: seq<Mark>, limits: Limits, now: Time): seq<Backend> {
    var available := Split(ranked, |ranked|, false, h, limits, now);
    if available == [] then Split(ranked, |ranked|, true, h, limits, now) else available
  }

  function SkippedOf(ranked: seq<Backend>, h: seq<Mark>, limits: Limits, now: Time): seq<Backend> {
    if Split(ranked, |ranked|, false, h, limits, now) == [] then []
    else Split(ranked, |ranked|, true, h, limits, now)
  }

  function NoCandidatesError(configured: nat): Error {
    Other(if configured == 0 then "no provider backends configured" else "no provider backends matched routing policy")
  }

  // ---- Attempts ----

  /** One attempt: the marks of other calls before its own mark, its outcome, and the router's clock
      when it is marked as failed. */
  datatype Attempt<+T> = Attempt(others: seq<Mark>, outcome: Outcome<T>, failedAt: Time)

  /** What each backend answers when it is tried in the given place. */
  type Script<T> = (nat, Backend) -> Attempt<T>

  /** The first attempt from i on that ends the loop, or the number of candidates. */
  function Deciding<T>(cands: seq<Backend>, script: Script<T>, i: nat): (k: nat)
    requires i <= |cands|
    ensures i <= k <= |cands|
    ensures forall j :: i <= j < k ==> script(j, cands[j]).outcome.Refused?
    ensures k < |cands| ==> !script(k, cands[k]).outcome.Refused?
    decreases |cands| - i
  {
    if i == |cands| || !script(i, cands[i]).outcome.Refused? then i else Deciding(cands, script, i + 1)
  }

  /** The marks of the first k attempts when all of them are refused. */
  function RefusedMarks<T>(cands: seq<Backend>, script: Script<T>, k: nat): seq<Mark>
    requires k <= |cands|
  {
    if k == 0 then []
    else
      var a := script(k - 1, cands[k - 1]);
      RefusedMarks(cands, script, k - 1) + (a.others + [Failed(cands[k - 1].name, a.failedAt)])
  }

  function RefusedEvents<T>(operation: Operation, cands: seq<Backend>, script: Script<T>, k: nat,
                            h: seq<Mark>, limits: Limits): seq<Event>
    requires k <= |cands|
    requires forall j :: 0 <= j < k ==> script(j, cands[j]).outcome.Refused?
  {
    if k == 0 then []
    else
      var error := script(k - 1, cands[k - 1]).outcome.error;
      RefusedEvents(operation, cands, script, k - 1, h, limits)
      + [FailureEvent(RequestFailed, operation, cands[k - 1].name, k, h + RefusedMarks(cands, script, k), limits,
                      ErrorText(error))]
  }

  /** The history when attempt k is marked, all before it having been refused. */
  function HistoryAt<T>(cands: seq<Backend>, script: Script<T>, k: nat, h: seq<Mark>): seq<Mark>
    requires k < |cands|
  {
    h + RefusedMarks(cands, script, k) + script(k, cands[k]).others
  }

  lemma Regroup<T>(h: seq<T>, x: seq<T>, y: seq<T>, z: seq<T>)
    ensures h + (x + (y + z)) == h + x + y + z
  {
    assert x + (y + z) == (x + y) + z;
    assert h + ((x + y) + z) == (h + (x + y)) + z;
    assert h + (x + y) == (h + x) + y;
  }

  lemma RefusedOneMore<T>(cands: seq<Backend>, script: Script<T>, k: nat, h: seq<Mark>)
    requires k < |cands|
    ensures h + RefusedMarks(cands, script, k + 1)
         == HistoryAt(cands, script, k, h) + [Failed(cands[k].name, script(k, cands[k]).failedAt)]
  {
    var a := script(k, cands[k]);
    Regroup(h, RefusedMarks(cands, script, k), a.others, [Failed(cands[k].name, a.failedAt)]);
  }

  // ---- Opening a stream ----

  /** What the wait for the first event meets. The timer exists only for a positive timeout. */
  datatype FirstWait = Received | TimedOut | Cancelled(error: Error)

  /** A stream that a backend has opened: everything it will send, until it closes. */
  datatype OpenStream = OpenStream(events: seq<StreamEvent>, wait: FirstWait)

  function FirstEvent(b: Backend, s: OpenStream): Result<StreamEvent, Error> {
    if s.wait.Cancelled? then Err(s.wait.error)
    else if s.wait.TimedOut? && b.firstEventTimeout > 0 then Err(Other("context deadline exceeded"))
    else if s.events == [] then Err(Other("upstream stream closed before first chunk"))
    else if s.events[0].Failure? then Err(s.events[0].error)
    else Ok(s.events[0])
  }

  /** The wait was neither cancelled nor timed out, where there is a timeout. */
  predicate Waited(b: Backend, wait: FirstWait) {
    wait.Received? || (wait.TimedOut? && b.firstEventTimeout <= 0)
  }

  /** An opened stream without a first chunk is a refusal. */
  function Awaited(b: Backend, o: Outcome<OpenStream>): (r: Outcome<seq<StreamEvent>>)
    ensures r.Answered? ==> r.value != [] && r.value[0].Chunk?
  {
    match o
    case Refused(e) => Refused(e)
    case Unaccounted(e) => Unaccounted(e)
    case Answered(s) =>
      match FirstEvent(b, s)
      case Err(e) => Refused(e)
      case Ok(_) => Answered(s.events)
  }

  /** A stream counts as answered exactly when it was opened and its first chunk was waited for and
      came; an accounting error counts only when it comes from opening. */
  lemma AwaitedMeans(b: Backend, o: Outcome<OpenStream>)
    ensures
      var r := Awaited(b, o);
      && (r.Answered? <==> o.Answered? && Waited(b, o.value.wait) && o.value.events != [] && o.value.events[0].Chunk?)
      && (r.Answered? ==> r.value == o.value.events)
      && (r.Unaccounted? <==> o.Unaccounted?)
      && (r.Unaccounted? || (r.Refused? && o.Refused?) ==> r.error == o.error)
      && (r.Refused? && o.Answered? && Waited(b, o.value.wait) && o.value.events != [] ==>
            o.value.events[0].Failure? && r.error == o.value.events[0].error)
  {
  }

  function AwaitedScript(script: Script<OpenStream>): Script<seq<StreamEvent>> {
    (i: nat, b: Backend) =>
      var a := script(i, b);
      Attempt(a.others, Awaited(b, a.outcome), a.failedAt)
  }

  /** One attempt of the awaited script, in terms of what opening gave. */
  lemma AwaitedAt(script: Script<OpenStream>, i: nat, b: Backend)
    ensures
      var a, w := script(i, b), AwaitedScript(script)(i, b);
      && w.others == a.others && w.failedAt == a.failedAt
      && match a.outcome
         case Refused(e) => w.outcome == Outcome.Refused(e)
         case Unaccounted(e) => w.outcome == Outcome.Unaccounted(e)
         case Answered(s) =>
           match FirstEvent(b, s)
           case Err(e) => w.outcome == Outcome.Refused(e)
           case Ok(_) => w.outcome == Outcome.Answered(s.events) && s.events != []
  {
  }

  // ---- Forwarding a stream ----

  /** Whether the request's context is found done before an event is received, or while it is offered. */
  datatype Turn = Turn(others: seq<Mark>, stop: Stop, failedAt: Time)
  datatype Stop = Deliver | StopBefore | StopDuring

  type Turns = nat -> Turn

  /** The first event has been received before its turn. */
  predicate Received(turns: Turns, i: nat) {
    i == 0 || !turns(i).stop.StopBefore?
  }

  /** The position from i on at which forwarding ends, or the number of events. */
  function Ending(events: seq<StreamEvent>, turns: Turns, i: nat): (p: nat)
    requires i <= |events|
    ensures i <= p <= |events|
    ensures forall j :: i <= j < p ==> events[j].Chunk? && Received(turns, j) && !turns(j).stop.StopDuring?
    ensures p < |events| ==> events[p].Failure? || !Received(turns, p) || turns(p).stop.StopDuring?
    decreases |events| - i
  {
    if i == |events| || events[i].Failure? || !Received(turns, i) || turns(i).stop.StopDuring? then i
    else Ending(events, turns, i + 1)
  }

  predicate Interrupted(events: seq<StreamEvent>, turns: Turns) {
    var p := Ending(events, turns, 0);
    p < |events| && events[p].Failure? && Received(turns, p)
  }

  /** What reaches the reader of the wrapped stream. */
  function Forwarded(events: seq<StreamEvent>, turns: Turns): seq<StreamEvent> {
    var p := Ending(events, turns, 0);
    events[..p] + if Interrupted(events, turns) && !turns(p).stop.StopDuring? then [events[p]] else []
  }

  /** The marks of other calls during the first n turns. */
  function OthersDuring(turns: Turns, n: nat): seq<Mark> {
    if n == 0 then [] else OthersDuring(turns, n - 1) + turns(n - 1).others
  }

  function ForwardingMarks(name: string, events: seq<StreamEvent>, turns: Turns): seq<Mark> {
    var p := Ending(events, turns, 0);
    OthersDuring(turns, if p == |events| then p else p + 1)
    + if Interrupted(events, turns) then [Failed(name, turns(p).failedAt)] else []
  }

  /** What forwarding amounts to in each of the ways in which it ends. */
  lemma ForwardingEnds(name: string, events: seq<StreamEvent>, turns: Turns)
    ensures
      var p := Ending(events, turns, 0);
      if p == |events| then
        !Interrupted(events, turns) && Forwarded(events, turns) == events
        && ForwardingMarks(name, events, turns) == OthersDuring(turns, p)
      else if events[p].Chunk? || !Received(turns, p) then
        !Interrupted(events, turns) && Forwarded(events, turns) == events[..p]
        && ForwardingMarks(name, events, turns) == OthersDuring(turns, p + 1)
      else
        Interrupted(events, turns)
        && Forwarded(events, turns) == (if turns(p).stop.StopDuring? then events[..p] else events[..p] + [events[p]])
        && ForwardingMarks(name, events, turns) == OthersDuring(turns, p + 1) + [Failed(name, turns(p).failedAt)]
    ensures forall attempt, h, limits ::
      InterruptionEvents(name, attempt, events, turns, h, limits) ==
      if Interrupted(events, turns) then
        var p := Ending(events, turns, 0);
        [FailureEvent(StreamInterrupted, Stream, name, attempt, h + ForwardingMarks(name, events, turns), limits,
                      ErrorText(events[p].error))]
      else []
  {
    assert events[..|events|] == events;
  }

  /** The event of an interruption, for a stream that starts at history h. */
  function InterruptionEvents(name: string, attempt: nat, events: seq<StreamEvent>, turns: Turns,
                              h: seq<Mark>, limits: Limits): seq<Event>
  {
    var p := Ending(events, turns, 0);
    if Interrupted(events, turns) then
      [FailureEvent(StreamInterrupted, Stream, name, attempt, h + ForwardingMarks(name, events, turns), limits,
                    ErrorText(events[p].error))]
    else []
  }

  // ---- Probing ----

  datatype ProbeOutcome = NotAModelProvider | Listed | ListFailed(error: string)

  /** One probe: the marks of other calls before its own mark, its clock readings, and its outcome. */
  datatype ProbeTurn = ProbeTurn(others: seq<Mark>, probedAt: Time, outcome: ProbeOutcome, failedAt: Time)

  type ProbeScript = (nat, Backend) -> ProbeTurn

  function ProbeMark(b: Backend, t: ProbeTurn): seq<Mark> {
    match t.outcome
    case NotAModelProvider => []
    case Listed => [ProbeSucceeded(b.name, t.probedAt)]
    case ListFailed(error) => [ProbeFailed(b.name, t.failedAt, t.probedAt, error)]
  }

  /** The events of a probe that marks the end of history h. */
  function ProbeEvents(b: Backend, t: ProbeTurn, h: seq<Mark>, limits: Limits): seq<Event> {
    match t.outcome
    case NotAModelProvider => [PlainEvent(ProbeSkipped, Probe, b.name, 0)]
    case Listed =>
      [PlainEvent(ProbePassed, Probe, b.name, 0)]
      + if Failures(h, b.name) > 0 then [PlainEvent(Recovered, Probe, b.name, 0)] else []
    case ListFailed(error) =>
      [FailureEvent(ProbeRefused, Probe, b.name, 0, h + ProbeMark(b, t), limits, error)]
  }

  /** The history after the first n probes. */
  function Probed(backends: seq<Backend>, script: ProbeScript, n: nat, h: seq<Mark>): seq<Mark>
    requires n <= |backends|
  {
    if n == 0 then h
    else
      var b, t := backends[n - 1], script(n - 1, backends[n - 1]);
      Probed(backends, script, n - 1, h) + t.others + ProbeMark(b, t)
  }

  function ProbeReport(backends: seq<Backend>, script: ProbeScript, n: nat, h: seq<Mark>, limits: Limits): seq<Event>
    requires n <= |backends|
  {
    if n == 0 then []
    else
      var b, t := backends[n - 1], script(n - 1, backends[n - 1]);
      ProbeReport(backends, script, n - 1, h, limits)
      + ProbeEvents(b, t, Probed(backends, script, n - 1, h) + t.others, limits)
  }
}
