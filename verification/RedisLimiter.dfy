/** The per-minute counters that admit requests without a transaction
    (internal/service/governance/redis_limiter.go, internal/store/redis/client.go). */
module RedisLimiter {
  import opened Wrappers
  import opened Sums
  import opened Ledger

  datatype CounterKind = Rpm | Tpm

  /** The counter's name: kind, tenant, and the minute that the clock is in. */
  datatype Key = Key(kind: CounterKind, tenant: nat, minute: int)

  function MinuteCounterKey(kind: CounterKind, tenant: nat, now: Time): Key {
    Key(kind, tenant, now / MINUTE)
  }

  datatype Counter = Counter(value: int, expiresAt: Option<Time>)

  type Counters = map<Key, Counter>

  /** What the counters have been used for, oldest first. */
  datatype Entry =
    | Admitted(tenant: nat, tokens: nat, now: Time)
    | Completed(tenant: nat, tokens: nat, now: Time)

  datatype State = State(counters: Counters, clock: Time, log: seq<Entry>)

  const EMPTY := State(map[], 0, [])

  /** How long a counter lives after its last admission or expiry command. */
  const TTL: Time := 120

  /** One command, made for the minute of now and carried out at the server's time at. */
  datatype Command =
    | Script(tenant: nat, promptTokens: nat, now: Time, at: Time)
    | IncrBy(tenant: nat, tokens: nat, now: Time, at: Time)
    | Expire(tenant: nat, now: Time, at: Time)

  datatype Verdict = Admitting | RpmExceeded | TpmExceeded

  type LimitsOf = nat -> TenantLimits

  /** An expired counter is gone. */
  predicate IsLive(counters: Counters, key: Key, at: Time) {
    key in counters && (counters[key].expiresAt.None? || counters[key].expiresAt.value > at)
  }

  function Live(counters: Counters, key: Key, at: Time): int {
    if IsLive(counters, key, at) then counters[key].value else 0
  }

  function Judge(limits: LimitsOf, s: State, c: Command): Verdict
    requires c.Script?
  {
    var requests := Live(s.counters, MinuteCounterKey(Rpm, c.tenant, c.now), c.at);
    var tokens := Live(s.counters, MinuteCounterKey(Tpm, c.tenant, c.now), c.at);
    if limits(c.tenant).rpmLimit > 0 && requests + 1 > limits(c.tenant).rpmLimit then RpmExceeded
    else if limits(c.tenant).tpmLimit > 0 && tokens + c.promptTokens > limits(c.tenant).tpmLimit then TpmExceeded
    else Admitting
  }

  function Do(limits: LimitsOf, s: State, c: Command): State {
    match c
    case Script(tenant, prompt, now, at) =>
      var rpm, tpm := MinuteCounterKey(Rpm, tenant, now), MinuteCounterKey(Tpm, tenant, now);
      if Judge(limits, s, c).Admitting? then
        State(s.counters[rpm := Counter(Live(s.counters, rpm, at) + 1, Some(at + TTL))]
                        [tpm := Counter(Live(s.counters, tpm, at) + prompt, Some(at + TTL))],
              at, s.log + [Admitted(tenant, prompt, now)])
      else s.(clock := at)
    case IncrBy(tenant, tokens, now, at) =>
      var tpm := MinuteCounterKey(Tpm, tenant, now);
      var expiry := if IsLive(s.counters, tpm, at) then s.counters[tpm].expiresAt else None;
      State(s.counters[tpm := Counter(Live(s.counters, tpm, at) + tokens, expiry)], at, s.log + [Completed(tenant, tokens, now)])
    case Expire(tenant, now, at) =>
      var tpm := MinuteCounterKey(Tpm, tenant, now);
      if IsLive(s.counters, tpm, at) then
        s.(counters := s.counters[tpm := s.counters[tpm].(expiresAt := Some(at + TTL))], clock := at)
      else s.(clock := at)
  }

  /** The server's clock does not run backwards, and a command is carried out within a minute of the
      time it was made for. */
  predicate Timely(s: State, c: Command) {
    s.clock <= c.at && c.now <= c.at < c.now + MINUTE
  }

  function Run(limits: LimitsOf, commands: seq<Command>, n: nat): State
    requires n <= |commands|
  {
    if n == 0 then EMPTY else Do(limits, Run(limits, commands, n - 1), commands[n - 1])
  }

  /** The first n commands are timely where they stand. */
  predicate AllTimely(limits: LimitsOf, commands: seq<Command>, n: nat)
    requires n <= |commands|
  {
    forall i :: 0 <= i < n ==> Timely(Run(limits, commands, i), commands[i])
  }

  // ---- What the log counts ----

  function RequestsIn(tenant: nat, minute: int): Entry -> int {
    (e: Entry) => if e.Admitted? && e.tenant == tenant && e.now / MINUTE == minute then 1 else 0
  }

  function PromptsIn(tenant: nat, minute: int): Entry -> int {
    (e: Entry) => if e.Admitted? && e.tenant == tenant && e.now / MINUTE == minute then e.tokens else 0
  }

  function TokensIn(tenant: nat, minute: int): Entry -> int {
    (e: Entry) => if e.tenant == tenant && e.now / MINUTE == minute then e.tokens else 0
  }

  function RequestsDuring(tenant: nat, from: Time): Entry -> int {
    (e: Entry) => if e.Admitted? && e.tenant == tenant && from <= e.now < from + MINUTE then 1 else 0
  }

  function PromptsDuring(tenant: nat, from: Time): Entry -> int {
    (e: Entry) => if e.Admitted? && e.tenant == tenant && from <= e.now < from + MINUTE then e.tokens else 0
  }

  // ---- Accounting ----

  function Stored(counters: Counters, key: Key): int {
    if key in counters then counters[key].value else 0
  }

  /** Each minute's counters are what the log says, and the limits bind in it. */
  predicate MinuteKept(limits: LimitsOf, s: State, tenant: nat, minute: int) {
    && Stored(s.counters, Key(Rpm, tenant, minute)) == All(s.log, RequestsIn(tenant, minute))
    && Stored(s.counters, Key(Tpm, tenant, minute)) == All(s.log, TokensIn(tenant, minute))
    && (limits(tenant).rpmLimit > 0 ==> All(s.log, RequestsIn(tenant, minute)) <= limits(tenant).rpmLimit)
    && (limits(tenant).tpmLimit > 0 ==> All(s.log, PromptsIn(tenant, minute)) <= limits(tenant).tpmLimit)
  }

  /** No counter expires while commands for its minute can still arrive. */
  predicate LivesLongEnough(key: Key, c: Counter) {
    c.expiresAt.None? || c.expiresAt.value >= MINUTE * (key.minute + 2)
  }

  predicate NoneExpiresEarly(s: State) {
    forall key :: key in s.counters ==> LivesLongEnough(key, s.counters[key])
  }

  ghost predicate Accounts(limits: LimitsOf, s: State) {
    && NoneExpiresEarly(s)
    && forall tenant, minute :: MinuteKept(limits, s, tenant, minute)
  }

  /** A timely command finds its minute's counters alive. */
  lemma TimelyIsLive(s: State, c: Command, kind: CounterKind)
    requires NoneExpiresEarly(s) && Timely(s, c)
    ensures
      var key := MinuteCounterKey(kind, c.tenant, c.now);
      Live(s.counters, key, c.at) == Stored(s.counters, key)
  {
    var key := MinuteCounterKey(kind, c.tenant, c.now);
    assert c.at < MINUTE * (key.minute + 2);
    if key in s.counters {
      assert LivesLongEnough(key, s.counters[key]);
    }
  }

  lemma NoneExpiresEarlyAfter(limits: LimitsOf, s: State, c: Command)
    requires NoneExpiresEarly(s) && Timely(s, c)
    ensures NoneExpiresEarly(Do(limits, s, c))
  {
    hide Judge, Live;
    assert c.at + TTL >= MINUTE * (c.now / MINUTE + 2);
  }

  lemma {:induction false} PromptsAreTokens(log: seq<Entry>, tenant: nat, minute: int)
    ensures All(log, PromptsIn(tenant, minute)) <= All(log, TokensIn(tenant, minute))
  {
    SumAtMost(log, |log|, PromptsIn(tenant, minute), TokensIn(tenant, minute));
  }

  /** What one more entry adds to the counts of a minute. */
  lemma OneEntryMore(log: seq<Entry>, e: Entry, tenant: nat, minute: int)
    ensures
      var mine := e.tenant == tenant && e.now / MINUTE == minute;
      && All(log + [e], RequestsIn(tenant, minute)) == All(log, RequestsIn(tenant, minute)) + (if mine && e.Admitted? then 1 else 0)
      && All(log + [e], PromptsIn(tenant, minute)) == All(log, PromptsIn(tenant, minute)) + (if mine && e.Admitted? then e.tokens else 0)
      && All(log + [e], TokensIn(tenant, minute)) == All(log, TokensIn(tenant, minute)) + (if mine then e.tokens else 0)
  {
    Appended(log, e, RequestsIn(tenant, minute));
    Appended(log, e, PromptsIn(tenant, minute));
    Appended(log, e, TokensIn(tenant, minute));
  }

  lemma ScriptKeepsMinute(limits: LimitsOf, s: State, c: Command, tenant: nat, minute: int)
    requires NoneExpiresEarly(s) && Timely(s, c) && MinuteKept(limits, s, tenant, minute) && c.Script?
    ensures MinuteKept(limits, Do(limits, s, c), tenant, minute)
  {
    hide All, Live;
    TimelyIsLive(s, c, Rpm);
    TimelyIsLive(s, c, Tpm);
    PromptsAreTokens(s.log, tenant, minute);
    OneEntryMore(s.log, Admitted(c.tenant, c.promptTokens, c.now), tenant, minute);
  }

  lemma OtherCommandsKeepMinute(limits: LimitsOf, s: State, c: Command, tenant: nat, minute: int)
    requires NoneExpiresEarly(s) && Timely(s, c) && MinuteKept(limits, s, tenant, minute) && !c.Script?
    ensures MinuteKept(limits, Do(limits, s, c), tenant, minute)
  {
    hide All, Live;
    TimelyIsLive(s, c, Tpm);
    if c.IncrBy? {
      OneEntryMore(s.log, Completed(c.tenant, c.tokens, c.now), tenant, minute);
    }
  }

  lemma EmptyAccounts(limits: LimitsOf)
    ensures Accounts(limits, EMPTY)
  {
  }

  lemma CommandKeepsAccounts(limits: LimitsOf, s: State, c: Command)
    requires Accounts(limits, s) && Timely(s, c)
    ensures Accounts(limits, Do(limits, s, c))
  {
    hide Do, MinuteKept, NoneExpiresEarly, Timely;
    NoneExpiresEarlyAfter(limits, s, c);
    forall tenant, minute ensures MinuteKept(limits, Do(limits, s, c), tenant, minute) {
      if c.Script? {
        ScriptKeepsMinute(limits, s, c, tenant, minute);
      } else {
        OtherCommandsKeepMinute(limits, s, c, tenant, minute);
      }
    }
  }

  /** In every run of timely commands, however those of different requests interleave, each minute's
      request counter is the number of requests admitted in it and at most the limit, its token counter
      is the admitted prompts plus the recorded completions, and the admitted prompts are within the
      limit. */
  lemma {:induction false} WindowAccounting(limits: LimitsOf, commands: seq<Command>, n: nat)
    requires n <= |commands| && AllTimely(limits, commands, n)
    ensures Accounts(limits, Run(limits, commands, n))
  {
    hide Do, Accounts, Timely;
    if n == 0 {
      EmptyAccounts(limits);
    } else {
      WindowAccounting(limits, commands, n - 1);
      CommandKeepsAccounts(limits, Run(limits, commands, n - 1), commands[n - 1]);
    }
  }

  function Plus(a: Entry -> int, b: Entry -> int): Entry -> int {
    (e: Entry) => a(e) + b(e)
  }

  lemma {:induction false} SumOfPlus(log: seq<Entry>, n: nat, a: Entry -> int, b: Entry -> int)
    requires n <= |log|
    ensures Sum(log, n, Plus(a, b)) == Sum(log, n, a) + Sum(log, n, b)
  {
    if n > 0 {
      SumOfPlus(log, n - 1, a, b);
    }
  }

  /** A half-open minute that starts anywhere meets two minutes of the clock, so it admits at most twice
      the limits. */
  lemma AtMostTwice(limits: LimitsOf, commands: seq<Command>, n: nat, tenant: nat, from: Time)
    requires n <= |commands| && AllTimely(limits, commands, n)
    ensures
      var log := Run(limits, commands, n).log;
      && (limits(tenant).rpmLimit > 0 ==> All(log, RequestsDuring(tenant, from)) <= 2 * limits(tenant).rpmLimit)
      && (limits(tenant).tpmLimit > 0 ==> All(log, PromptsDuring(tenant, from)) <= 2 * limits(tenant).tpmLimit)
  {
    hide Run, Sum, AllTimely, Stored;
    WindowAccounting(limits, commands, n);
    var s, m := Run(limits, commands, n), from / MINUTE;
    assert MinuteKept(limits, s, tenant, m) && MinuteKept(limits, s, tenant, m + 1);
    SumOfPlus(s.log, |s.log|, RequestsIn(tenant, m), RequestsIn(tenant, m + 1));
    SumOfPlus(s.log, |s.log|, PromptsIn(tenant, m), PromptsIn(tenant, m + 1));
    SumAtMost(s.log, |s.log|, RequestsDuring(tenant, from), Plus(RequestsIn(tenant, m), RequestsIn(tenant, m + 1)));
    SumAtMost(s.log, |s.log|, PromptsDuring(tenant, from), Plus(PromptsIn(tenant, m), PromptsIn(tenant, m + 1)));
  }

  // ---- Exactly which windows keep the limits ----

  /** A minute that starts with a minute of the clock is that minute. */
  lemma AlignedWindow(limits: LimitsOf, commands: seq<Command>, n: nat, tenant: nat, from: Time)
    requires n <= |commands| && AllTimely(limits, commands, n) && from % MINUTE == 0
    ensures
      var log := Run(limits, commands, n).log;
      && (limits(tenant).rpmLimit > 0 ==> All(log, RequestsDuring(tenant, from)) <= limits(tenant).rpmLimit)
      && (limits(tenant).tpmLimit > 0 ==> All(log, PromptsDuring(tenant, from)) <= limits(tenant).tpmLimit)
  {
    hide Run, Sum, AllTimely, Stored;
    WindowAccounting(limits, commands, n);
    var s, m := Run(limits, commands, n), from / MINUTE;
    assert MinuteKept(limits, s, tenant, m);
    SumAtMost(s.log, |s.log|, RequestsDuring(tenant, from), RequestsIn(tenant, m));
    SumAtMost(s.log, |s.log|, PromptsDuring(tenant, from), PromptsIn(tenant, m));
  }

  /** Requests without a prompt, `size` of them in the last second of a clock minute, then `size` more in
      the first second of the next. */
  function Burst(tenant: nat, size: nat, boundary: Time): (commands: seq<Command>)
    ensures |commands| == 2 * size
  {
    seq(2 * size, i requires 0 <= i < 2 * size =>
      if i < size then Script(tenant, 0, boundary - 1, boundary - 1) else Script(tenant, 0, boundary, boundary))
  }

  function BurstLog(tenant: nat, size: nat, boundary: Time, n: nat): (log: seq<Entry>)
    ensures |log| == n
  {
    seq(n, i requires 0 <= i < n => Admitted(tenant, 0, if i < size then boundary - 1 else boundary))
  }

  lemma {:induction false} BurstCounts(tenant: nat, size: nat, boundary: Time, n: nat, from: Time)
    requires boundary % MINUTE == 0 && from < boundary < from + MINUTE
    ensures
      var log, m := BurstLog(tenant, size, boundary, n), boundary / MINUTE;
      && All(log, RequestsIn(tenant, m - 1)) == (if n <= size then n else size)
      && All(log, RequestsIn(tenant, m)) == (if n <= size then 0 else n - size)
      && All(log, TokensIn(tenant, m - 1)) == 0 && All(log, TokensIn(tenant, m)) == 0
      && All(log, RequestsDuring(tenant, from)) == n
  {
    hide Sum;
    if n == 0 {
      EmptySums(RequestsIn(tenant, boundary / MINUTE - 1), RequestsIn(tenant, boundary / MINUTE));
      EmptySums(TokensIn(tenant, boundary / MINUTE - 1), TokensIn(tenant, boundary / MINUTE));
      EmptySums(RequestsDuring(tenant, from), RequestsDuring(tenant, from));
      assert BurstLog(tenant, size, boundary, 0) == [];
    } else {
      BurstCounts(tenant, size, boundary, n - 1, from);
      var front := BurstLog(tenant, size, boundary, n - 1);
      var e := Admitted(tenant, 0, if n - 1 < size then boundary - 1 else boundary);
      assert BurstLog(tenant, size, boundary, n) == front + [e];
      OneEntryMore(front, e, tenant, boundary / MINUTE - 1);
      OneEntryMore(front, e, tenant, boundary / MINUTE);
      Appended(front, e, RequestsDuring(tenant, from));
    }
  }

  lemma EmptySums(a: Entry -> int, b: Entry -> int)
    ensures All([], a) == 0 && All([], b) == 0
  {
  }

  /** Every request of a burst is admitted, when the limit is the size of its halves. */
  lemma {:induction false} BurstIsAdmitted(limits: LimitsOf, tenant: nat, boundary: Time, n: nat)
    requires limits(tenant).rpmLimit >= 1 && boundary % MINUTE == 0 && boundary > 0
    requires n <= 2 * limits(tenant).rpmLimit
    ensures
      var size := limits(tenant).rpmLimit;
      var s := Run(limits, Burst(tenant, size, boundary), n);
      && s.log == BurstLog(tenant, size, boundary, n)
      && s.clock <= (if n <= size then boundary - 1 else boundary)
      && AllTimely(limits, Burst(tenant, size, boundary), n)
  {
    hide Do, Timely, Burst, BurstLog;
    if n == 0 {
      NoBurstYet(limits, tenant, boundary);
    } else {
      BurstIsAdmitted(limits, tenant, boundary, n - 1);
      BurstStep(limits, tenant, boundary, n - 1);
    }
  }

  lemma NoBurstYet(limits: LimitsOf, tenant: nat, boundary: Time)
    requires limits(tenant).rpmLimit >= 1
    ensures
      var commands := Burst(tenant, limits(tenant).rpmLimit, boundary);
      && Run(limits, commands, 0) == EMPTY && AllTimely(limits, commands, 0)
      && BurstLog(tenant, limits(tenant).rpmLimit, boundary, 0) == []
  {
  }

  /** A state that a burst of n requests has led to. */
  ghost predicate AfterBurst(limits: LimitsOf, s: State, tenant: nat, boundary: Time, n: nat) {
    && limits(tenant).rpmLimit >= 1 && Accounts(limits, s)
    && s.log == BurstLog(tenant, limits(tenant).rpmLimit, boundary, n)
    && s.clock <= (if n <= limits(tenant).rpmLimit then boundary - 1 else boundary)
  }

  lemma NextIsAdmitted(limits: LimitsOf, s: State, tenant: nat, boundary: Time, n: nat)
    requires limits(tenant).rpmLimit >= 1 && boundary % MINUTE == 0 && boundary > 0
    requires n < 2 * limits(tenant).rpmLimit && AfterBurst(limits, s, tenant, boundary, n)
    ensures
      var c := Burst(tenant, limits(tenant).rpmLimit, boundary)[n];
      c.Script? && Timely(s, c) && Judge(limits, s, c).Admitting?
  {
    hide All, Live, Stored;
    var size := limits(tenant).rpmLimit;
    var c := Burst(tenant, size, boundary)[n];
    BurstCounts(tenant, size, boundary, n, boundary - 1);
    TimelyIsLive(s, c, Rpm);
    TimelyIsLive(s, c, Tpm);
    assert c.now / MINUTE == if n < size then boundary / MINUTE - 1 else boundary / MINUTE;
    assert MinuteKept(limits, s, tenant, c.now / MINUTE);
  }

  lemma AdmittedIsLogged(limits: LimitsOf, s: State, c: Command)
    requires c.Script? && Judge(limits, s, c).Admitting?
    ensures Do(limits, s, c).log == s.log + [Admitted(c.tenant, c.promptTokens, c.now)] && Do(limits, s, c).clock == c.at
  {
    hide Judge, Live;
  }

  lemma NextBurstEntry(tenant: nat, size: nat, boundary: Time, n: nat)
    requires n < 2 * size
    ensures
      var c := Burst(tenant, size, boundary)[n];
      && c.Script? && c.at == (if n < size then boundary - 1 else boundary)
      && BurstLog(tenant, size, boundary, n + 1) == BurstLog(tenant, size, boundary, n) + [Admitted(c.tenant, c.promptTokens, c.now)]
  {
  }

  lemma OneMoreTimely(limits: LimitsOf, commands: seq<Command>, n: nat)
    requires n < |commands| && AllTimely(limits, commands, n) && Timely(Run(limits, commands, n), commands[n])
    ensures AllTimely(limits, commands, n + 1)
    ensures Run(limits, commands, n + 1) == Do(limits, Run(limits, commands, n), commands[n])
  {
    hide Timely, Do;
  }

  lemma BurstStep(limits: LimitsOf, tenant: nat, boundary: Time, n: nat)
    requires limits(tenant).rpmLimit >= 1 && boundary % MINUTE == 0 && boundary > 0
    requires n < 2 * limits(tenant).rpmLimit
    requires
      var size := limits(tenant).rpmLimit;
      var s := Run(limits, Burst(tenant, size, boundary), n);
      && s.log == BurstLog(tenant, size, boundary, n)
      && s.clock <= (if n <= size then boundary - 1 else boundary)
      && AllTimely(limits, Burst(tenant, size, boundary), n)
    ensures
      var size := limits(tenant).rpmLimit;
      var s := Run(limits, Burst(tenant, size, boundary), n + 1);
      && s.log == BurstLog(tenant, size, boundary, n + 1)
      && s.clock == (if n + 1 <= size then boundary - 1 else boundary)
      && AllTimely(limits, Burst(tenant, size, boundary), n + 1)
  {
    hide Accounts, Timely, Judge, Do, Run, AllTimely, Burst, BurstLog;
    var size := limits(tenant).rpmLimit;
    var commands := Burst(tenant, size, boundary);
    var s, c := Run(limits, commands, n), commands[n];
    WindowAccounting(limits, commands, n);
    assert AfterBurst(limits, s, tenant, boundary, n);
    NextIsAdmitted(limits, s, tenant, boundary, n);
    AdmittedIsLogged(limits, s, c);
    OneMoreTimely(limits, commands, n);
    NextBurstEntry(tenant, size, boundary, n);
  }

  /** A minute keeps the request limit in all timely runs if and only if it starts with a minute of the
      clock; any other holds twice the limit in some run. */
  lemma ExactlyAlignedWindowsHold(limits: LimitsOf, tenant: nat, from: Time)
    requires limits(tenant).rpmLimit >= 1 && from >= 0
    ensures
      (forall commands, n {:trigger Run(limits, commands, n)} :: 0 <= n <= |commands| && AllTimely(limits, commands, n) ==>
         All(Run(limits, commands, n).log, RequestsDuring(tenant, from)) <= limits(tenant).rpmLimit)
      <==> from % MINUTE == 0
    ensures from % MINUTE != 0 ==>
      var boundary := MINUTE * (from / MINUTE + 1);
      var commands := Burst(tenant, limits(tenant).rpmLimit, boundary);
      && AllTimely(limits, commands, |commands|)
      && All(Run(limits, commands, |commands|).log, RequestsDuring(tenant, from)) == 2 * limits(tenant).rpmLimit
  {
    hide Run, All, AllTimely, Burst;
    var size := limits(tenant).rpmLimit;
    if from % MINUTE == 0 {
      forall commands, n {:trigger Run(limits, commands, n)} | 0 <= n <= |commands| && AllTimely(limits, commands, n)
        ensures All(Run(limits, commands, n).log, RequestsDuring(tenant, from)) <= size
      {
        AlignedWindow(limits, commands, n, tenant, from);
      }
    } else {
      var boundary := MINUTE * (from / MINUTE + 1);
      BurstIsAdmitted(limits, tenant, boundary, 2 * size);
      BurstCounts(tenant, size, boundary, 2 * size, from);
    }
  }

  /** Two requests that use up the token limit, on either side of a minute's end. */
  function TokenBurst(tenant: nat, tokens: nat, boundary: Time): seq<Command> {
    [Script(tenant, tokens, boundary - 1, boundary - 1), Script(tenant, tokens, boundary, boundary)]
  }

  lemma TokenBurstIsAdmitted(limits: LimitsOf, tenant: nat, boundary: Time)
    requires limits(tenant).tpmLimit >= 1 && boundary % MINUTE == 0 && boundary > 0
    ensures
      var commands := TokenBurst(tenant, limits(tenant).tpmLimit, boundary);
      && AllTimely(limits, commands, 2)
      && Run(limits, commands, 2).log ==
         [Admitted(tenant, limits(tenant).tpmLimit, boundary - 1), Admitted(tenant, limits(tenant).tpmLimit, boundary)]
  {
    var tokens := limits(tenant).tpmLimit;
    var commands := TokenBurst(tenant, tokens, boundary);
    assert Run(limits, commands, 0) == EMPTY;
    var first := Run(limits, commands, 1);
    assert first == Do(limits, EMPTY, commands[0]);
    assert first.log == [Admitted(tenant, tokens, boundary - 1)];
    assert boundary / MINUTE != (boundary - 1) / MINUTE;
    assert MinuteCounterKey(Tpm, tenant, boundary) !in first.counters;
    assert MinuteCounterKey(Rpm, tenant, boundary) !in first.counters;
    assert Run(limits, commands, 2) == Do(limits, first, commands[1]);
  }

  /** The same for the token limit. */
  lemma ExactlyAlignedWindowsHoldTokens(limits: LimitsOf, tenant: nat, from: Time)
    requires limits(tenant).tpmLimit >= 1 && from >= 0
    ensures
      (forall commands, n {:trigger Run(limits, commands, n)} :: 0 <= n <= |commands| && AllTimely(limits, commands, n) ==>
         All(Run(limits, commands, n).log, PromptsDuring(tenant, from)) <= limits(tenant).tpmLimit)
      <==> from % MINUTE == 0
    ensures from % MINUTE != 0 ==>
      var commands := TokenBurst(tenant, limits(tenant).tpmLimit, MINUTE * (from / MINUTE + 1));
      && AllTimely(limits, commands, 2)
      && All(Run(limits, commands, 2).log, PromptsDuring(tenant, from)) == 2 * limits(tenant).tpmLimit
  {
    hide Run, All, AllTimely, TokenBurst;
    var tokens := limits(tenant).tpmLimit;
    if from % MINUTE == 0 {
      forall commands, n {:trigger Run(limits, commands, n)} | 0 <= n <= |commands| && AllTimely(limits, commands, n)
        ensures All(Run(limits, commands, n).log, PromptsDuring(tenant, from)) <= tokens
      {
        AlignedWindow(limits, commands, n, tenant, from);
      }
    } else {
      var boundary := MINUTE * (from / MINUTE + 1);
      TokenBurstIsAdmitted(limits, tenant, boundary);
      var a, b := Admitted(tenant, tokens, boundary - 1), Admitted(tenant, tokens, boundary);
      EmptySums(PromptsDuring(tenant, from), PromptsDuring(tenant, from));
      Appended([], a, PromptsDuring(tenant, from));
      Appended([a], b, PromptsDuring(tenant, from));
      assert [] + [a] == [a] && [a] + [b] == [a, b];
      assert |TokenBurst(tenant, tokens, boundary)| == 2 by { TokenBurstHasTwo(tenant, tokens, boundary); }
    }
  }

  lemma TokenBurstHasTwo(tenant: nat, tokens: nat, boundary: Time)
    ensures |TokenBurst(tenant, tokens, boundary)| == 2
  {
  }

  // ---- The limiter ----

  datatype Error = RateLimitExceeded | TokenLimitExceeded | LimiterUnavailable

  /** Whether the command reaches the server, and whether its answer comes back. */
  datatype Delivery = Answered | AnswerLost | NeverSent

  /** How the two commands that record a completion fare. */
  datatype Counting = Counting(now: Time, at: Time, expireAt: Time, first: Delivery, second: Delivery)

  /** What a request does to the counters: nothing for a tenant without limits, and nothing when the
      script is never sent; an answer that is lost changes them all the same. */
  function Requested(limits: LimitsOf, s: State, tenant: nat, promptTokens: nat, now: Time, at: Time, delivery: Delivery): State {
    if (limits(tenant).rpmLimit <= 0 && limits(tenant).tpmLimit <= 0) || delivery.NeverSent? then s
    else Do(limits, s, Script(tenant, promptTokens, now, at))
  }

  /** Only a positive completion of a tenant with a token limit is recorded; the expiry is renewed when
      the first command has been answered. */
  function Recorded(limits: LimitsOf, s: State, tenant: nat, tokens: int, k: Counting): State {
    if tokens <= 0 || limits(tenant).tpmLimit <= 0 || k.first.NeverSent? then s
    else
      var counted := Do(limits, s, IncrBy(tenant, tokens, k.now, k.at));
      if !k.first.Answered? || k.second.NeverSent? then counted else Do(limits, counted, Expire(tenant, k.now, k.expireAt))
  }

  /** A recording fails when a command is not answered and no other limiter stands in. */
  predicate RecordingFails(limits: LimitsOf, fallback: bool, tenant: nat, tokens: int, k: Counting) {
    tokens > 0 && limits(tenant).tpmLimit > 0 && !fallback && !(k.first.Answered? && k.second.Answered?)
  }

  class Limiter {
    const limits: LimitsOf
    /** Whether another limiter stands in when the counters cannot be reached. */
    const fallback: bool
    var state: State
    ghost var commands: seq<Command>

    constructor (limits: LimitsOf, fallback: bool)
      ensures this.limits == limits && this.fallback == fallback && state == EMPTY && commands == [] && Valid()
    {
      this.limits, this.fallback := limits, fallback;
      state, commands := EMPTY, [];
    }

    /** The counters are what the commands so far have made of them. */
    ghost predicate Valid()
      reads this
    {
      state == Run(limits, commands, |commands|)
    }

    /** So, while commands are timely, the accounting of WindowAccounting holds of the counters. */
    lemma KeepsAccounts()
      requires Valid() && AllTimely(limits, commands, |commands|)
      ensures Accounts(limits, state)
    {
      WindowAccounting(limits, commands, |commands|);
    }

    /** EVAL of the admission script, or one of the two commands that record completions. */
    method Send(c: Command, delivery: Delivery) returns (verdict: Verdict)
      requires Valid()
      modifies this
      ensures Valid() && commands == if delivery.NeverSent? then old(commands) else old(commands) + [c]
      ensures state == if delivery.NeverSent? then old(state) else Do(limits, old(state), c)
      ensures c.Script? ==> verdict == Judge(limits, old(state), c)
    {
      hide Do, Judge;
      verdict := if c.Script? then Judge(limits, state, c) else Admitting;
      if !delivery.NeverSent? {
        RunPrefix(limits, commands, [c], |commands|);
        commands := commands + [c];
        state := Do(limits, state, c);
      }
    }

    method Admit(tenant: nat, promptTokens: nat, now: Time, at: Time, delivery: Delivery) returns (r: Option<Error>)
      requires Valid()
      modifies this
      ensures Valid() && state == Requested(limits, old(state), tenant, promptTokens, now, at, delivery)
      ensures
        if limits(tenant).rpmLimit <= 0 && limits(tenant).tpmLimit <= 0 then r == None
        else if !delivery.Answered? then r == Some(LimiterUnavailable)
        else match Judge(limits, old(state), Script(tenant, promptTokens, now, at))
             case Admitting => r == None
             case RpmExceeded => r == Some(RateLimitExceeded)
             case TpmExceeded => r == Some(TokenLimitExceeded)
    {
      hide Do, Judge;
      if limits(tenant).rpmLimit <= 0 && limits(tenant).tpmLimit <= 0 {
        return None;
      }
      var verdict := Send(Script(tenant, promptTokens, now, at), delivery);
      if !delivery.Answered? {
        return Some(LimiterUnavailable);
      }
      match verdict {
        case RpmExceeded => return Some(RateLimitExceeded);
        case TpmExceeded => return Some(TokenLimitExceeded);
        case Admitting => return None;
      }
    }

    /** Two commands, one after the other; when either fails, the limiter that stands in accepts the
        completion without recording it, and without one the failure is the caller's. */
    method RecordCompletionTokens(tenant: nat, completionTokens: int, k: Counting) returns (r: Option<Error>)
      requires Valid()
      modifies this
      ensures Valid() && state == Recorded(limits, old(state), tenant, completionTokens, k)
      ensures r.Some? <==> RecordingFails(limits, fallback, tenant, completionTokens, k)
    {
      hide Do, Judge;
      if completionTokens <= 0 || limits(tenant).tpmLimit <= 0 {
        return None;
      }
      var _ := Send(IncrBy(tenant, completionTokens, k.now, k.at), k.first);
      if k.first.Answered? {
        var _ := Send(Expire(tenant, k.now, k.expireAt), k.second);
        if k.second.Answered? {
          return None;
        }
      }
      return if fallback then None else Some(LimiterUnavailable);
    }
  }

  lemma {:induction false} RunPrefix(limits: LimitsOf, commands: seq<Command>, more: seq<Command>, n: nat)
    requires n <= |commands|
    ensures Run(limits, commands + more, n) == Run(limits, commands, n)
  {
    hide Do;
    if n > 0 {
      RunPrefix(limits, commands, more, n - 1);
    }
  }

  // ---- The counters, in numbers ----

  lemma EntriesAreNumber(log: seq<Entry>, tenant: nat, minute: int)
    ensures All(log, RequestsIn(tenant, minute)) ==
            |set i | 0 <= i < |log| && log[i].Admitted? && log[i].tenant == tenant && log[i].now / 60 == minute|
  {
    var counted := (e: Entry) => e.Admitted? && e.tenant == tenant && e.now / 60 == minute;
    CountIsNumber(log, |log|, RequestsIn(tenant, minute), counted);
    assert Places(log, |log|, counted) ==
           set i | 0 <= i < |log| && log[i].Admitted? && log[i].tenant == tenant && log[i].now / 60 == minute;
  }

  /** In every run of timely commands, a request is refused for its rate if and only if as many requests
      as the limit were admitted in its minute, and otherwise for its tokens if and only if what was
      admitted and recorded in its minute exceeds the limit together with its prompt. */
  lemma VerdictIsExact(limits: LimitsOf, commands: seq<Command>, n: nat, c: Command)
    requires n <= |commands| && AllTimely(limits, commands, n) && Timely(Run(limits, commands, n), c) && c.Script?
    ensures
      var s, minute := Run(limits, commands, n), c.now / 60;
      var admitted := set i | 0 <= i < |s.log| && s.log[i].Admitted? && s.log[i].tenant == c.tenant && s.log[i].now / 60 == minute;
      var tokens := All(s.log, (e: Entry) => if e.tenant == c.tenant && e.now / 60 == minute then e.tokens else 0);
      Judge(limits, s, c) ==
      if limits(c.tenant).rpmLimit > 0 && |admitted| >= limits(c.tenant).rpmLimit then RpmExceeded
      else if limits(c.tenant).tpmLimit > 0 && tokens + c.promptTokens > limits(c.tenant).tpmLimit then TpmExceeded
      else Admitting
  {
    hide Sum, Live, Stored, Run, Timely, AllTimely;
    var s, minute := Run(limits, commands, n), c.now / 60;
    WindowAccounting(limits, commands, n);
    assert MinuteKept(limits, s, c.tenant, minute);
    TimelyIsLive(s, c, Rpm);
    TimelyIsLive(s, c, Tpm);
    EntriesAreNumber(s.log, c.tenant, minute);
    SumAgrees(s.log, |s.log|, TokensIn(c.tenant, minute), (e: Entry) => if e.tenant == c.tenant && e.now / 60 == minute then e.tokens else 0);
  }

  /** An admission is counted with its prompt, and its two counters live for exactly 120 seconds after it,
      unless a later command renews them. */
  lemma AdmissionCounts(limits: LimitsOf, s: State, c: Command, later: Time)
    requires c.Script? && Judge(limits, s, c).Admitting?
    ensures
      var after := Do(limits, s, c);
      && after.log == s.log + [Admitted(c.tenant, c.promptTokens, c.now)]
      && Live(after.counters, Key(Rpm, c.tenant, c.now / 60), later) ==
           (if later < c.at + 120 then Live(s.counters, Key(Rpm, c.tenant, c.now / 60), c.at) + 1 else 0)
      && Live(after.counters, Key(Tpm, c.tenant, c.now / 60), later) ==
           (if later < c.at + 120 then Live(s.counters, Key(Tpm, c.tenant, c.now / 60), c.at) + c.promptTokens else 0)
  {
  }

  /** A completion is counted once when its command is carried out, and not at all when it is not positive,
      when the tenant has no token limit, or when the command is never sent. */
  lemma CompletionCounts(limits: LimitsOf, s: State, tenant: nat, tokens: int, k: Counting)
    ensures
      var after := Recorded(limits, s, tenant, tokens, k);
      if tokens > 0 && limits(tenant).tpmLimit > 0 && !k.first.NeverSent?
      then after.log == s.log + [Completed(tenant, tokens, k.now)] else after == s
  {
  }
}
