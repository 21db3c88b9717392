/** How the Anthropic adapter merges system messages, and what that does to the tokens an
    attempt reserves (internal/provider/anthropic/chat.go). */
module AnthropicPrompt {
  import opened Text
  import opened Tokens

  predicate IsSystem(m: ChatMessage) {
    EqualFold(Trim(m.role), "system")
  }

  predicate IsBlank(m: ChatMessage) {
    Trim(m.content) == ""
  }

  /** The system messages, in order. */
  function Systems(messages: seq<ChatMessage>): seq<ChatMessage> {
    if messages == [] then []
    else
      var front, last := Systems(messages[..|messages| - 1]), messages[|messages| - 1];
      if IsSystem(last) then front + [last] else front
  }

  /** The other messages, in order. */
  function Translated(messages: seq<ChatMessage>): seq<ChatMessage> {
    if messages == [] then []
    else
      var front, last := Translated(messages[..|messages| - 1]), messages[|messages| - 1];
      if IsSystem(last) then front else front + [last]
  }

  /** The trimmed contents of those messages that are not blank. */
  function TrimmedContents(messages: seq<ChatMessage>): seq<string> {
    if messages == [] then []
    else
      var front, last := TrimmedContents(messages[..|messages| - 1]), messages[|messages| - 1];
      if IsBlank(last) then front else front + [Trim(last.content)]
  }

  /** The conversation without its system messages, in its order, and their texts, in theirs. What is kept
      stands at increasing positions, kept and merged, which are exactly those of the other messages and of
      the system messages that are not blank. */
  method SplitMessages(messages: seq<ChatMessage>)
    returns (system: string, translated: seq<ChatMessage>, ghost kept: seq<nat>, ghost parts: seq<string>, ghost merged: seq<nat>)
    ensures system == MergedSystem(messages) && translated == Translated(messages)
    ensures |kept| == |translated|
    ensures forall i :: 0 <= i < |kept| ==> kept[i] < |messages| && translated[i] == messages[kept[i]]
    ensures forall i, j :: 0 <= i < j < |kept| ==> kept[i] < kept[j]
    ensures forall n :: 0 <= n < |messages| ==> (n in kept <==> !EqualFold(Trim(messages[n].role), "system"))
    ensures system == Join(parts, "\n\n") && |merged| == |parts|
    ensures forall i :: 0 <= i < |merged| ==> merged[i] < |messages| && parts[i] == Trim(messages[merged[i]].content)
    ensures forall i, j :: 0 <= i < j < |merged| ==> merged[i] < merged[j]
    ensures forall n :: 0 <= n < |messages| ==>
              (n in merged <==> EqualFold(Trim(messages[n].role), "system") && Trim(messages[n].content) != "")
  {
    kept := KeptAt(messages, |messages|);
    merged := MergedAt(messages, |messages|);
    parts := TrimmedContents(Systems(messages));
    assert messages[..|messages|] == messages;
    var systemParts: seq<string> := [];
    translated := [];
    for i := 0 to |messages|
      invariant systemParts == TrimmedContents(Systems(messages[..i]))
      invariant translated == Translated(messages[..i])
    {
      var message := messages[i];
      assert messages[..i + 1][..i] == messages[..i];
      if EqualFold(Trim(message.role), "system") {
        assert Systems(messages[..i + 1])[..|Systems(messages[..i])|] == Systems(messages[..i]);
        var content := Trim(message.content);
        if content != "" {
          systemParts := systemParts + [content];
        }
      } else {
        translated := translated + [message];
      }
    }
    assert messages[..|messages|] == messages;
    system := Join(systemParts, "\n\n");
  }

  /** Where the messages stand that are kept. */
  lemma {:induction false} KeptAt(messages: seq<ChatMessage>, n: nat) returns (kept: seq<nat>)
    requires n <= |messages|
    ensures |kept| == |Translated(messages[..n])|
    ensures forall i :: 0 <= i < |kept| ==> kept[i] < n && Translated(messages[..n])[i] == messages[kept[i]]
    ensures forall i, j :: 0 <= i < j < |kept| ==> kept[i] < kept[j]
    ensures forall m :: 0 <= m < n ==> (m in kept <==> !EqualFold(Trim(messages[m].role), "system"))
  {
    hide EqualFold, Trim;
    kept := [];
    if n > 0 {
      kept := KeptAt(messages, n - 1);
      assert messages[..n][..n - 1] == messages[..n - 1];
      if !EqualFold(Trim(messages[n - 1].role), "system") {
        kept := kept + [n - 1];
      }
    }
  }

  lemma PartsGrow(messages: seq<ChatMessage>, n: nat)
    requires 0 < n <= |messages|
    ensures
      var front, m := TrimmedContents(Systems(messages[..n - 1])), messages[n - 1];
      TrimmedContents(Systems(messages[..n])) ==
      if EqualFold(Trim(m.role), "system") && Trim(m.content) != "" then front + [Trim(m.content)] else front
  {
    hide EqualFold, Trim;
    assert messages[..n][..n - 1] == messages[..n - 1];
    var front := Systems(messages[..n - 1]);
    assert (front + [messages[n - 1]])[..|front|] == front;
  }

  /** Where the messages stand whose texts are merged. */
  lemma {:induction false} MergedAt(messages: seq<ChatMessage>, n: nat) returns (merged: seq<nat>)
    requires n <= |messages|
    ensures |merged| == |TrimmedContents(Systems(messages[..n]))|
    ensures forall i :: 0 <= i < |merged| ==>
              merged[i] < n && TrimmedContents(Systems(messages[..n]))[i] == Trim(messages[merged[i]].content)
    ensures forall i, j :: 0 <= i < j < |merged| ==> merged[i] < merged[j]
    ensures forall m :: 0 <= m < n ==> (m in merged <==> EqualFold(Trim(messages[m].role), "system") && Trim(messages[m].content) != "")
  {
    hide EqualFold, Trim;
    merged := [];
    if n > 0 {
      merged := MergedAt(messages, n - 1);
      PartsGrow(messages, n);
      hide TrimmedContents, Systems;
      if EqualFold(Trim(messages[n - 1].role), "system") && Trim(messages[n - 1].content) != "" {
        merged := merged + [n - 1];
      }
    }
  }

  /** The merged prompt is its parts with a blank line between any two. */
  lemma MergedParts(parts: seq<string>, last: string)
    ensures Join([], "\n\n") == "" && Join([last], "\n\n") == last
    ensures parts != [] ==> Join(parts + [last], "\n\n") == Join(parts, "\n\n") + "\n\n" + last
  {
    assert (parts + [last])[..|parts|] == parts;
  }

  /** The message list an attempt is charged for: the merged system text, if any is left, in front. */
  function AttemptMessages(system: string, messages: seq<ChatMessage>): seq<ChatMessage> {
    (if Trim(system) != "" then [ChatMessage("system", system)] else []) + messages
  }

  method EstimateAttemptPromptTokens(system: string, messages: seq<ChatMessage>) returns (tokens: nat)
    ensures tokens == PromptTokens(AttemptMessages(system, messages))
  {
    hide Trim, PromptTokens;
    var charged: seq<ChatMessage> := [];
    if Trim(system) != "" {
      charged := charged + [ChatMessage("system", system)];
    }
    ghost var front := charged;
    assert AttemptMessages(system, messages) == front + messages;
    for i := 0 to |messages|
      invariant charged == front + messages[..i]
    {
      charged := charged + [messages[i]];
      assert messages[..i + 1] == messages[..i] + [messages[i]];
    }
    assert messages[..|messages|] == messages;
    tokens := EstimatePromptTokens(charged);
  }

  /** The system text that SplitMessages sends upstream. */
  function MergedSystem(messages: seq<ChatMessage>): string {
    Join(TrimmedContents(Systems(messages)), "\n\n")
  }

  /** The prompt tokens an attempt reserves for the messages of a request. */
  function Reserved(messages: seq<ChatMessage>): nat {
    PromptTokens(AttemptMessages(MergedSystem(messages), Translated(messages)))
  }

  // ---- What the merge does to the reservation ----

  lemma FoldsToSystem(role: string)
    requires EqualFold(role, "system")
    ensures Words(role) == 1
  {
    hide Words;
    forall i | 0 <= i < |role| ensures !IsSpace(role[i]) {
      var c := "system"[i];
      assert FoldChar(role[i]) == FoldChar(c) && c in {'s', 'y', 't', 'e', 'm'};
      CaseKeepsSpaces(role[i]);
      CaseKeepsSpaces(c);
    }
    WordsOfWord(role);
  }

  lemma SystemRoleIsOneWord(m: ChatMessage)
    requires IsSystem(m)
    ensures Words(m.role) == 1
  {
    hide Trim, Words;
    FoldsToSystem(Trim(m.role));
    TrimKeepsWords(m.role);
  }

  function SumOfWords(parts: seq<string>): nat {
    if parts == [] then 0 else SumOfWords(parts[..|parts| - 1]) + Words(parts[|parts| - 1])
  }

  lemma {:induction false} WordsOfJoin(parts: seq<string>)
    ensures Words(Join(parts, "\n\n")) == SumOfWords(parts)
  {
    if |parts| == 1 {
      assert parts[..0] == [];
    } else if |parts| > 1 {
      var front, last := parts[..|parts| - 1], parts[|parts| - 1];
      WordsOfJoin(front);
      WordsOfBlank("\n\n");
      WordsConcat(Join(front, "\n\n"), "\n\n");
      WordsConcat(Join(front, "\n\n") + "\n\n", last);
    }
  }

  /** A system message is charged one token for its role; trimming its content loses nothing. */
  lemma {:induction false} SystemTokens(systems: seq<ChatMessage>)
    requires forall i :: 0 <= i < |systems| ==> IsSystem(systems[i])
    ensures PromptTokens(systems) == |systems| + SumOfWords(TrimmedContents(systems))
  {
    hide IsSystem, Words, Trim, TrimmedContents, SumOfWords;
    if systems == [] {
      NothingCounted();
    } else {
      var front, last := systems[..|systems| - 1], systems[|systems| - 1];
      SystemTokens(front);
      SystemRoleIsOneWord(last);
      BlankOrCounted(front, last);
      assert systems == front + [last];
    }
  }

  lemma NothingCounted()
    ensures SumOfWords(TrimmedContents([])) == 0
  {
  }

  lemma BlankOrCounted(front: seq<ChatMessage>, last: ChatMessage)
    ensures SumOfWords(TrimmedContents(front + [last])) == SumOfWords(TrimmedContents(front)) + Words(last.content)
  {
    assert (front + [last])[..|front|] == front;
    TrimKeepsWords(last.content);
    BlankMeansNoWords(last.content);
    var parts := TrimmedContents(front);
    assert (parts + [Trim(last.content)])[..|parts|] == parts;
  }

  /** Nothing is left of the system messages when all of them are blank, and something otherwise. */
  lemma {:induction false} BlankSystemsVanish(systems: seq<ChatMessage>)
    requires forall m :: m in systems ==> IsBlank(m)
    ensures SumOfWords(TrimmedContents(systems)) == 0
  {
    if systems != [] {
      BlankSystemsVanish(systems[..|systems| - 1]);
    }
  }

  lemma {:induction false} NonBlankSystemStays(systems: seq<ChatMessage>, k: nat)
    requires k < |systems| && !IsBlank(systems[k])
    ensures SumOfWords(TrimmedContents(systems)) > 0
  {
    hide Trim;
    var front, last := systems[..|systems| - 1], systems[|systems| - 1];
    assert systems == front + [last];
    BlankOrCounted(front, last);
    if k < |front| {
      NonBlankSystemStays(front, k);
    } else {
      BlankMeansNoWords(last.content);
    }
  }

  lemma {:induction false} SplitConservesTokens(messages: seq<ChatMessage>)
    ensures PromptTokens(messages) == PromptTokens(Systems(messages)) + PromptTokens(Translated(messages))
  {
    if messages != [] {
      var front, last := messages[..|messages| - 1], messages[|messages| - 1];
      SplitConservesTokens(front);
      PromptTokensAppend(Systems(front), [last]);
      PromptTokensAppend(Translated(front), [last]);
      PromptTokensOfOne(last);
    }
  }

  lemma {:induction false} SystemsAreTheSystemMessages(messages: seq<ChatMessage>)
    ensures forall m :: m in Systems(messages) <==> m in messages && IsSystem(m)
  {
    if messages != [] {
      var front, last := messages[..|messages| - 1], messages[|messages| - 1];
      SystemsAreTheSystemMessages(front);
      assert messages == front + [last];
    }
  }

  lemma PromptTokensOfOne(m: ChatMessage)
    ensures PromptTokens([m]) == Words(m.role) + Words(m.content)
  {
    assert [m][..0] == [];
  }

  /** What an attempt reserves, for every message list: the admission estimate, less one token for
      each system message, plus one when some system message is not blank. */
  lemma ReservationIsAdmissionLessSystemRoles(messages: seq<ChatMessage>)
    ensures Reserved(messages) == PromptTokens(messages) - |Systems(messages)|
                                  + (if exists m :: m in messages && IsSystem(m) && !IsBlank(m) then 1 else 0)
  {
    hide IsSystem, IsBlank, Trim;
    var systems := Systems(messages);
    var system := MergedSystem(messages);
    SplitConservesTokens(messages);
    SystemsAreTheSystemMessages(messages);
    SystemTokens(systems);
    WordsOfJoin(TrimmedContents(systems));
    BlankMeansNoWords(system);
    ChargedTokens(system, Translated(messages));
    if m :| m in messages && IsSystem(m) && !IsBlank(m) {
      var k :| 0 <= k < |systems| && systems[k] == m;
      NonBlankSystemStays(systems, k);
    } else {
      BlankSystemsVanish(systems);
    }
  }

  lemma ChargedTokens(system: string, messages: seq<ChatMessage>)
    ensures PromptTokens(AttemptMessages(system, messages)) ==
            (if Trim(system) == "" then 0 else 1 + Words(system)) + PromptTokens(messages)
  {
    hide Trim;
    if Trim(system) == "" {
      assert AttemptMessages(system, messages) == messages;
    } else {
      PromptTokensAppend([ChatMessage("system", system)], messages);
      PromptTokensOfOne(ChatMessage("system", system));
      var role := "system";
      assert forall i :: 0 <= i < |role| ==> role[i] in {'s', 'y', 't', 'e', 'm'};
      WordsOfWord(role);
    }
  }

  /** So an attempt never reserves more than the request was admitted for. */
  lemma ReservationWithinAdmission(messages: seq<ChatMessage>)
    ensures Reserved(messages) <= PromptTokens(messages)
  {
    ReservationIsAdmissionLessSystemRoles(messages);
    SplitConservesTokens(messages);
    SystemsAreTheSystemMessages(messages);
    if m :| m in messages && IsSystem(m) && !IsBlank(m) {
      assert m in Systems(messages);
    }
  }
}
