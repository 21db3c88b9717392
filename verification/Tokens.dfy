/** The token estimator that admission, reservation and billing share (internal/provider/tokens.go). */
module Tokens {
  import opened Text

  datatype ChatMessage = ChatMessage(role: string, content: string)

  /** EstimateTextTokens, with the rune-count fallback the source keeps as its last branch. */
  function EstimateTextTokens(text: string): nat {
    var trimmed := Trim(text);
    if trimmed == "" then 0
    else
      var fields := Fields(trimmed);
      if |fields| > 0 then |fields| else |trimmed|
  }

  /** The estimate is the number of places where a word starts, and the rune-count
      fallback never runs. */
  lemma EstimateCountsWords(text: string)
    ensures EstimateTextTokens(text) == Words(text)
    ensures Trim(text) != "" ==> |Fields(Trim(text))| > 0
  {
    FieldsCountWords(Trim(text));
    TrimKeepsWords(text);
    BlankMeansNoWords(text);
  }

  /** The tokens of a prompt: the words of every role and every content. */
  function PromptTokens(messages: seq<ChatMessage>): nat {
    if messages == [] then 0
    else
      var last := messages[|messages| - 1];
      PromptTokens(messages[..|messages| - 1]) + Words(last.role) + Words(last.content)
  }

  lemma {:induction false} PromptTokensAppend(a: seq<ChatMessage>, b: seq<ChatMessage>)
    ensures PromptTokens(a + b) == PromptTokens(a) + PromptTokens(b)
  {
    if b == [] {
      assert a + b == a;
    } else {
      var n := |b| - 1;
      assert (a + b)[..|a + b| - 1] == a + b[..n];
      PromptTokensAppend(a, b[..n]);
    }
  }

  /** What the prompt loop appends for one message, at the end of a text that no word crosses. */
  lemma WordsOfMessage(before: string, m: ChatMessage)
    requires before == "" || IsSpace(before[|before| - 1])
    ensures Words(before + m.role + " " + m.content + " ") == Words(before) + Words(m.role) + Words(m.content)
  {
    WordsOfBlank(" ");
    WordsConcat(before, m.role);
    WordsConcat(before + m.role, " ");
    WordsConcat(before + m.role + " ", m.content);
    WordsConcat(before + m.role + " " + m.content, " ");
  }

  method EstimatePromptTokens(messages: seq<ChatMessage>) returns (tokens: nat)
    ensures tokens == PromptTokens(messages)
  {
    var builder := "";
    for i := 0 to |messages|
      invariant Words(builder) == PromptTokens(messages[..i])
      invariant builder == "" || IsSpace(builder[|builder| - 1])
    {
      var message := messages[i];
      WordsOfMessage(builder, message);
      builder := builder + message.role + " " + message.content + " ";
      assert messages[..i + 1][..i] == messages[..i];
    }
    assert messages[..|messages|] == messages;
    EstimateCountsWords(builder);
    tokens := EstimateTextTokens(builder);
  }

  // ---- Streams: one text observed in chunks ----

  /** The sum of the estimates of the chunks taken one by one. */
  function SumOfEstimates(chunks: seq<string>): nat {
    if chunks == [] then 0
    else SumOfEstimates(chunks[..|chunks| - 1]) + EstimateTextTokens(chunks[|chunks| - 1])
  }

  /** Exactly when a token is lost: the text so far ends inside a word that the chunk continues. */
  lemma ChunkCost(seen: string, chunk: string)
    ensures EstimateTextTokens(seen + chunk) ==
            EstimateTextTokens(seen) + EstimateTextTokens(chunk) - (if Merges(seen, chunk) then 1 else 0)
  {
    EstimateCountsWords(seen);
    EstimateCountsWords(chunk);
    EstimateCountsWords(seen + chunk);
    WordsConcat(seen, chunk);
  }

  /** The estimate of the joined stream is at most the sum of the chunk estimates, and each of
      the k-1 seams can lose one token at most. */
  lemma {:induction false} StreamEstimateBounds(chunks: seq<string>)
    requires chunks != []
    ensures EstimateTextTokens(Concat(chunks)) <= SumOfEstimates(chunks)
    ensures EstimateTextTokens(Concat(chunks)) >= SumOfEstimates(chunks) - (|chunks| - 1)
  {
    var front, last := chunks[..|chunks| - 1], chunks[|chunks| - 1];
    ChunkCost(Concat(front), last);
    if front != [] { StreamEstimateBounds(front); }
  }

  /** Observing more chunks never lowers the estimate. */
  lemma StreamEstimateMonotone(seen: seq<string>, more: seq<string>)
    ensures EstimateTextTokens(Concat(seen)) <= EstimateTextTokens(Concat(seen + more))
  {
    ConcatAppend(seen, more);
    WordsMonotone(Concat(seen), Concat(more));
    EstimateCountsWords(Concat(seen));
    EstimateCountsWords(Concat(seen + more));
  }
}
