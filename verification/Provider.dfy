/** What a provider answers (internal/provider/provider.go). */
module Provider {
  import opened Wrappers

  datatype ChatChoice = ChatChoice(index: int, role: string, content: string, finishReason: string)

  datatype Usage = Usage(promptTokens: int, completionTokens: int, totalTokens: int)

  datatype Response = Response(id: string, kind: string, created: int, model: string, choices: seq<ChatChoice>, usage: Usage)

  datatype ChatChunk = ChatChunk(id: string, kind: string, created: int, model: string, choices: seq<ChatChoice>)

  /** The errors that a caller tells apart, and all others by their text. */
  datatype Error =
    | RateLimitExceeded | TokenLimitExceeded | BudgetExceeded | InvalidRequest
    | Other(text: string)

  function ErrorText(e: Error): string {
    match e
    case RateLimitExceeded => "rate limit exceeded"
    case TokenLimitExceeded => "token rate limit exceeded"
    case BudgetExceeded => "budget exceeded"
    case InvalidRequest => "messages are required"
    case Other(text) => text
  }

  datatype StreamEvent = Chunk(chunk: ChatChunk) | Failure(error: Error)

  /** How a call ends: with an answer, with an error, or with an error of attempt accounting. */
  datatype Outcome<+T> = Answered(value: T) | Refused(error: Error) | Unaccounted(error: Error)

  /** The position of the first error from i on, or the number of events. */
  function FirstError(events: seq<StreamEvent>, i: nat): (k: nat)
    requires i <= |events|
    ensures i <= k <= |events|
    ensures forall j :: i <= j < k ==> events[j].Chunk?
    ensures k < |events| ==> events[k].Failure?
    decreases |events| - i
  {
    if i == |events| || events[i].Failure? then i else FirstError(events, i + 1)
  }

  /** A stream up to its first error, which it includes. */
  function UpToFirstError(events: seq<StreamEvent>): seq<StreamEvent> {
    var k := FirstError(events, 0);
    if k == |events| then events else events[..k + 1]
  }
}
