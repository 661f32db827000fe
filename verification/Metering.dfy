/** The coordinator's own token estimates, before and after a request runs. */
module Metering {
  import opened Results
  import opened Sums

  const DEFAULT_RESERVED_OUTPUT_TOKENS := 1024

  datatype Message = Message(role: string, content: string)

  datatype Done = Done(finishReason: string, promptTokens: int, outputTokens: int)

  /** What a client asks for; the two request kinds are metered differently. */
  datatype Work =
    | Chat(messages: seq<Message>, maxTokens: Option<int>)
    | Embedding(input: seq<string>)

  /** Four characters to a token, rounded up. */
  function EstimateTokens(chars: int): int {
    if chars <= 0 then 0 else (chars + 3) / 4
  }

  /** The fewest tokens that cover the characters at four to a token. */
  lemma TokensCover(chars: nat)
    ensures 0 <= EstimateTokens(chars) && chars <= 4 * EstimateTokens(chars)
    ensures forall fewer: nat :: chars <= 4 * fewer ==> EstimateTokens(chars) <= fewer
  {
  }

  /** Runes of one message, role included. */
  function MessageRunes(): Message -> int {
    (m: Message) => |m.role| + |m.content|
  }

  function TextRunes(): string -> int {
    (t: string) => |t|
  }

  function PromptTokens(work: Work): int {
    match work
    case Chat(messages, _) => EstimateTokens(SumBy(messages, MessageRunes()))
    case Embedding(input) => EstimateTokens(SumBy(input, TextRunes()))
  }

  /** The output a reservation pays for in advance: none for embeddings. */
  function OutputEstimate(work: Work): int {
    match work
    case Chat(_, maxTokens) =>
      if maxTokens.Some? && maxTokens.value > 0 then maxTokens.value else DEFAULT_RESERVED_OUTPUT_TOKENS
    case Embedding(_) => 0
  }

  /** The estimate handed to the quota reservation. */
  function Budget(work: Work): int {
    PromptTokens(work) + OutputEstimate(work)
  }

  /** A request reserves the output it asks for, 1024 tokens if a chat asks for none, nothing for an embedding. */
  lemma OutputIsReserved(messages: seq<Message>, asked: int, input: seq<string>)
    ensures asked > 0 ==> OutputEstimate(Chat(messages, Some(asked))) == asked
    ensures asked <= 0 ==> OutputEstimate(Chat(messages, Some(asked))) == 1024
    ensures OutputEstimate(Chat(messages, None)) == 1024 && OutputEstimate(Embedding(input)) == 0
  {
  }

  /** What is charged. The node's own counts are dropped, only its finish reason is kept. */
  function MeasuredDone(work: Work, reported: string, outputChars: nat): Done {
    match work
    case Chat(_, _) =>
      Done(if reported == "" then "stop" else reported, PromptTokens(work), EstimateTokens(outputChars))
    case Embedding(_) => Done("stop", PromptTokens(work), 0)
  }

  function Tokens(done: Done): int {
    done.promptTokens + done.outputTokens
  }

  /** A charge exceeds its reservation by the output beyond the output estimate, and by nothing else. */
  lemma ChargeBeyondBudget(work: Work, reported: string, outputChars: nat)
    ensures 0 <= PromptTokens(work) <= Budget(work)
    ensures MeasuredDone(work, reported, outputChars).promptTokens == PromptTokens(work)
    ensures 0 <= MeasuredDone(work, reported, outputChars).outputTokens
    ensures work.Embedding? ==> Tokens(MeasuredDone(work, reported, outputChars)) == Budget(work)
    ensures work.Chat? ==>
              Tokens(MeasuredDone(work, reported, outputChars)) - Budget(work) == EstimateTokens(outputChars) - OutputEstimate(work)
  {
  }

  /** The finish reason charged is the node's own for a chat, and a stop where it gives none or there is none to give. */
  lemma FinishReasonIsKept(work: Work, reported: string, outputChars: nat)
    ensures work.Chat? && reported != "" ==> MeasuredDone(work, reported, outputChars).finishReason == reported
    ensures work.Embedding? || reported == "" ==> MeasuredDone(work, reported, outputChars).finishReason == "stop"
  {
  }

  /** The loop that all three prompt estimators of the handlers share. */
  method EstimatePrompt(work: Work) returns (tokens: int)
    ensures tokens == PromptTokens(work)
  {
    var chars := 0;
    match work {
      case Chat(messages, _) =>
        for i := 0 to |messages|
          invariant chars == SumBy(messages[..i], MessageRunes())
        {
          chars := chars + |messages[i].role| + |messages[i].content|;
          assert messages[..i + 1][..i] == messages[..i];
        }
        assert messages[..|messages|] == messages;
      case Embedding(input) =>
        for i := 0 to |input|
          invariant chars == SumBy(input[..i], TextRunes())
        {
          chars := chars + |input[i]|;
          assert input[..i + 1][..i] == input[..i];
        }
        assert input[..|input|] == input;
    }
    tokens := EstimateTokens(chars);
  }
}
