/** `finish_reason_from_bedrock_to_semantic_kernel`: Bedrock stop reasons in the framework's terms. */
module FinishReasons {
  import opened Wrappers

  datatype FinishReason = Stop | Length | ContentFilter | ToolCalls

  /** The Bedrock stop reasons that translate to each finish reason. */
  function BedrockReasons(reason: FinishReason): set<string>
  {
    match reason
    case Stop => {"stop_sequence", "end_turn"}
    case Length => {"max_tokens"}
    case ContentFilter => {"content_filtered"}
    case ToolCalls => {"tool_use"}
  }

  /**
   * The lookup table. A string translates to a reason exactly when it is one
   * of that reason's Bedrock names, so every other string translates to None.
   */
  function FinishReasonFromBedrock(finishReason: string): (r: Option<FinishReason>)
    ensures forall reason :: r == Some(reason) <==> finishReason in BedrockReasons(reason)
  {
    if finishReason == "stop_sequence" || finishReason == "end_turn" then Some(Stop)
    else if finishReason == "max_tokens" then Some(Length)
    else if finishReason == "content_filtered" then Some(ContentFilter)
    else if finishReason == "tool_use" then Some(ToolCalls)
    else None
  }
}
