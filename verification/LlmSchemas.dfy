/** Requests and complete responses of the vendor-neutral LLM contract (llm/schemas). */
module LlmSchemas {
  import opened Prelude
  import opened Streaming

  datatype LlmRole = System | User | Assistant

  datatype LlmMessage = LlmMessage(role: LlmRole, content: string)

  datatype LlmRequest = LlmRequest(messages: seq<LlmMessage>, modelName: Option<string>, correlationId: string)

  datatype LlmResponse = LlmResponse(
    text: string,
    provider: string,
    model: string,
    finish: FinishReason,
    usage: Option<Usage>,
    requestId: Option<string>)
}
