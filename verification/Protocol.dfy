/** Wire-level values shared by the router components (pkg/protocol). JSON texts stay structured. */
module Protocol {
  import opened Prelude

  type JobId = string
  type WorkerId = string
  type CallId = string
  type ToolJobId = string

  datatype ToolCall = ToolCall(id: CallId, name: string, arguments: string)

  datatype Role = System | User | Assistant | Tool | OtherRole(name: string)

  type Image = string

  /** Message content: plain text, the JSON object {"error": msg}, or text followed by images. */
  datatype Content =
    | Text(text: string)
    | ErrorObject(error: string)
    | Multimodal(lead: Content, images: seq<Image>)

  datatype ChatMessage = ChatMessage(role: Role, content: Content, toolCalls: seq<ToolCall>, toolCallId: CallId)

  datatype Params = Params(temperature: Option<real>, maxTokens: Option<int>, reasoningEffort: string)

  datatype ToolDef = ToolDef(name: string, schema: string)

  datatype JobMessage = JobMessage(
    jobId: JobId, messages: seq<ChatMessage>, tools: seq<ToolDef>, params: Params, referenceId: string)

  datatype CompleteMessage = CompleteMessage(
    jobId: JobId, fullResponse: string, reasoning: string,
    inputTokens: int, outputTokens: int, toolCalls: seq<ToolCall>)

  /** Events of a job's token stream; Done and Failed are the terminal ones. */
  datatype TokenEvent =
    | Dispatched
    | Token(text: string)
    | ReasoningToken(text: string)
    | ToolGenerating
    | Done(complete: CompleteMessage)
    | Failed(reason: string)
  {
    predicate Terminal() { Done? || Failed? }
  }
}
