/**
 * The message shapes the examples exchange with the runtime: parts, contents,
 * model requests and responses, event actions and session events.
 */
module Genai {
  import opened Wrappers
  import opened Values

  datatype Blob = Blob(mimeType: string, data: seq<bv8>)

  datatype FunctionCall = FunctionCall(id: string, name: string, args: map<string, Value>)

  datatype FunctionResponse =
    FunctionResponse(id: string, name: string, response: map<string, Value>, willContinue: bool)

  /** genai.Part: a text, a call, a call's response, inline bytes or a code-execution result. */
  datatype Part = Part(
    text: string,
    functionCall: Option<FunctionCall>,
    functionResponse: Option<FunctionResponse>,
    inlineData: Option<Blob>,
    codeExecutionResult: bool)

  datatype Content = Content(role: string, parts: seq<Part>)

  const RoleUser := "user"
  const RoleModel := "model"

  /** genai.NewPartFromText */
  function TextPart(text: string): Part {
    Part(text, None, None, None, false)
  }

  function CallPart(call: FunctionCall): Part {
    Part("", Some(call), None, None, false)
  }

  function ResponsePart(resp: FunctionResponse): Part {
    Part("", None, Some(resp), None, false)
  }

  function BlobPart(blob: Blob): Part {
    Part("", None, None, Some(blob), false)
  }

  /** A content with a single text part. */
  function TextContent(role: string, text: string): Content {
    Content(role, [TextPart(text)])
  }

  /** model.LLMRequest: the conversation so far and an optional system instruction. */
  datatype LLMRequest = LLMRequest(contents: seq<Content>, systemInstruction: Option<Content>)

  /** model.LLMResponse */
  datatype LLMResponse = LLMResponse(content: Option<Content>, partial: bool)

  /** The actions an event carries. */
  datatype Actions = Actions(
    escalate: bool,
    transferToAgent: string,
    skipSummarization: bool,
    stateDelta: map<string, Value>)

  const NoActions := Actions(false, "", false, map[])

  /** session.Event */
  datatype Event = Event(
    author: string,
    response: LLMResponse,
    actions: Actions,
    longRunningToolIDs: seq<string>)

  function TextEvent(author: string, text: string): Event {
    Event(author, LLMResponse(Some(TextContent(RoleModel, text)), false), NoActions, [])
  }

  /** One element of an `iter.Seq2[*session.Event, error]` stream. */
  datatype Item = Ev(event: Event) | Fail(error: string)

  /**
   * The actions record a tool reaches through its context; tools set its
   * fields in place.
   */
  class ToolActions {
    var escalate: bool
    var transferToAgent: string
    var skipSummarization: bool

    constructor ()
      ensures !escalate && transferToAgent == "" && !skipSummarization
    {
      escalate := false;
      transferToAgent := "";
      skipSummarization := false;
    }
  }

  /** A model request that before-model callbacks may edit in place. */
  class Request {
    var contents: seq<Content>
    var systemInstruction: Option<Content>

    constructor (contents: seq<Content>, systemInstruction: Option<Content>)
      ensures this.contents == contents && this.systemInstruction == systemInstruction
    {
      this.contents := contents;
      this.systemInstruction := systemInstruction;
    }
  }

  /** What a callback answers: go on as before, replace the result, or fail. */
  datatype Reply<T> = Proceed | Replace(value: T) | Failed(error: string)
}
