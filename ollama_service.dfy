/** The chat-model service client: the model listing projection, the
    summary request, and the wrapping of client errors into messages. The
    client itself is a pair of function parameters (`list`, `chat`). */
module OllamaService {
  import opened Common

  /** The fields of a model the application keeps. */
  datatype OllamaModel = OllamaModel(name: string, modifiedAt: string, size: nat)

  /** A model as the client's `list()` reports it, with fields the application drops. */
  datatype ListedModel = ListedModel(name: string, modifiedAt: string, size: nat, digest: string, details: string)

  datatype Message = Message(role: string, content: string)
  datatype ChatRequest = ChatRequest(model: string, messages: seq<Message>, stream: bool)
  datatype ChatResponse = ChatResponse(message: Message)

  type ListClient = () -> Result<seq<ListedModel>, Failure>
  type ChatClient = ChatRequest -> Result<ChatResponse, Failure>

  const DefaultModel := "llama3.2"
  const SystemPrompt := "You are a helpful assistant that creates concise, structured summaries of meeting transcripts. Focus on key points, action items, and decisions made."
  const UserPromptPrefix := "Please summarize this meeting transcript:\n\n"
  const SummarizeErrorPrefix := "Failed to summarize transcript: "
  const ListErrorPrefix := "Failed to fetch Ollama models: "

  /** The message of the `Error` the service rethrows: the prefix, then the
      cause's message or "Unknown error". */
  function WrapError(prefix: string, cause: Failure): (m: string)
    ensures |m| >= |prefix| && m[..|prefix|] == prefix
  {
    prefix + MessageOr(cause, "Unknown error")
  }

  /** The cause can be read back from a wrapped message. */
  lemma WrapErrorRecoversCause(prefix: string, cause: Failure)
    ensures WrapError(prefix, cause)[|prefix|..] == (if cause.Thrown? then cause.message else "Unknown error")
  {
  }

  /** The projection `models.map(m => ({name, modified_at, size}))`. */
  function Project(models: seq<ListedModel>): (r: seq<OllamaModel>)
    ensures |r| == |models|
    ensures forall i :: 0 <= i < |models| ==>
      r[i] == OllamaModel(models[i].name, models[i].modifiedAt, models[i].size)
  {
    if models == [] then [] else [OllamaModel(models[0].name, models[0].modifiedAt, models[0].size)] + Project(models[1..])
  }

  /** `getAvailableModels()` */
  function GetAvailableModels(list: ListClient): (r: Result<seq<OllamaModel>, string>)
    ensures list().Ok? ==> r == Ok(Project(list().value))
    ensures list().Err? ==> r == Err(WrapError(ListErrorPrefix, list().error))
  {
    match list()
    case Ok(models) => Ok(Project(models))
    case Err(cause) => Err(WrapError(ListErrorPrefix, cause))
  }

  /** The request `summarizeTranscript(transcript, model)` sends: the
      default model when none is given, the fixed system prompt, then the
      transcript in the user message, not streamed. */
  function SummaryRequest(transcript: string, model: Option<string>): (req: ChatRequest)
    ensures req.model == model.GetOr(DefaultModel)
    ensures |req.messages| == 2 && !req.stream
    ensures req.messages[0] == Message("system", SystemPrompt)
    ensures req.messages[1].role == "user"
    ensures |req.messages[1].content| >= |UserPromptPrefix|
    ensures req.messages[1].content[..|UserPromptPrefix|] == UserPromptPrefix
    ensures req.messages[1].content[|UserPromptPrefix|..] == transcript
  {
    ChatRequest(model.GetOr(DefaultModel),
      [Message("system", SystemPrompt), Message("user", UserPromptPrefix + transcript)],
      false)
  }

  /** Two requests are equal only if their transcripts and models are:
      the request carries the transcript verbatim. */
  lemma SummaryRequestInjective(t1: string, t2: string, m: Option<string>)
    requires SummaryRequest(t1, m) == SummaryRequest(t2, m)
    ensures t1 == t2
  {
    assert SummaryRequest(t1, m).messages[1].content[|UserPromptPrefix|..] == t1;
  }

  /** `summarizeTranscript(transcript, model)`: the reply's content, or the wrapped error. */
  function SummarizeTranscript(transcript: string, model: Option<string>, chat: ChatClient): (r: Result<string, string>)
    ensures chat(SummaryRequest(transcript, model)).Ok? ==>
      r == Ok(chat(SummaryRequest(transcript, model)).value.message.content)
    ensures chat(SummaryRequest(transcript, model)).Err? ==>
      r == Err(WrapError(SummarizeErrorPrefix, chat(SummaryRequest(transcript, model)).error))
  {
    match chat(SummaryRequest(transcript, model))
    case Ok(response) => Ok(response.message.content)
    case Err(cause) => Err(WrapError(SummarizeErrorPrefix, cause))
  }

  /** `checkOllamaConnection()`: true exactly when listing succeeds. */
  function CheckOllamaConnection(list: ListClient): (up: bool)
    ensures up <==> GetAvailableModels(list).Ok?
  {
    list().Ok?
  }
}
