/** The external services the core calls, seen from the core: what it sends
    them (the call trace) and how a call can fail. */
module Collaborators {

  /** A raised exception, by the text that `str(e)` gives for it. */
  datatype Failure = Failure(message: string)

  /** Success or a raised exception, for calls whose success carries no value. */
  datatype Outcome = Pass | Fail(failure: Failure)

  /** The Anthropic Messages request body sent to a model by direct invocation. */
  datatype ModelRequest = ModelRequest(
    anthropicVersion: string,
    maxTokens: nat,
    temperature: real,
    role: string,
    partType: string,
    text: string)

  /** One outbound call to a collaborator, with the arguments the core passes. */
  datatype Call =
    | RetrieveCall(kbId: string, query: string, topK: int)
    | RetrieveAndGenerateCall(kbId: string, query: string)
    | UseLlmCall(prompt: string)
    | AgentCall(query: string)
    | InvokeModelCall(modelId: string, request: ModelRequest)
    | PostCall(url: string, body: string, headers: map<string, string>)
}
