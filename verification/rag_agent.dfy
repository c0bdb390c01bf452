/** The tool-using agent entry point: the agent answers through the search
    tool; on any agent failure one direct model invocation is the fallback. */
module RagAgent {
  import opened Wrappers
  import opened Strings
  import opened Collaborators
  import opened Webhook
  import Entrypoint

  /** Which path produced the answer: `"agent-with-mcp"` or `"fallback-bedrock"`. */
  datatype Mode = AgentWithMcp | FallbackBedrock {
    function Name(): string {
      if AgentWithMcp? then "agent-with-mcp" else "fallback-bedrock"
    }
  }

  /** The entry-point payload. */
  datatype Payload = Payload(prompt: Option<string>, input: Option<string>, callbackUrl: Option<string>, jobId: Option<string>)

  /** The result object. */
  datatype AgentResult = AgentResult(jobId: string, prompt: string, answer: string, ts: int, mode: Mode)

  /** One element of the model reply's `content` list; `text` distinguishes a
      missing key from an explicit null. */
  datatype Part = Part(partType: Option<string>, text: Field<string>)

  /** A decoded model reply: its `content` list (`None` when absent or null)
      and its rendering by `str`. */
  datatype ModelReply = ModelReply(content: Option<seq<Part>>, rendered: string)

  /** Everything outside the agent: the model id, the Strands agent (its reply
      already rendered as text), the model invocation, the webhook secret, the
      HMAC-SHA256 hex digest, the HTTP POST, the JSON serialiser, a fresh job id
      and the current time in seconds. */
  datatype Runtime = Runtime(
    modelId: string,
    agent: string -> Result<string, Failure>,
    invokeModel: (string, ModelRequest) -> Result<ModelReply, Failure>,
    webhookSecret: Option<string>,
    hexDigest: (string, string) -> string,
    post: (string, string, map<string, string>) -> Outcome,
    serialize: AgentResult -> string,
    freshId: string,
    now: int)

  const AnthropicPrefix: string := "anthropic."

  /** The webhook of this module, which imports the HMAC library: it always signs. */
  function WebhookOf(rt: Runtime): WebhookEnv {
    WebhookEnv(rt.webhookSecret, HmacSha256(rt.hexDigest), rt.post)
  }

  /** The request body of the fallback generation. */
  function AnthropicRequest(prompt: string): (r: ModelRequest)
    ensures r.text == prompt && r.maxTokens == 1024 && r.role == "user"
    ensures r.partType == "text" && r.temperature == 0.2 && r.anthropicVersion == "bedrock-2023-05-31"
  {
    ModelRequest("bedrock-2023-05-31", 1024, 0.2, "user", "text", prompt)
  }

  function UnsupportedModel(modelId: string): Failure {
    Failure("Bedrock fallback implemented for Anthropic models only. MODEL_ID=" + modelId)
  }

  /** `p.get("type") == "text" and "text" in p`. */
  predicate IsTextPart(p: Part) {
    p.partType == Some("text") && !p.text.Absent?
  }

  /** `str(p["text"])`, where a null renders as "None". */
  function PartText(p: Part): string
    requires !p.text.Absent?
  {
    if p.text.Present? then p.text.value else "None"
  }

  /** The text of the first text part, if any. */
  function FirstTextPart(parts: seq<Part>): (r: Option<string>)
    ensures r.None? <==> forall i | 0 <= i < |parts| :: !IsTextPart(parts[i])
    ensures forall i | 0 <= i < |parts| ::
              IsTextPart(parts[i]) && (forall j | 0 <= j < i :: !IsTextPart(parts[j])) ==> r == Some(PartText(parts[i]))
    decreases |parts|
  {
    if parts == [] then None
    else if IsTextPart(parts[0]) then Some(PartText(parts[0]))
    else
      var r := FirstTextPart(parts[1..]);
      assert forall i | 1 <= i < |parts| :: parts[i] == parts[1..][i - 1];
      r
  }

  /** What the fallback generation yields for a decoded reply: the stripped
      first text part, or else the stripped rendering of the whole reply. */
  function ReplyText(reply: ModelReply): string {
    match FirstTextPart(reply.content.GetOr([]))
    case Some(t) => Strip(t)
    case None => Strip(reply.rendered)
  }

  /** The outcome of `_bedrock_generate`. */
  function BedrockGenerated(modelId: string, prompt: string, invokeModel: (string, ModelRequest) -> Result<ModelReply, Failure>)
    : (r: Result<string, Failure>)
    ensures !StartsWith(modelId, AnthropicPrefix) ==> r == Err(UnsupportedModel(modelId))
    ensures StartsWith(modelId, AnthropicPrefix) && invokeModel(modelId, AnthropicRequest(prompt)).Err? ==>
              r == Err(invokeModel(modelId, AnthropicRequest(prompt)).error)
    ensures StartsWith(modelId, AnthropicPrefix) && invokeModel(modelId, AnthropicRequest(prompt)).Ok? ==>
              var reply := invokeModel(modelId, AnthropicRequest(prompt)).value;
              var parts := reply.content.GetOr([]);
              ((forall i | 0 <= i < |parts| :: !IsTextPart(parts[i])) ==> r == Ok(Strip(reply.rendered))) &&
              (forall i | 0 <= i < |parts| && IsTextPart(parts[i]) && (forall j | 0 <= j < i :: !IsTextPart(parts[j])) ::
                 r == Ok(Strip(PartText(parts[i]))))
  {
    if !StartsWith(modelId, AnthropicPrefix) then Err(UnsupportedModel(modelId))
    else
      match invokeModel(modelId, AnthropicRequest(prompt))
      case Err(e) => Err(e)
      case Ok(reply) => Ok(ReplyText(reply))
  }

  /** The model invocations of `_bedrock_generate`: one for an Anthropic model, none otherwise. */
  function GenerateCalls(modelId: string, prompt: string): (calls: seq<Call>)
    ensures |calls| <= 1
    ensures calls != [] <==> StartsWith(modelId, AnthropicPrefix)
  {
    if StartsWith(modelId, AnthropicPrefix) then [InvokeModelCall(modelId, AnthropicRequest(prompt))] else []
  }

  /** A text part preceded only by non-text parts is the first text part. */
  lemma FirstTextPartAt(parts: seq<Part>, i: nat)
    requires i < |parts| && IsTextPart(parts[i])
    requires forall j | 0 <= j < i :: !IsTextPart(parts[j])
    ensures FirstTextPart(parts) == Some(PartText(parts[i]))
  {
  }

  /** `_bedrock_generate`: only Anthropic models are supported; the loop
      returns the first text part. */
  method BedrockGenerate(modelId: string, prompt: string, invokeModel: (string, ModelRequest) -> Result<ModelReply, Failure>)
    returns (r: Result<string, Failure>, calls: seq<Call>)
    ensures r == BedrockGenerated(modelId, prompt, invokeModel)
    ensures calls == GenerateCalls(modelId, prompt)
  {
    if !StartsWith(modelId, AnthropicPrefix) {
      return Err(UnsupportedModel(modelId)), [];
    }
    var body := AnthropicRequest(prompt);
    calls := [InvokeModelCall(modelId, body)];
    var resp := invokeModel(modelId, body);
    if resp.Err? {
      return Err(resp.error), calls;
    }
    var payload := resp.value;
    var parts := payload.content.GetOr([]);
    for i := 0 to |parts|
      invariant forall j | 0 <= j < i :: !IsTextPart(parts[j])
    {
      var p := parts[i];
      if p.partType == Some("text") && !p.text.Absent? {
        FirstTextPartAt(parts, i);
        return Ok(Strip(PartText(p))), calls;
      }
    }
    r := Ok(Strip(payload.rendered));
  }

  /** The agent's reply is used whenever it succeeds; only its failure brings
      in the fallback, and only once. */
  function Answered(rt: Runtime, q: string): Result<(string, Mode), Failure> {
    match rt.agent(q)
    case Ok(a) => Ok((Strip(a), AgentWithMcp))
    case Err(_) =>
      match BedrockGenerated(rt.modelId, q, rt.invokeModel)
      case Err(e) => Err(e)
      case Ok(a) => Ok((a, FallbackBedrock))
  }

  /** The calls made while answering. */
  function AnswerCalls(rt: Runtime, q: string): seq<Call> {
    [AgentCall(q)] + (if rt.agent(q).Err? then GenerateCalls(rt.modelId, q) else [])
  }

  /** What `invoke` hands back; a fallback failure escapes as `Raised`. */
  datatype Response =
    | Rejected(error: string)
    | Delivered(delivery: Delivery<AgentResult>)
    | Raised(failure: Failure)

  /** The `try`/`except` of `invoke`: the agent, then on its failure the fallback. */
  method Answer(rt: Runtime, q: string) returns (a: Result<(string, Mode), Failure>, calls: seq<Call>)
    ensures a == Answered(rt, q)
    ensures calls == AnswerCalls(rt, q)
  {
    calls := [AgentCall(q)];
    var res := rt.agent(q);
    if res.Ok? {
      return Ok((Strip(res.value), AgentWithMcp)), calls;
    }
    var answer, fallbackCalls := BedrockGenerate(rt.modelId, q, rt.invokeModel);
    calls := calls + fallbackCalls;
    if answer.Err? {
      return Err(answer.error), calls;
    }
    a := Ok((answer.value, FallbackBedrock));
  }

  /** The result `invoke` builds from an answer and its mode. */
  function ResultOf(rt: Runtime, p: Payload, q: string, answer: (string, Mode)): AgentResult {
    AgentResult(Entrypoint.JobIdOf(p.jobId, rt.freshId), q, answer.0, rt.now, answer.1)
  }

  /** `invoke`. */
  method Invoke(rt: Runtime, p: Payload) returns (resp: Response, calls: seq<Call>)
    ensures var q := Entrypoint.QueryText(p.prompt, p.input);
            q == "" ==> resp == Rejected(Entrypoint.MissingPrompt) && calls == []
    ensures var q := Entrypoint.QueryText(p.prompt, p.input);
            q != "" && Answered(rt, q).Err? ==>
              resp == Raised(Answered(rt, q).error) && calls == AnswerCalls(rt, q)
    ensures var q := Entrypoint.QueryText(p.prompt, p.input);
            q != "" && Answered(rt, q).Ok? ==>
              var result := ResultOf(rt, p, q, Answered(rt, q).value);
              var d := Deliver(p.callbackUrl, result.jobId, result, rt.serialize, WebhookOf(rt));
              resp == Delivered(d.delivery) && calls == AnswerCalls(rt, q) + d.posts
  {
    var query := Entrypoint.QueryText(p.prompt, p.input);
    if query == "" {
      return Rejected(Entrypoint.MissingPrompt), [];
    }
    var answer, answerCalls := Answer(rt, query);
    if answer.Err? {
      return Raised(answer.error), answerCalls;
    }
    var result := ResultOf(rt, p, query, answer.value);
    var d := Deliver(p.callbackUrl, result.jobId, result, rt.serialize, WebhookOf(rt));
    resp := Delivered(d.delivery);
    calls := answerCalls + d.posts;
  }

  /** The mode of a delivered result records which path answered, and a
      fallback result exists only when the agent failed. */
  lemma ModeRecordsPath(rt: Runtime, q: string)
    requires Answered(rt, q).Ok?
    ensures Answered(rt, q).value.1 == FallbackBedrock <==> rt.agent(q).Err?
    ensures Answered(rt, q).value.1.Name() == "fallback-bedrock" <==> rt.agent(q).Err?
    ensures rt.agent(q).Ok? ==> Answered(rt, q).value.0 == Strip(rt.agent(q).value)
  {
  }

  /** When the agent fails, the answer is the fallback generation's: its failure
      is raised unchanged, and its text is returned in fallback mode. */
  lemma FallbackAnswer(rt: Runtime, q: string)
    requires rt.agent(q).Err?
    ensures Answered(rt, q).Err? <==> BedrockGenerated(rt.modelId, q, rt.invokeModel).Err?
    ensures Answered(rt, q).Err? ==>
              Answered(rt, q).error == BedrockGenerated(rt.modelId, q, rt.invokeModel).error
    ensures Answered(rt, q).Ok? ==>
              Answered(rt, q).value == (BedrockGenerated(rt.modelId, q, rt.invokeModel).value, FallbackBedrock)
  {
  }

  /** The agent is always asked first; the model is invoked only after the
      agent failed, and then exactly once. */
  lemma FallbackOnlyOnAgentFailure(rt: Runtime, q: string)
    ensures AnswerCalls(rt, q)[0] == AgentCall(q) && |AnswerCalls(rt, q)| <= 2
    ensures rt.agent(q).Ok? ==> AnswerCalls(rt, q) == [AgentCall(q)]
    ensures |AnswerCalls(rt, q)| == 2 <==> rt.agent(q).Err? && StartsWith(rt.modelId, AnthropicPrefix)
  {
  }

  /** With a secret set, a callback is posted once, signed over the serialised
      result; the signature never makes the callback fail here. */
  lemma CallbacksAreSigned(rt: Runtime, callbackUrl: Option<string>, result: AgentResult)
    requires Truthy(rt.webhookSecret) && Truthy(callbackUrl)
    ensures var d := Deliver(callbackUrl, result.jobId, result, rt.serialize, WebhookOf(rt));
            |d.posts| == 1 &&
            d.posts[0].headers[SignatureHeader] == SignPayload(rt.hexDigest, rt.webhookSecret.value, rt.serialize(result))
  {
    var a := PostWebhook(callbackUrl.value, rt.serialize(result), WebhookOf(rt));
    assert a.posts != [];
    assert DigestOf(WebhookOf(rt).signer) == rt.hexDigest;
  }

  /** A non-Anthropic model turns any agent failure into a raised error, with
      no model invocation attempted. */
  lemma NonAnthropicFallbackRaises(rt: Runtime, q: string)
    requires rt.agent(q).Err? && !StartsWith(rt.modelId, AnthropicPrefix)
    ensures Answered(rt, q) == Err(UnsupportedModel(rt.modelId))
    ensures AnswerCalls(rt, q) == [AgentCall(q)]
  {
  }
}
