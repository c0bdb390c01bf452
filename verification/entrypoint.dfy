/** Payload handling shared by the two agent entry points. */
module Entrypoint {
  import opened Wrappers
  import opened Strings

  /** The error object returned for a payload without a usable prompt. */
  const MissingPrompt: string := "Missing 'prompt' in payload"

  /** `(payload.get("prompt") or payload.get("input") or "").strip()`. */
  function QueryText(prompt: Option<string>, input: Option<string>): (q: string)
    ensures Truthy(prompt) ==> q == Strip(prompt.value)
    ensures !Truthy(prompt) ==> q == Strip(OrEmpty(input))
    ensures q == "" <==> forall i | 0 <= i < |OrEmpty(Or(prompt, input))| :: IsSpace(OrEmpty(Or(prompt, input))[i])
  {
    Strip(OrEmpty(Or(prompt, input)))
  }

  /** `payload.get("job_id") or <fresh id>`. */
  function JobIdOf(jobId: Option<string>, freshId: string): (r: string)
    ensures Truthy(jobId) ==> r == jobId.value
    ensures !Truthy(jobId) ==> r == freshId
  {
    if Truthy(jobId) then jobId.value else freshId
  }

  /** A prompt consisting only of whitespace is rejected although it is truthy. */
  lemma WhitespacePromptIgnoresInput(prompt: string, input: Option<string>)
    requires prompt != "" && forall i | 0 <= i < |prompt| :: IsSpace(prompt[i])
    ensures QueryText(Some(prompt), input) == ""
  {
    assert Truthy(Some(prompt));
    assert Strip(prompt) == "";
  }
}
