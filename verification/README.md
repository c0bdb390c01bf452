# Knowledge-base assistant: a Dafny model

This project models the request-handling core of a knowledge-base chatbot built on
Amazon Bedrock. The core has three parts.

- **The `kb.search` tool server** (`agents/rag_mcp/src/mcp_server.py`). It checks
  the caller and validates the query. It picks a language: the one given, normalised
  to `en`, `fr`, `de` or `zh-Hant`, or else a detected one. It picks a knowledge
  base: the one given, or else routes by language and by a list of support phrases.
  It retrieves passages and flattens each record into an item. It drops items below
  a positive score floor, then drops items whose language tag names another language.
- **The two-tier retrieval agent** (`src/kb_agent.py`). Tier A retrieves passages
  and parses them into chunks, skipping scored records below the floor. If Tier A
  raises, Tier B calls retrieval-with-generation and flattens its citation groups.
  With nothing found, a fixed answer is returned and synthesis is skipped. Otherwise
  a numbered reference prompt goes to one `use_llm` call and the chunks are numbered
  into citations. Finally the result is delivered: either posted to a webhook and
  acknowledged, or returned inline.
- **The tool-using agent** (`agents/rag_mcp/src/agent.py`). The Strands agent
  answers first. If it raises, one direct model invocation is the fallback, and it
  is supported only for Anthropic model ids. The result is delivered the same way.

Everything outside the program is a parameter: the retrieval services, the Strands
agent and its `use_llm` tool, the model invocation, language detection, the HTTP
POST, the HMAC digest, the JSON serialiser, fresh job ids and the clock. The
services that can raise (retrieval, generation, the agent, `use_llm`, the model
invocation and the POST) return either a value or a `Failure`, standing for the
raised exception. The detector returns an optional code, where none stands for a
detection error. The digest, the serialiser, the fresh id and the clock are plain
values or functions that never fail. Every operation that calls a retrieval, generation, agent or webhook
service also returns the sequence of those calls it made. Language detection is a
pure parameter and is not part of that sequence. The contracts can therefore count the calls: one fallback at most,
no synthesis when nothing was found, at most one POST, no service call for a blank
prompt.

Python's distinctions that the code relies on are written out:

- A dictionary key can be missing, or present with a null value (`Field`). Only a
  missing key takes the `.get` default.
- `a or b` (`Strings.Or`).
- `str.strip()`, with Python's exact whitespace set (`Strings.Strip`).
- `str(None)`, which gives `"None"`.
- The `TypeError` and `AttributeError` raised when the code uses a null as a list
  or a dict.

`src/kb_agent.py` imports neither `hmac` nor `hashlib`. When `WEBHOOK_SECRET` is
set, signing therefore raises `NameError`. The callback then always fails, and the
result comes back inline with that message as `callback_error`. The model keeps
this behaviour (`KbAgent.SecretMakesCallbacksFail`). `agents/rag_mcp/src/agent.py`
imports both modules and signs normally.

For the synthesis step, the code makes a single `use_llm` call and lets its failure
propagate. The model follows the code, not a fuller fallback chain.

## Model

| member | source | states |
|---|---|---|
| Strings.Strip | agents/rag_mcp/src/agent.py:117 | the result is a slice of the input with only Python whitespace before and after it; it is empty exactly when every character is whitespace; otherwise it neither starts nor ends with whitespace |
| Strings.ContainsIffOccurs | agents/rag_mcp/src/mcp_server.py:81 | Python's substring test `p in s` holds exactly when `p` occurs at some offset of `s` |
| Strings.Take | src/kb_agent.py:121 | a slice `s[:n]` is the prefix of `s` of length exactly `n` when `s` is longer, and all of `s` otherwise |
| Strings.ReplaceNewlines | src/kb_agent.py:120 | replacing newlines by spaces keeps the length, puts a space where each newline was, and keeps every other character |
| Strings.ParseNatToString | src/kb_agent.py:121 | the decimal rendering of a reference number parses back to that number |
| Strings.NatToStringInjective | src/kb_agent.py:121 | distinct reference numbers render as distinct strings |
| Seqs.FilterMembership | agents/rag_mcp/src/mcp_server.py:198 | an element survives a list comprehension filter exactly when it was in the list and meets the condition |
| Seqs.FilterIsSubsequence | agents/rag_mcp/src/mcp_server.py:100-108 | a filter keeps the survivors in their original order |
| Seqs.FilterNarrows | agents/rag_mcp/src/mcp_server.py:197-198 | filtering by a weaker condition and then a stronger one equals filtering by the stronger one, and keeps no more elements |
| Records.FirstTruthy | agents/rag_mcp/src/mcp_server.py:93 | a chain `v0 or v1 or ...` yields the first truthy value, or the last value when none is truthy; it is truthy exactly when some value is |
| Records.TitleOf | agents/rag_mcp/src/mcp_server.py:93 | the title is metadata `title`, else `file`, else `source` |
| Records.UrlOf | agents/rag_mcp/src/mcp_server.py:94 | the URL is metadata `url`, else `source` |
| Entrypoint.QueryText | agents/rag_mcp/src/agent.py:117-119 | the query is the stripped prompt when the prompt is non-empty, else the stripped input; it is blank exactly when the chosen text is all whitespace |
| Entrypoint.JobIdOf | agents/rag_mcp/src/agent.py:121 | a non-empty caller job id is kept; otherwise a fresh id is used |
| Entrypoint.WhitespacePromptIgnoresInput | src/kb_agent.py:156-158 | any non-empty prompt made only of whitespace wins over the input, and the query it gives is blank, so it is rejected as missing |
| Webhook.SignPayload | agents/rag_mcp/src/agent.py:102-104 | the signature is `sha256=` followed by the hex digest of the body under the secret |
| Webhook.Headers | agents/rag_mcp/src/agent.py:107-111 | `Content-Type: application/json` is always sent; `X-Signature` is sent exactly when a non-empty secret is set, and carries the body's signature; no other header is sent |
| Webhook.PostWebhook | src/kb_agent.py:143-150 | at most one POST, carrying the body and exactly the headers above, signed with the signer's digest; when a secret is set and signing is unavailable, no POST happens and the failure is the `NameError` |
| Webhook.Deliver | agents/rag_mcp/src/agent.py:144-151 | without a callback URL the result is returned inline and nothing is posted; with one, the reply is an acknowledgement with the job id exactly when the POST succeeded, otherwise the result is returned inline, annotated with the first 200 characters of the error |
| McpServer.KbIdFor | agents/rag_mcp/src/mcp_server.py:31-34 | each knowledge-base key maps to its configured id |
| McpServer.NormalizeLang | agents/rag_mcp/src/mcp_server.py:48-56 | the result is always a supported language; an empty or missing code gives `en`; the result is `zh-Hant` exactly when the lower-cased code starts with `zh`; a lower-cased `en`, `fr` or `de` passes through; any other code gives `en` |
| McpServer.NormalizeLangCaseInsensitive | agents/rag_mcp/src/mcp_server.py:51-56 | codes that differ only in case normalise alike |
| McpServer.NormalizeLangIdempotent | agents/rag_mcp/src/mcp_server.py:48-56 | normalising a normalised code changes nothing |
| McpServer.DetectLang | agents/rag_mcp/src/mcp_server.py:58-63 | the detected language is the detector's code normalised, so always a supported language, and `en` when the detector fails |
| McpServer.AnySignal | agents/rag_mcp/src/mcp_server.py:81 | true exactly when one of the phrases occurs in the text |
| McpServer.AutoRouteKb | agents/rag_mcp/src/mcp_server.py:65-83 | the route is always a known knowledge base; a non-English language routes to general-docs; otherwise the route is cs-support exactly when some support phrase occurs in the lower-cased text |
| McpServer.RouteBrokenScreenToSupport | agents/rag_mcp/src/mcp_server.py:76-82 | an English question about a broken screen goes to cs-support |
| McpServer.CleanItem | agents/rag_mcp/src/mcp_server.py:85-95 | an item keeps the record's score and location, takes its text from the content, keeps present metadata as it is and treats missing or null metadata as empty, and derives its title and URL from the metadata |
| McpServer.CleanItemMissingAsEmpty | agents/rag_mcp/src/mcp_server.py:86-87 | missing, null and empty content or metadata give the same item |
| McpServer.PostFilterLang | agents/rag_mcp/src/mcp_server.py:97-108 | the loop computes the language filter |
| McpServer.LangFilteredKeeps | agents/rag_mcp/src/mcp_server.py:98-107 | with no language, or for cs-support, the filter keeps every item; otherwise it keeps, in order, exactly the items whose language tag is empty or equals the language |
| McpServer.ApplyScoreFloor | agents/rag_mcp/src/mcp_server.py:197-198 | a floor of zero or less keeps every item; any floor keeps the survivors in order |
| McpServer.ScoreFloorKeeps | agents/rag_mcp/src/mcp_server.py:198 | under a positive floor, an item survives exactly when it has a score at least the floor; unscored items are dropped |
| McpServer.ScoreFloorMonotone | agents/rag_mcp/src/mcp_server.py:197-198 | raising the floor never keeps more items |
| McpServer.ToolLang | agents/rag_mcp/src/mcp_server.py:174-178 | a given language is normalised; an omitted one is detected from the query; either way a supported language results |
| McpServer.CallTool | agents/rag_mcp/src/mcp_server.py:160-204 | the checks run in the source's order: caller, tool name, blank query, unknown knowledge base. The reply is an error exactly when one of those checks fails. An error reply is returned exactly when no retrieval was made. Otherwise one retrieval goes to the routed base with the query and `top_k`. Its failure propagates. Its records become the cleaned, score-floored, language-filtered items, returned with the routing |
| KbAgent.TierAChunk | src/kb_agent.py:76-85 | a Tier A chunk keeps the record's score, has the content text as its text, or `""` when that is missing or null, and takes title and URL from the metadata |
| KbAgent.ParseTierA | src/kb_agent.py:73-86 | the parsing loop yields the chunks of the records that pass the floor, in order, or raises when such a record has null metadata |
| KbAgent.TierAKeepsOnlyPassing | src/kb_agent.py:77-79 | every Tier A chunk is unscored or scores at least the floor; there are never more chunks than records, and exactly as many when every record passes the floor |
| KbAgent.TierAFloorMonotone | src/kb_agent.py:78-79 | raising the floor never yields more Tier A chunks |
| KbAgent.TierBChunk | src/kb_agent.py:104-110 | a Tier B chunk keeps the reference's text and score and derives title and URL from the metadata |
| KbAgent.FirstFaultPrefix | src/kb_agent.py:102-104 | the first exception while flattening is decided by the first group that raises |
| KbAgent.ParseReferences | src/kb_agent.py:103-110 | the inner loop makes one chunk per reference of a group, and raises exactly when some reference has null metadata |
| KbAgent.FlattenReferences | src/kb_agent.py:101-110 | the nested loop yields the chunks of every reference of every group, in order, or the first exception: a null reference list or null metadata |
| KbAgent.TierBKeepsEveryReference | src/kb_agent.py:102-110 | when no group raises, there is one chunk per reference |
| KbAgent.Retrieved | src/kb_agent.py:56-111 | Tier A's chunks are returned in mode `retrieve` with no generated text when Tier A succeeds. Otherwise Tier B's chunks and its stripped generated text are returned in mode `rag`, or Tier B's exception. The citations are always the chunks |
| KbAgent.ModeRecordsTier | src/kb_agent.py:86-111 | the mode, whose name is `rag`, is the fallback mode exactly when Tier A failed |
| KbAgent.KbRetrieve | src/kb_agent.py:56-111 | the retrieval returns the outcome above; the second service is called only, and exactly once, when Tier A failed |
| KbAgent.RefTitle | src/kb_agent.py:118 | a reference title is the chunk's title when it is non-empty, and `Source` otherwise |
| KbAgent.Snippet | src/kb_agent.py:120-121 | a snippet is the first 400 characters of the chunk's text, or all of it when shorter, with each newline replaced by a space and every other character kept |
| KbAgent.RefEntry | src/kb_agent.py:121 | entry `n` starts with `[n] ` and the title and a space, followed by `- url` exactly when the chunk has a non-empty URL, then a newline and the snippet |
| KbAgent.ReferenceLines | src/kb_agent.py:116-121 | the loop makes one entry per chunk, numbered from 1 in chunk order |
| KbAgent.Prompt | src/kb_agent.py:124-131 | the prompt starts with the question verbatim, continues with the references block, then the line introducing the pre-baked answer, and ends with the pre-baked answer in `kb_answer` tags and the instruction; nothing else is in it |
| KbAgent.Synthesize | src/kb_agent.py:114-133 | synthesis makes exactly one `use_llm` call with the prompt; the answer is its stripped reply, and its failure propagates |
| KbAgent.NumberCitations | src/kb_agent.py:194-201 | the loop numbers citations from 1 in chunk order, with a non-empty title and the chunk's URL |
| KbAgent.CitationMatchesReference | src/kb_agent.py:116-121 | citation `n` names the same number and title as reference entry `n` of the prompt, and no two citations print the same number |
| KbAgent.SecretMakesCallbacksFail | src/kb_agent.py:139-148 | with a webhook secret set, nothing is posted and the result comes back inline with the `NameError` message |
| KbAgent.Respond | src/kb_agent.py:170-226 | with nothing retrieved, the fixed answer with no citations is delivered and synthesis is skipped; otherwise the synthesised answer and numbered citations are delivered, or the synthesis failure propagates |
| KbAgent.Invoke | src/kb_agent.py:153-226 | a blank query is rejected with no service call. A retrieval failure propagates. Otherwise the result is built and delivered as above. The calls are the retrieval's calls, then at most one `use_llm` call, then at most one POST |
| RagAgent.AnthropicRequest | agents/rag_mcp/src/agent.py:76-81 | the fallback request carries the prompt as one user message of part type `text`, with 1024 max tokens, temperature 0.2 and version `bedrock-2023-05-31` |
| RagAgent.FirstTextPart | agents/rag_mcp/src/agent.py:89-92 | the text of the first part typed `text` that has a `text` key, null rendering as `None`; nothing exactly when no part qualifies |
| RagAgent.BedrockGenerated | agents/rag_mcp/src/agent.py:71-97 | a non-Anthropic model id fails with the unsupported-model message; an invocation failure propagates; otherwise the answer is the stripped text of the first part typed `text` that has a `text` key, or the stripped rendering of the reply when no part qualifies |
| RagAgent.GenerateCalls | agents/rag_mcp/src/agent.py:75-95 | the fallback invokes the model at most once, and does so exactly when the id starts with `anthropic.` |
| RagAgent.BedrockGenerate | agents/rag_mcp/src/agent.py:71-97 | the loop with early return gives the outcome above: the stripped first text part, else the stripped rendering of the reply. It makes exactly the invocations above |
| RagAgent.Answer | agents/rag_mcp/src/agent.py:124-142 | the agent's stripped reply in mode `agent-with-mcp` when it succeeds; otherwise the fallback's answer in mode `fallback-bedrock`, or its failure |
| RagAgent.Invoke | agents/rag_mcp/src/agent.py:115-151 | a blank query is rejected with no call; the agent is asked first; a fallback failure propagates; otherwise the answer, with the mode of the path that produced it, is delivered through a webhook that always signs with HMAC-SHA256 |
| RagAgent.FallbackAnswer | agents/rag_mcp/src/agent.py:134-142 | after an agent failure the answer is the fallback generation's: it fails exactly when that generation fails, with the same error, and otherwise carries its text in `fallback-bedrock` mode |
| RagAgent.ModeRecordsPath | agents/rag_mcp/src/agent.py:124-142 | the mode, named `fallback-bedrock`, is the fallback mode exactly when the agent failed, and an agent answer is its reply stripped |
| RagAgent.FallbackOnlyOnAgentFailure | agents/rag_mcp/src/agent.py:124-135 | the agent is called first; the model is invoked only after an agent failure, and at most once |
| RagAgent.CallbacksAreSigned | agents/rag_mcp/src/agent.py:106-112 | with a webhook secret set, a callback is posted once, and its `X-Signature` is the signature of the serialised result |
| RagAgent.NonAnthropicFallbackRaises | agents/rag_mcp/src/agent.py:94-97 | with a non-Anthropic model id, an agent failure ends in the unsupported-model error without any model invocation |

## Left out

- Strings.Lower: covers only the letters A to Z. Python's full Unicode lower-casing, such as `É` to `é`, is not modelled.
- Records, citation groups and references are assumed to be dictionaries. In the source, a null entry in `retrievalResults` raises on `.get`, which sends Tier A to Tier B, and a null citation group or reference raises in Tier B. The model does not represent null entries.
- Metadata values are modelled as strings. Non-string values, for which `.strip()` or `or` behave differently, are not modelled.
- The argument conversions `int(...)` and `float(...)` of `top_k` and `min_score`, and the errors they raise, are not modelled. An absent value takes the configured default, and a present value is used as a number. The `str(...)` conversion of the query argument is modelled only for a missing value, a null and a string.
- JSON encoding (`json.dumps`, `json.loads`) is a parameter. The request body, the serialised result and the decoded model reply are not byte-level.
- HMAC-SHA-256 and hex digesting are a parameter, and so are `uuid4`, `time.time` and the HTTP POST. Retries, timeouts and `raise_for_status` are folded into the POST's outcome.
- The record `location` is kept as an opaque string.
- RagAgent.Invoke: a non-string agent reply is rendered through `getattr(res, "message", str(res))`. The model takes the agent's reply as already rendered text.
- RagAgent.ModelReply: `str(payload)` of the decoded reply is given as its `rendered` field. A `content` that is not a list, or parts that are not dictionaries, are not modelled.
- Webhook.Deliver: the source adds `callback_error` to the result dictionary in place. The model returns the result together with the error note instead.
- The FastAPI app, the health and schema endpoints, the cached key list, the MCP toolset wiring and the system prompts are not modelled.
- Start-up checks that refuse a missing `KB_ID` or `MODEL_ID`, and the reading of environment variables, are not modelled. Configuration is a parameter.
- The Streamlit front end and the knowledge-base ingestion sync are not part of this model.
