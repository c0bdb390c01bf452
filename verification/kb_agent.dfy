/** The knowledge-base agent: two-tier retrieval (passage retrieval, with
    retrieval-and-generation as the fallback), the synthesis prompt, citation
    numbering and result delivery. */
module KbAgent {
  import opened Wrappers
  import opened Strings
  import opened Seqs
  import opened Records
  import opened Collaborators
  import opened Webhook
  import Entrypoint

  /** `KB_ID`, `TOP_K` and `MIN_SCORE`, read once at start-up. */
  datatype Config = Config(kbId: string, topK: int, minScore: real)

  /** A retrieved passage as the agent keeps it. */
  datatype Chunk = Chunk(text: Option<string>, score: Option<real>, title: Option<string>, url: Option<string>)

  /** Which tier produced the passages: `"retrieve"` or `"rag"`. */
  datatype Mode = RetrieveMode | RagMode {
    function Name(): string {
      if RetrieveMode? then "retrieve" else "rag"
    }
  }

  /** What `kb_retrieve` returns. */
  datatype Retrieval = Retrieval(chunks: seq<Chunk>, citations: seq<Chunk>, ragText: Option<string>, mode: Mode)

  /** One entry of the fallback's `citations` list. */
  datatype CitationGroup = CitationGroup(retrievedReferences: Field<seq<RawRecord>>)

  /** The reply of `retrieve_and_generate`: the generated `output.text` and the citations. */
  datatype RagReply = RagReply(outputText: Option<string>, citations: seq<CitationGroup>)

  /** The backend services: passage retrieval, retrieval with generation, and the
      Strands `use_llm` tool (its reply already rendered with `str`). */
  datatype Backend = Backend(
    retrieve: (string, string, int) -> Result<seq<RawRecord>, Failure>,
    retrieveAndGenerate: (string, string) -> Result<RagReply, Failure>,
    useLlm: string -> Result<string, Failure>)

  /** `str(e)` for `None.get(...)` and for iterating over `None`. */
  const NoneHasNoGet: Failure := Failure("'NoneType' object has no attribute 'get'")
  const NoneNotIterable: Failure := Failure("'NoneType' object is not iterable")

  // ---------------------------------------------------------------------------
  // Tier A: passage retrieval

  /** A record is skipped only when it has a score below the floor. */
  predicate PassesFloor(score: Option<real>, minScore: real) {
    score.None? || score.value >= minScore
  }

  function FloorKeeper(minScore: real): RawRecord -> bool {
    (r: RawRecord) => PassesFloor(r.score, minScore)
  }

  /** The chunk of a kept Tier A record; missing text becomes "". */
  function TierAChunk(r: RawRecord): (c: Chunk)
    ensures c.text == Some(OrEmpty(ContentText(r.content)))
    ensures c.text.Some? && (c.text.value == "" <==> !Truthy(ContentText(r.content)))
    ensures c.score == r.score
    ensures c.title == TitleOf(MetaOrEmpty(r.metadata)) && c.url == UrlOf(MetaOrEmpty(r.metadata))
  {
    var md := MetaOrEmpty(r.metadata);
    Chunk(Some(OrEmpty(ContentText(r.content))), r.score, TitleOf(md), UrlOf(md))
  }

  /** Parsing raises when a record that passes the floor has null metadata; a
      record skipped for its score is never looked at. */
  predicate TierAFaults(records: seq<RawRecord>, minScore: real) {
    exists i | 0 <= i < |records| :: PassesFloor(records[i].score, minScore) && records[i].metadata.Null?
  }

  /** The chunks Tier A makes of the backend's records. */
  function TierAChunks(records: seq<RawRecord>, minScore: real): Result<seq<Chunk>, Failure> {
    if TierAFaults(records, minScore) then Err(NoneHasNoGet)
    else Ok(Map(TierAChunk, Filter(FloorKeeper(minScore), records)))
  }

  /** The parsing loop of Tier A. */
  method ParseTierA(records: seq<RawRecord>, minScore: real) returns (res: Result<seq<Chunk>, Failure>)
    ensures res == TierAChunks(records, minScore)
  {
    var chunks: seq<Chunk> := [];
    for i := 0 to |records|
      invariant chunks == Map(TierAChunk, Filter(FloorKeeper(minScore), records[..i]))
      invariant forall k | 0 <= k < i :: !(PassesFloor(records[k].score, minScore) && records[k].metadata.Null?)
    {
      assert records[..i + 1][..i] == records[..i];
      var item := records[i];
      if item.score.Some? && item.score.value < minScore {
        continue;
      }
      if item.metadata.Null? {
        assert PassesFloor(records[i].score, minScore) && records[i].metadata.Null?;
        return Err(NoneHasNoGet);
      }
      chunks := chunks + [TierAChunk(item)];
    }
    assert records[..|records|] == records;
    res := Ok(chunks);
  }

  /** Every kept chunk passes the floor, and kept chunks keep the backend order. */
  lemma TierAKeepsOnlyPassing(records: seq<RawRecord>, minScore: real)
    requires TierAChunks(records, minScore).Ok?
    ensures var cs := TierAChunks(records, minScore).value;
            forall i | 0 <= i < |cs| :: PassesFloor(cs[i].score, minScore)
    ensures |TierAChunks(records, minScore).value| <= |records|
    ensures (forall i | 0 <= i < |records| :: PassesFloor(records[i].score, minScore)) ==>
              |TierAChunks(records, minScore).value| == |records|
  {
    var kept := Filter(FloorKeeper(minScore), records);
    var cs := TierAChunks(records, minScore).value;
    assert cs == Map(TierAChunk, kept);
    forall i | 0 <= i < |cs| ensures PassesFloor(cs[i].score, minScore) {
      assert cs[i].score == kept[i].score;
      FilterMembership(FloorKeeper(minScore), records, kept[i]);
    }
    if forall i | 0 <= i < |records| :: PassesFloor(records[i].score, minScore) {
      FilterKeepsAll(FloorKeeper(minScore), records);
    }
  }

  /** Raising the floor never yields more Tier A chunks. */
  lemma TierAFloorMonotone(records: seq<RawRecord>, low: real, high: real)
    requires low <= high
    requires TierAChunks(records, low).Ok? && TierAChunks(records, high).Ok?
    ensures |TierAChunks(records, high).value| <= |TierAChunks(records, low).value|
  {
    FilterNarrows(FloorKeeper(high), FloorKeeper(low), records);
  }

  // ---------------------------------------------------------------------------
  // Tier B: retrieval with generation

  /** The chunk of a fallback reference; its text is not defaulted and no score floor applies. */
  function TierBChunk(r: RawRecord): (c: Chunk)
    ensures c.text == ContentText(r.content) && c.score == r.score
    ensures c.title == TitleOf(MetaOrEmpty(r.metadata)) && c.url == UrlOf(MetaOrEmpty(r.metadata))
  {
    var md := MetaOrEmpty(r.metadata);
    Chunk(ContentText(r.content), r.score, TitleOf(md), UrlOf(md))
  }

  /** `c.get("retrievedReferences", [])` where it can be iterated. */
  function GroupRefs(g: CitationGroup): seq<RawRecord> {
    if g.retrievedReferences.Present? then g.retrievedReferences.value else []
  }

  /** The exception flattening one citation group raises, if any. */
  function GroupFault(g: CitationGroup): Option<Failure> {
    match g.retrievedReferences
    case Absent => None
    case Null => Some(NoneNotIterable)
    case Present(refs) =>
      if exists j | 0 <= j < |refs| :: refs[j].metadata.Null? then Some(NoneHasNoGet) else None
  }

  /** The first exception met while flattening the groups in order. */
  function FirstFault(groups: seq<CitationGroup>): Option<Failure>
    decreases |groups|
  {
    if groups == [] then None
    else
      var earlier := FirstFault(groups[..|groups| - 1]);
      if earlier.Some? then earlier else GroupFault(groups[|groups| - 1])
  }

  /** The references, flattened group by group and reference by reference. */
  function TierBChunks(groups: seq<CitationGroup>): Result<seq<Chunk>, Failure> {
    match FirstFault(groups)
    case Some(f) => Err(f)
    case None => Ok(Map(TierBChunk, Concat(Map(GroupRefs, groups))))
  }

  lemma {:induction false} FirstFaultPrefix(groups: seq<CitationGroup>, k: nat)
    requires k <= |groups| && FirstFault(groups[..k]).Some?
    ensures FirstFault(groups) == FirstFault(groups[..k])
    decreases |groups|
  {
    if k < |groups| {
      var init := groups[..|groups| - 1];
      assert init[..k] == groups[..k];
      FirstFaultPrefix(init, k);
    } else {
      assert groups[..k] == groups;
    }
  }

  lemma ConcatMapStep(groups: seq<CitationGroup>, i: nat)
    requires i < |groups|
    ensures Concat(Map(GroupRefs, groups[..i + 1])) == Concat(Map(GroupRefs, groups[..i])) + GroupRefs(groups[i])
  {
    assert Map(GroupRefs, groups[..i + 1]) == Map(GroupRefs, groups[..i]) + [GroupRefs(groups[i])];
    ConcatAppend(Map(GroupRefs, groups[..i]), GroupRefs(groups[i]));
  }

  /** The inner loop of the fallback tier over one group's references: a
      chunk per reference, or the exception of the first null metadata. */
  method ParseReferences(refs: seq<RawRecord>) returns (res: Result<seq<Chunk>, Failure>)
    ensures res.Err? <==> exists k | 0 <= k < |refs| :: refs[k].metadata.Null?
    ensures res.Err? ==> res.error == NoneHasNoGet
    ensures res.Ok? ==> res.value == Map(TierBChunk, refs)
  {
    var cites: seq<Chunk> := [];
    for j := 0 to |refs|
      invariant forall k | 0 <= k < j :: !refs[k].metadata.Null?
      invariant cites == Map(TierBChunk, refs[..j])
    {
      if refs[j].metadata.Null? {
        return Err(NoneHasNoGet);
      }
      assert refs[..j + 1] == refs[..j] + [refs[j]];
      cites := cites + [TierBChunk(refs[j])];
    }
    assert refs[..|refs|] == refs;
    res := Ok(cites);
  }

  /** The nested flattening loop of the fallback tier. */
  method FlattenReferences(groups: seq<CitationGroup>) returns (res: Result<seq<Chunk>, Failure>)
    ensures res == TierBChunks(groups)
  {
    var cites: seq<Chunk> := [];
    for i := 0 to |groups|
      invariant FirstFault(groups[..i]).None?
      invariant cites == Map(TierBChunk, Concat(Map(GroupRefs, groups[..i])))
    {
      assert groups[..i + 1][..i] == groups[..i];
      var g := groups[i];
      if g.retrievedReferences.Null? {
        FirstFaultPrefix(groups, i + 1);
        return Err(NoneNotIterable);
      }
      var refs := GroupRefs(g);
      var parsed := ParseReferences(refs);
      if parsed.Err? {
        FirstFaultPrefix(groups, i + 1);
        return Err(parsed.error);
      }
      ConcatMapStep(groups, i);
      MapAppend(TierBChunk, Concat(Map(GroupRefs, groups[..i])), refs);
      cites := cites + parsed.value;
    }
    assert groups[..|groups|] == groups;
    res := Ok(cites);
  }

  /** Without faults, the fallback keeps every reference, in citation-then-reference order. */
  lemma TierBKeepsEveryReference(groups: seq<CitationGroup>)
    requires FirstFault(groups).None?
    ensures TierBChunks(groups).Ok?
    ensures |TierBChunks(groups).value| == |Concat(Map(GroupRefs, groups))|
    ensures forall i | 0 <= i < |groups| :: GroupFault(groups[i]).None?
    decreases |groups|
  {
    if groups != [] {
      var init := groups[..|groups| - 1];
      TierBKeepsEveryReference(init);
      forall i | 0 <= i < |groups| ensures GroupFault(groups[i]).None? {
        if i < |init| { assert groups[i] == init[i]; }
      }
    }
  }

  // ---------------------------------------------------------------------------
  // Two-tier retrieval

  /** Whether the first tier ends in an exception (backend or parsing). */
  predicate TierAFailed(kbId: string, query: string, topK: int, minScore: real, backend: Backend) {
    match backend.retrieve(kbId, query, topK)
    case Err(_) => true
    case Ok(records) => TierAChunks(records, minScore).Err?
  }

  /** The outcome of `kb_retrieve`. */
  function Retrieved(kbId: string, query: string, topK: int, minScore: real, backend: Backend): (r: Result<Retrieval, Failure>)
    ensures r.Ok? ==> r.value.citations == r.value.chunks
    ensures !TierAFailed(kbId, query, topK, minScore, backend) ==>
              r.Ok? && r.value.mode == RetrieveMode && r.value.ragText.None? &&
              r.value.chunks == TierAChunks(backend.retrieve(kbId, query, topK).value, minScore).value
    ensures TierAFailed(kbId, query, topK, minScore, backend) ==>
              match backend.retrieveAndGenerate(kbId, query)
              case Err(e) => r == Err(e)
              case Ok(rag) =>
                match TierBChunks(rag.citations)
                case Err(e) => r == Err(e)
                case Ok(cs) => r == Ok(Retrieval(cs, cs, Some(Strip(OrEmpty(rag.outputText))), RagMode))
  {
    var tierA := backend.retrieve(kbId, query, topK);
    if tierA.Ok? && TierAChunks(tierA.value, minScore).Ok? then
      var chunks := TierAChunks(tierA.value, minScore).value;
      Ok(Retrieval(chunks, chunks, None, RetrieveMode))
    else
      match backend.retrieveAndGenerate(kbId, query)
      case Err(e) => Err(e)
      case Ok(rag) =>
        match TierBChunks(rag.citations)
        case Err(e) => Err(e)
        case Ok(cs) => Ok(Retrieval(cs, cs, Some(Strip(OrEmpty(rag.outputText))), RagMode))
  }

  /** A successful retrieval is in "rag" mode exactly when the first tier failed. */
  lemma ModeRecordsTier(kbId: string, query: string, topK: int, minScore: real, backend: Backend)
    requires Retrieved(kbId, query, topK, minScore, backend).Ok?
    ensures Retrieved(kbId, query, topK, minScore, backend).value.mode == RagMode
            <==> TierAFailed(kbId, query, topK, minScore, backend)
    ensures Retrieved(kbId, query, topK, minScore, backend).value.mode.Name() == "rag"
            <==> TierAFailed(kbId, query, topK, minScore, backend)
  {
  }

  /** The calls `kb_retrieve` makes: the fallback is called once, and only after the first tier failed. */
  function RetrievalCalls(kbId: string, query: string, topK: int, minScore: real, backend: Backend): seq<Call> {
    [RetrieveCall(kbId, query, topK)] +
    (if TierAFailed(kbId, query, topK, minScore, backend) then [RetrieveAndGenerateCall(kbId, query)] else [])
  }

  /** `kb_retrieve`. */
  method KbRetrieve(kbId: string, query: string, topK: int, minScore: real, backend: Backend)
    returns (ret: Result<Retrieval, Failure>, calls: seq<Call>)
    ensures ret == Retrieved(kbId, query, topK, minScore, backend)
    ensures calls == RetrievalCalls(kbId, query, topK, minScore, backend)
  {
    calls := [RetrieveCall(kbId, query, topK)];
    var resp := backend.retrieve(kbId, query, topK);
    if resp.Ok? {
      var parsed := ParseTierA(resp.value, minScore);
      if parsed.Ok? {
        return Ok(Retrieval(parsed.value, parsed.value, None, RetrieveMode)), calls;
      }
    }
    calls := calls + [RetrieveAndGenerateCall(kbId, query)];
    var rag := backend.retrieveAndGenerate(kbId, query);
    if rag.Err? {
      return Err(rag.error), calls;
    }
    var outText := Strip(OrEmpty(rag.value.outputText));
    var cites := FlattenReferences(rag.value.citations);
    if cites.Err? {
      return Err(cites.error), calls;
    }
    ret := Ok(Retrieval(cites.value, cites.value, Some(outText), RagMode));
  }

  // ---------------------------------------------------------------------------
  // Synthesis prompt

  /** Each passage contributes at most this many characters to the prompt. */
  const SnippetLimit: nat := 400

  /** `ch.get("title") or "Source"`. */
  function RefTitle(title: Option<string>): (r: string)
    ensures r != ""
    ensures Truthy(title) ==> r == title.value
    ensures !Truthy(title) ==> r == "Source"
  {
    if Truthy(title) then title.value else "Source"
  }

  /** The passage text with newlines turned into spaces, cut to 400 characters. */
  function Snippet(ch: Chunk): (r: string)
    ensures |r| == if |OrEmpty(ch.text)| <= SnippetLimit then |OrEmpty(ch.text)| else SnippetLimit
    ensures forall i | 0 <= i < |r| :: r[i] != '\n'
    ensures forall i | 0 <= i < |r| && OrEmpty(ch.text)[i] != '\n' :: r[i] == OrEmpty(ch.text)[i]
    ensures forall i | 0 <= i < |r| && OrEmpty(ch.text)[i] == '\n' :: r[i] == ' '
  {
    Take(ReplaceNewlines(OrEmpty(ch.text)), SnippetLimit)
  }

  /** The heading of reference `i`: `"[i] title "` then `"- url"` when there is a URL. */
  function RefHeading(i: nat, ch: Chunk): string {
    "[" + NatToString(i) + "] " + RefTitle(ch.title) + " " + (if Truthy(ch.url) then "- " + ch.url.value else "")
  }

  /** Reference entry `i`: its heading, a newline, then its snippet. */
  function RefEntry(i: nat, ch: Chunk): (r: string)
    ensures StartsWith(r, "[" + NatToString(i) + "] " + RefTitle(ch.title) + " ")
    ensures |r| >= |Snippet(ch)| + 1 && r[|r| - |Snippet(ch)|..] == Snippet(ch) && r[|r| - |Snippet(ch)| - 1] == '\n'
    ensures var head := "[" + NatToString(i) + "] " + RefTitle(ch.title) + " ";
            Truthy(ch.url) ==>
              OccursAt(r, "- " + ch.url.value + "\n", |head|) && |r| == |head| + |ch.url.value| + 3 + |Snippet(ch)|
    ensures var head := "[" + NatToString(i) + "] " + RefTitle(ch.title) + " ";
            !Truthy(ch.url) ==> OccursAt(r, "\n", |head|) && |r| == |head| + 1 + |Snippet(ch)|
  {
    var head := "[" + NatToString(i) + "] " + RefTitle(ch.title) + " ";
    var urlPart := if Truthy(ch.url) then "- " + ch.url.value else "";
    var r := RefHeading(i, ch) + "\n" + Snippet(ch);
    assert r == head + urlPart + "\n" + Snippet(ch);
    assert r[..|head|] == head;
    assert r[|head|..|head| + |urlPart| + 1] == urlPart + "\n";
    r
  }

  /** The reference entries, numbered from 1 in chunk order. */
  function RefEntries(chunks: seq<Chunk>): seq<string> {
    seq(|chunks|, i requires 0 <= i < |chunks| => RefEntry(i + 1, chunks[i]))
  }

  /** The `ref_lines` loop of `synthesize_with_strands`. */
  method ReferenceLines(chunks: seq<Chunk>) returns (lines: seq<string>)
    ensures lines == RefEntries(chunks)
  {
    lines := [];
    for i := 0 to |chunks|
      invariant lines == RefEntries(chunks)[..i]
    {
      lines := lines + [RefEntry(i + 1, chunks[i])];
    }
  }

  /** The entries joined by blank lines, or "(no citations)". */
  function ReferenceBlock(lines: seq<string>): string {
    if lines == [] then "(no citations)" else Join(lines, "\n\n")
  }

  const QuestionHeader: string := "User question:\n"
  const ExcerptsHeader: string := "Knowledge base excerpts:\n"
  const AnswerIntro: string := "If there is a pre-baked KB answer, it follows between <kb_answer> tags.\n"
  const Instruction: string :=
    "Write the best possible answer using ONLY the KB information. Keep it concise, and add inline [n] citations.\n"

  /** The synthesis prompt. */
  function Prompt(userQuery: string, refs: string, baked: string): (p: string)
    ensures StartsWith(p, QuestionHeader + userQuery + "\n\n")
    ensures OccursAt(p, ExcerptsHeader + refs + "\n\n", |QuestionHeader + userQuery + "\n\n"|)
    ensures |p| >= |"<kb_answer>\n" + baked + "\n</kb_answer>\n\n" + Instruction|
    ensures p[|p| - |"<kb_answer>\n" + baked + "\n</kb_answer>\n\n" + Instruction|..]
            == "<kb_answer>\n" + baked + "\n</kb_answer>\n\n" + Instruction
    ensures OccursAt(p, AnswerIntro, |QuestionHeader + userQuery + "\n\n"| + |ExcerptsHeader + refs + "\n\n"|)
    ensures |p| == |QuestionHeader + userQuery + "\n\n"| + |ExcerptsHeader + refs + "\n\n"| + |AnswerIntro|
                   + |"<kb_answer>\n" + baked + "\n</kb_answer>\n\n" + Instruction|
  {
    var head := QuestionHeader + userQuery + "\n\n";
    var mid := ExcerptsHeader + refs + "\n\n";
    var tail := "<kb_answer>\n" + baked + "\n</kb_answer>\n\n" + Instruction;
    var p := head + mid + AnswerIntro + tail;
    assert p[..|head|] == head;
    assert p[|head|..|head| + |mid|] == mid;
    assert p[|head| + |mid|..|head| + |mid| + |AnswerIntro|] == AnswerIntro;
    assert p[|p| - |tail|..] == tail;
    p
  }

  /** The prompt built for a question, its chunks and the pre-baked answer (`pre_baked or ""`). */
  function SynthesisPrompt(userQuery: string, chunks: seq<Chunk>, preBaked: Option<string>): string {
    Prompt(userQuery, ReferenceBlock(RefEntries(chunks)), OrEmpty(preBaked))
  }

  /** `synthesize_with_strands`: one `use_llm` call with the prompt; a failure
      propagates, as there is no second generation path here. */
  method Synthesize(userQuery: string, chunks: seq<Chunk>, preBaked: Option<string>, backend: Backend)
    returns (answer: Result<string, Failure>, calls: seq<Call>)
    ensures calls == [UseLlmCall(SynthesisPrompt(userQuery, chunks, preBaked))]
    ensures match backend.useLlm(SynthesisPrompt(userQuery, chunks, preBaked))
            case Ok(out) => answer == Ok(Strip(out))
            case Err(e) => answer == Err(e)
  {
    var refLines := ReferenceLines(chunks);
    var refs := ReferenceBlock(refLines);
    var baked := OrEmpty(preBaked);
    var prompt := Prompt(userQuery, refs, baked);
    calls := [UseLlmCall(prompt)];
    var out := backend.useLlm(prompt);
    if out.Err? {
      return Err(out.error), calls;
    }
    answer := Ok(Strip(out.value));
  }

  // ---------------------------------------------------------------------------
  // Citations and the entry point

  /** A compact citation of the result. */
  datatype Citation = Citation(ref: nat, title: string, url: Option<string>, score: Option<real>)

  /** The citations of the chunks, numbered from 1 in chunk order. */
  function CitationsOf(chunks: seq<Chunk>): seq<Citation> {
    seq(|chunks|, i requires 0 <= i < |chunks| => Citation(i + 1, RefTitle(chunks[i].title), chunks[i].url, chunks[i].score))
  }

  /** The `citations` loop of `invoke`. */
  method NumberCitations(chunks: seq<Chunk>) returns (citations: seq<Citation>)
    ensures citations == CitationsOf(chunks)
    ensures forall i | 0 <= i < |chunks| ::
              citations[i].ref == i + 1 && citations[i].title != "" && citations[i].url == chunks[i].url
  {
    citations := [];
    for i := 0 to |chunks|
      invariant |citations| == i
      invariant forall k | 0 <= k < i ::
                  citations[k] == Citation(k + 1, RefTitle(chunks[k].title), chunks[k].url, chunks[k].score)
    {
      var ch := chunks[i];
      citations := citations + [Citation(i + 1, RefTitle(ch.title), ch.url, ch.score)];
    }
  }

  /** Citation `[n]` of the answer is reference entry `[n]` of the prompt
      (same number, same title), and no two citations print the same number. */
  lemma CitationMatchesReference(chunks: seq<Chunk>)
    ensures var cs := CitationsOf(chunks);
            forall i | 0 <= i < |chunks| ::
              StartsWith(RefEntries(chunks)[i], "[" + NatToString(cs[i].ref) + "] " + cs[i].title + " ")
    ensures var cs := CitationsOf(chunks);
            forall i, j | 0 <= i < j < |chunks| :: NatToString(cs[i].ref) != NatToString(cs[j].ref)
  {
    var cs := CitationsOf(chunks);
    forall i, j | 0 <= i < j < |chunks|
      ensures NatToString(cs[i].ref) != NatToString(cs[j].ref)
    {
      if NatToString(cs[i].ref) == NatToString(cs[j].ref) {
        NatToStringInjective(i + 1, j + 1);
      }
    }
  }

  /** The entry-point payload. */
  datatype Payload = Payload(
    prompt: Option<string>,
    input: Option<string>,
    topK: Option<int>,
    minScore: Option<real>,
    callbackUrl: Option<string>,
    jobId: Option<string>)

  /** The result object. */
  datatype AnswerResult = AnswerResult(
    jobId: string,
    prompt: string,
    answer: string,
    citations: seq<Citation>,
    mode: Mode,
    topK: int,
    minScore: real,
    ts: int)

  /** The answer given when nothing was retrieved. */
  const NothingFound: string := "I couldn't find anything relevant in the knowledge base for that."

  /** What `invoke` hands back; a backend or generation failure escapes as `Raised`. */
  datatype Response =
    | Rejected(error: string)
    | Delivered(delivery: Delivery<AnswerResult>)
    | Raised(failure: Failure)

  /** Everything outside the agent: the backend, the webhook secret and POST,
      the JSON serialiser, a fresh job id and the current time in seconds. */
  datatype Env = Env(
    backend: Backend,
    webhookSecret: Option<string>,
    post: (string, string, map<string, string>) -> Outcome,
    serialize: AnswerResult -> string,
    freshId: string,
    now: int)

  /** This module never imported the HMAC library, so a configured secret makes
      every callback attempt fail before any POST. */
  function WebhookOf(env: Env): WebhookEnv {
    WebhookEnv(env.webhookSecret, Unavailable, env.post)
  }

  /** With a webhook secret set, no callback is ever accepted: the result comes back inline. */
  lemma SecretMakesCallbacksFail(env: Env, callbackUrl: Option<string>, jobId: string, result: AnswerResult)
    requires Truthy(env.webhookSecret) && Truthy(callbackUrl)
    ensures var d := Deliver(callbackUrl, jobId, result, env.serialize, WebhookOf(env));
            d.posts == [] && d.delivery == Inline(result, Some(HmacNotDefined.message))
  {
  }

  /** Nothing retrieved and no generated text: synthesis is skipped. */
  predicate NothingRetrieved(ret: Retrieval) {
    ret.chunks == [] && !Truthy(ret.ragText)
  }

  /** The effective `top_k` and `min_score` of a payload. */
  function TopKOf(cfg: Config, p: Payload): int {
    p.topK.GetOr(cfg.topK)
  }

  function MinScoreOf(cfg: Config, p: Payload): real {
    p.minScore.GetOr(cfg.minScore)
  }

  /** The retrieval `invoke` performs for a payload with query `q`. */
  function InvokeRetrieval(cfg: Config, p: Payload, q: string, env: Env): Result<Retrieval, Failure> {
    Retrieved(cfg.kbId, q, TopKOf(cfg, p), MinScoreOf(cfg, p), env.backend)
  }

  function InvokeRetrievalCalls(cfg: Config, p: Payload, q: string, env: Env): seq<Call> {
    RetrievalCalls(cfg.kbId, q, TopKOf(cfg, p), MinScoreOf(cfg, p), env.backend)
  }

  /** The result `invoke` builds from a retrieval and an answer. */
  function ResultOf(cfg: Config, p: Payload, q: string, env: Env, ret: Retrieval, answer: string, citations: seq<Citation>): AnswerResult {
    AnswerResult(Entrypoint.JobIdOf(p.jobId, env.freshId), q, answer, citations, ret.mode, TopKOf(cfg, p), MinScoreOf(cfg, p), env.now)
  }

  function DeliverResult(p: Payload, env: Env, result: AnswerResult): Dispatched<AnswerResult> {
    Deliver(p.callbackUrl, result.jobId, result, env.serialize, WebhookOf(env))
  }

  /** The second half of `invoke`, once retrieval succeeded: the fixed answer
      without synthesis when nothing was found, otherwise synthesis and
      numbered citations; then delivery. */
  method Respond(cfg: Config, p: Payload, q: string, env: Env, ret: Retrieval) returns (resp: Response, calls: seq<Call>)
    ensures NothingRetrieved(ret) ==>
              var d := DeliverResult(p, env, ResultOf(cfg, p, q, env, ret, NothingFound, []));
              resp == Delivered(d.delivery) && calls == d.posts
    ensures !NothingRetrieved(ret) ==>
              var prompt := SynthesisPrompt(q, ret.chunks, ret.ragText);
              match env.backend.useLlm(prompt)
              case Err(e) => resp == Raised(e) && calls == [UseLlmCall(prompt)]
              case Ok(out) =>
                var d := DeliverResult(p, env, ResultOf(cfg, p, q, env, ret, Strip(out), CitationsOf(ret.chunks)));
                resp == Delivered(d.delivery) && calls == [UseLlmCall(prompt)] + d.posts
  {
    var chunks := ret.chunks;
    var pre := ret.ragText;
    if chunks == [] && !Truthy(pre) {
      var result := ResultOf(cfg, p, q, env, ret, NothingFound, []);
      var d := DeliverResult(p, env, result);
      return Delivered(d.delivery), d.posts;
    }

    var answer;
    answer, calls := Synthesize(q, chunks, pre, env.backend);
    if answer.Err? {
      return Raised(answer.error), calls;
    }

    var citations := NumberCitations(chunks);
    assert citations == CitationsOf(chunks);
    var result := ResultOf(cfg, p, q, env, ret, answer.value, citations);
    var d := DeliverResult(p, env, result);
    resp := Delivered(d.delivery);
    calls := calls + d.posts;
  }

  /** `invoke`: validate the prompt, retrieve with the payload's knobs, then respond. */
  method Invoke(cfg: Config, p: Payload, env: Env) returns (resp: Response, calls: seq<Call>)
    ensures var q := Entrypoint.QueryText(p.prompt, p.input);
            q == "" ==> resp == Rejected(Entrypoint.MissingPrompt) && calls == []
    ensures var q := Entrypoint.QueryText(p.prompt, p.input);
            q != "" && InvokeRetrieval(cfg, p, q, env).Err? ==>
              resp == Raised(InvokeRetrieval(cfg, p, q, env).error) && calls == InvokeRetrievalCalls(cfg, p, q, env)
    ensures var q := Entrypoint.QueryText(p.prompt, p.input);
            q != "" && InvokeRetrieval(cfg, p, q, env).Ok? && NothingRetrieved(InvokeRetrieval(cfg, p, q, env).value) ==>
              var d := DeliverResult(p, env, ResultOf(cfg, p, q, env, InvokeRetrieval(cfg, p, q, env).value, NothingFound, []));
              resp == Delivered(d.delivery) && calls == InvokeRetrievalCalls(cfg, p, q, env) + d.posts
    ensures var q := Entrypoint.QueryText(p.prompt, p.input);
            q != "" && InvokeRetrieval(cfg, p, q, env).Ok? && !NothingRetrieved(InvokeRetrieval(cfg, p, q, env).value) ==>
              var ret := InvokeRetrieval(cfg, p, q, env).value;
              var prompt := SynthesisPrompt(q, ret.chunks, ret.ragText);
              match env.backend.useLlm(prompt)
              case Err(e) => resp == Raised(e) && calls == InvokeRetrievalCalls(cfg, p, q, env) + [UseLlmCall(prompt)]
              case Ok(out) =>
                var d := DeliverResult(p, env, ResultOf(cfg, p, q, env, ret, Strip(out), CitationsOf(ret.chunks)));
                resp == Delivered(d.delivery) && calls == InvokeRetrievalCalls(cfg, p, q, env) + ([UseLlmCall(prompt)] + d.posts)
  {
    var query := Entrypoint.QueryText(p.prompt, p.input);
    if query == "" {
      return Rejected(Entrypoint.MissingPrompt), [];
    }
    var ret, retCalls := KbRetrieve(cfg.kbId, query, TopKOf(cfg, p), MinScoreOf(cfg, p), env.backend);
    assert ret == InvokeRetrieval(cfg, p, query, env) && retCalls == InvokeRetrievalCalls(cfg, p, query, env);
    if ret.Err? {
      return Raised(ret.error), retCalls;
    }
    var respCalls;
    resp, respCalls := Respond(cfg, p, query, env, ret.value);
    calls := retCalls + respCalls;
  }
}
