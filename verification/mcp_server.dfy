/** The knowledge-base search tool server: language normalisation, routing
    between the two knowledge bases, result cleaning and the score and
    language filters of the `kb.search` tool. */
module McpServer {
  import opened Wrappers
  import opened Strings
  import opened Seqs
  import opened Records
  import opened Collaborators

  const En: string := "en"
  const ZhHant: string := "zh-Hant"
  /** The supported languages. */
  const LangEnum: seq<string> := ["en", "fr", "de", "zh-Hant"]

  const GeneralDocs: string := "general-docs"
  const CsSupport: string := "cs-support"
  /** The knowledge-base keys, in the order the tool advertises them. */
  const KbKeys: seq<string> := [GeneralDocs, CsSupport]

  /** Lower-case phrases whose presence marks a support request. */
  const SupportSignals: seq<string> := [
    "issue", "error", "didn't", "doesn't", "failed", "cannot", "can't",
    "how do i fix", "troubleshoot", "support", "screen", "label", "rma",
    "ticket", "won't", "not working", "handle that", "broken"]

  const SearchTool: string := "kb.search"
  const Unauthorized: string := "unauthorized"
  const UnknownTool: string := "unknown tool"
  const QueryRequired: string := "query is required"

  /** The immutable server configuration read from the environment. */
  datatype ServerConfig = ServerConfig(
    generalDocsId: string,
    csSupportId: string,
    topKDefault: int,
    minScoreDefault: real,
    apiKey: Option<string>)

  /** `KB_IDS[kb_key]`: the backend identifier of a knowledge-base key. */
  function KbIdFor(cfg: ServerConfig, kbKey: string): (id: string)
    requires kbKey in KbKeys
    ensures kbKey == GeneralDocs ==> id == cfg.generalDocsId
    ensures kbKey == CsSupport ==> id == cfg.csSupportId
  {
    if kbKey == GeneralDocs then cfg.generalDocsId else cfg.csSupportId
  }

  // ---------------------------------------------------------------------------
  // Language

  /** `_normalize_lang`: map any raw language code into the supported set. */
  function NormalizeLang(code: Option<string>): (r: string)
    ensures r in LangEnum
    ensures !Truthy(code) ==> r == En
    ensures r == ZhHant <==> Truthy(code) && StartsWith(Lower(code.value), "zh")
    ensures r != En && r != ZhHant ==> r == Lower(code.value)
    ensures Truthy(code) && Lower(code.value) in {"en", "fr", "de"} ==> r == Lower(code.value)
    ensures Truthy(code) && !StartsWith(Lower(code.value), "zh") && Lower(code.value) !in {"en", "fr", "de"} ==> r == En
  {
    if !Truthy(code) then En
    else
      var c := Lower(code.value);
      assert StartsWith(c, "zh") ==> c[0] == 'z' && c !in {"en", "fr", "de"};
      if StartsWith(c, "zh") then ZhHant
      else if c in {"en", "fr", "de"} then c
      else En
  }

  /** Codes that differ only in the case of their letters normalise alike. */
  lemma NormalizeLangCaseInsensitive(a: string, b: string)
    requires Lower(a) == Lower(b)
    ensures NormalizeLang(Some(a)) == NormalizeLang(Some(b))
  {
    assert |a| == |Lower(a)| == |Lower(b)| == |b|;
  }

  /** Normalising a normalised code changes nothing. */
  lemma NormalizeLangIdempotent(code: Option<string>)
    ensures NormalizeLang(Some(NormalizeLang(code))) == NormalizeLang(code)
  {
    var r := NormalizeLang(code);
    if r == ZhHant {
      assert StartsWith(Lower(r), "zh");
    } else {
      assert r == "en" || r == "fr" || r == "de";
      assert Lower(r) == r;
      assert r[0] != 'z';
    }
  }

  /** `_detect_lang`: the detector's raw code, normalised; `None` stands for a
      detector exception (which the empty text always raises). */
  function DetectLang(text: string, detect: string -> Option<string>): (r: string)
    ensures r in LangEnum
    ensures detect(text).None? ==> r == En
    ensures r == NormalizeLang(detect(text))
  {
    NormalizeLang(detect(text))
  }

  // ---------------------------------------------------------------------------
  // Routing

  /** `any(s in t for s in signals)`. */
  function AnySignal(t: string, signals: seq<string>): (r: bool)
    ensures r <==> exists i | 0 <= i < |signals| :: Contains(t, signals[i])
    decreases |signals|
  {
    if signals == [] then false
    else Contains(t, signals[0]) || AnySignal(t, signals[1..])
  }

  /** `_auto_route_kb`: non-English goes to the general documents whatever the
      text says; English (or no language) goes to support exactly when the
      lower-cased text contains a support signal. */
  function AutoRouteKb(lang: Option<string>, text: string): (r: string)
    ensures r in KbKeys
    ensures Truthy(lang) && lang.value != En ==> r == GeneralDocs
    ensures !(Truthy(lang) && lang.value != En) ==>
              (r == CsSupport <==> exists i | 0 <= i < |SupportSignals| :: Contains(Lower(text), SupportSignals[i]))
  {
    if Truthy(lang) && lang.value != En then GeneralDocs
    else if AnySignal(Lower(text), SupportSignals) then CsSupport
    else GeneralDocs
  }

  /** A troubleshooting question in English is sent to support. */
  lemma RouteBrokenScreenToSupport()
    ensures AutoRouteKb(Some(En), "How do I fix a broken screen?") == CsSupport
  {
    var t := Lower("How do I fix a broken screen?");
    assert t == "how do i fix a broken screen?";
    assert SupportSignals[7] == "how do i fix";
    assert StartsWith(t, "how do i fix");
  }

  // ---------------------------------------------------------------------------
  // Result records

  /** A cleaned search hit. */
  datatype Item = Item(
    score: Option<real>,
    text: Option<string>,
    source: Option<string>,
    metadata: Metadata,
    title: Option<string>,
    url: Option<string>)

  /** `_clean_item`: flatten a raw record, deriving title and URL from its metadata. */
  function CleanItem(it: RawRecord): (r: Item)
    ensures r.score == it.score && r.source == it.location
    ensures r.text == ContentText(it.content)
    ensures !it.metadata.Present? ==> r.metadata == map[]
    ensures it.metadata.Present? ==> r.metadata == it.metadata.value
    ensures r.title == TitleOf(r.metadata) && r.url == UrlOf(r.metadata)
  {
    var meta := MetaOrEmpty(it.metadata);
    Item(it.score, ContentText(it.content), it.location, meta, TitleOf(meta), UrlOf(meta))
  }

  /** A missing or null content or metadata entry behaves as an empty mapping. */
  lemma CleanItemMissingAsEmpty(it: RawRecord)
    ensures CleanItem(it.(content := None)) == CleanItem(it.(content := Some(map[])))
    ensures CleanItem(it.(metadata := Absent)) == CleanItem(it.(metadata := Present(map[])))
    ensures CleanItem(it.(metadata := Null)) == CleanItem(it.(metadata := Present(map[])))
  {
  }

  // ---------------------------------------------------------------------------
  // Language post-filter

  /** `(md.get("lang") or md.get("language") or "").strip()`. */
  function ItemLangTag(it: Item): string {
    Strip(OrEmpty(Or(Lookup(it.metadata, "lang"), Lookup(it.metadata, "language"))))
  }

  /** Untagged items are kept; tagged ones only when the tag is the language. */
  predicate LangKept(it: Item, lang: string) {
    ItemLangTag(it) == "" || ItemLangTag(it) == lang
  }

  function LangKeeper(lang: string): Item -> bool {
    (it: Item) => LangKept(it, lang)
  }

  /** The filter is a no-op without a language and for the support base. */
  predicate LangFilterActive(kbKey: string, lang: Option<string>) {
    Truthy(lang) && kbKey != CsSupport
  }

  /** What `_post_filter_lang` returns. */
  function LangFiltered(items: seq<Item>, kbKey: string, lang: Option<string>): seq<Item> {
    if LangFilterActive(kbKey, lang) then Filter(LangKeeper(lang.value), items) else items
  }

  /** The language filter keeps everything when inactive; otherwise it keeps,
      in order, exactly the untagged items and those tagged with the language. */
  lemma LangFilteredKeeps(items: seq<Item>, kbKey: string, lang: Option<string>)
    ensures !LangFilterActive(kbKey, lang) ==> LangFiltered(items, kbKey, lang) == items
    ensures IsSubsequence(LangFiltered(items, kbKey, lang), items)
    ensures forall x :: x in LangFiltered(items, kbKey, lang) <==>
                        x in items && (LangFilterActive(kbKey, lang) ==> LangKept(x, lang.value))
  {
    if !LangFilterActive(kbKey, lang) {
      var all := (x: Item) => true;
      FilterIsSubsequence(all, items);
      FilterKeepsAll(all, items);
    } else {
      FilterIsSubsequence(LangKeeper(lang.value), items);
      forall x ensures x in LangFiltered(items, kbKey, lang) <==> x in items && LangKept(x, lang.value) {
        FilterMembership(LangKeeper(lang.value), items, x);
      }
    }
  }

  /** `_post_filter_lang`: the loop computes the language filter. */
  method PostFilterLang(items: seq<Item>, kbKey: string, lang: Option<string>) returns (out: seq<Item>)
    ensures out == LangFiltered(items, kbKey, lang)
  {
    if !Truthy(lang) || kbKey == CsSupport {
      return items;
    }
    out := [];
    for i := 0 to |items|
      invariant out == Filter(LangKeeper(lang.value), items[..i])
    {
      assert items[..i + 1][..i] == items[..i];
      var itemLang := ItemLangTag(items[i]);
      if itemLang == "" {
        out := out + [items[i]];
      } else if itemLang == lang.value {
        out := out + [items[i]];
      }
    }
    assert items[..|items|] == items;
  }

  // ---------------------------------------------------------------------------
  // Score filter

  /** `(it.get("score") or 0) >= min_score`. */
  function ScoreAtLeast(minScore: real): Item -> bool {
    (it: Item) => it.score.GetOr(0.0) >= minScore
  }

  /** The score filter of `call_tool`, applied only for a positive floor. */
  function ApplyScoreFloor(items: seq<Item>, minScore: real): (r: seq<Item>)
    ensures minScore <= 0.0 ==> r == items
    ensures IsSubsequence(r, items)
  {
    if minScore > 0.0 then
      FilterIsSubsequence(ScoreAtLeast(minScore), items);
      Filter(ScoreAtLeast(minScore), items)
    else
      assert IsSubsequence(Filter(x => true, items), items) by { FilterIsSubsequence(x => true, items); }
      FilterKeepsAll(x => true, items);
      items
  }

  /** With a positive floor an item survives exactly when it has a score at
      least the floor: an item without a score counts as 0 and is dropped. */
  lemma ScoreFloorKeeps(items: seq<Item>, minScore: real, x: Item)
    requires minScore > 0.0
    ensures x in ApplyScoreFloor(items, minScore) <==> x in items && x.score.Some? && x.score.value >= minScore
  {
    FilterMembership(ScoreAtLeast(minScore), items, x);
  }

  /** Raising the floor never lets more items through. */
  lemma ScoreFloorMonotone(items: seq<Item>, low: real, high: real)
    requires low <= high
    ensures |ApplyScoreFloor(items, high)| <= |ApplyScoreFloor(items, low)|
  {
    if low > 0.0 {
      FilterNarrows(ScoreAtLeast(high), ScoreAtLeast(low), items);
    }
  }

  // ---------------------------------------------------------------------------
  // The kb.search tool

  /** The tool arguments. `query` distinguishes an absent key from an explicit null. */
  datatype ToolArgs = ToolArgs(
    query: Field<string>,
    lang: Option<string>,
    kbId: Option<string>,
    topK: Option<int>,
    minScore: Option<real>)

  datatype ToolCall = ToolCall(name: string, arguments: ToolArgs)

  /** The routing decision reported with the results; `kbKey` is the key, not the backend id. */
  datatype Routing = Routing(kbKey: string, lang: string, topK: int, minScore: real)

  datatype ToolResponse =
    | ToolError(error: string)
    | ToolContent(content: seq<Item>, routing: Routing)
    | ToolRaised(failure: Failure)

  /** `str(args.get("query", ""))`. */
  function QueryArg(f: Field<string>): string {
    match f
    case Absent => ""
    case Null => "None"
    case Present(s) => s
  }

  function UnknownKbId(kbId: string): string {
    "Unknown kb_id '" + kbId + "'"
  }

  /** The shared-secret guard passes when no key is configured or the header matches it. */
  predicate Authorized(cfg: ServerConfig, header: Option<string>) {
    !(Truthy(cfg.apiKey) && header != cfg.apiKey)
  }

  /** The effective language: the given one normalised, or the detected one. */
  function ToolLang(args: ToolArgs, q: string, detect: string -> Option<string>): (r: string)
    ensures r in LangEnum
    ensures Truthy(args.lang) ==> r == NormalizeLang(args.lang)
    ensures !Truthy(args.lang) ==> r == DetectLang(q, detect)
  {
    if Truthy(args.lang) then NormalizeLang(args.lang) else DetectLang(q, detect)
  }

  /** `call_tool`: guard, validate, route, retrieve, then filter by score and
      by language. A failing `retrieve` propagates. */
  method CallTool(cfg: ServerConfig, call: ToolCall, header: Option<string>,
                  detect: string -> Option<string>,
                  retrieve: (string, string, int) -> Result<seq<RawRecord>, Failure>)
    returns (resp: ToolResponse, calls: seq<Call>)
    ensures !Authorized(cfg, header) ==> resp == ToolError(Unauthorized)
    ensures Authorized(cfg, header) && call.name != SearchTool ==> resp == ToolError(UnknownTool)
    ensures Authorized(cfg, header) && call.name == SearchTool && Strip(QueryArg(call.arguments.query)) == "" ==>
              resp == ToolError(QueryRequired)
    ensures Authorized(cfg, header) && call.name == SearchTool && Strip(QueryArg(call.arguments.query)) != "" &&
            Truthy(call.arguments.kbId) && call.arguments.kbId.value !in KbKeys ==>
              resp == ToolError(UnknownKbId(call.arguments.kbId.value))
    ensures resp.ToolError? <==> calls == []
    ensures resp.ToolError? <==>
              !Authorized(cfg, header) || call.name != SearchTool || Strip(QueryArg(call.arguments.query)) == "" ||
              (Truthy(call.arguments.kbId) && call.arguments.kbId.value !in KbKeys)
    ensures !resp.ToolError? ==>
              var args := call.arguments;
              var q := Strip(QueryArg(args.query));
              var lang := ToolLang(args, q, detect);
              var kbKey := if Truthy(args.kbId) then args.kbId.value else AutoRouteKb(Some(lang), q);
              var topK := args.topK.GetOr(cfg.topKDefault);
              var minScore := args.minScore.GetOr(cfg.minScoreDefault);
              Authorized(cfg, header) && call.name == SearchTool && q != "" && kbKey in KbKeys &&
              calls == [RetrieveCall(KbIdFor(cfg, kbKey), q, topK)] &&
              match retrieve(KbIdFor(cfg, kbKey), q, topK)
              case Err(e) => resp == ToolRaised(e)
              case Ok(records) =>
                resp == ToolContent(LangFiltered(ApplyScoreFloor(Map(CleanItem, records), minScore), kbKey, Some(lang)),
                                    Routing(kbKey, lang, topK, minScore))
  {
    calls := [];
    if Truthy(cfg.apiKey) && header != cfg.apiKey {
      return ToolError(Unauthorized), calls;
    }
    if call.name != SearchTool {
      return ToolError(UnknownTool), calls;
    }
    var args := call.arguments;
    var q := Strip(QueryArg(args.query));
    if q == "" {
      return ToolError(QueryRequired), calls;
    }
    var lang := ToolLang(args, q, detect);
    var kbKey: string;
    if !Truthy(args.kbId) {
      kbKey := AutoRouteKb(Some(lang), q);
    } else {
      if args.kbId.value !in KbKeys {
        return ToolError(UnknownKbId(args.kbId.value)), calls;
      }
      kbKey := args.kbId.value;
    }
    var topK := args.topK.GetOr(cfg.topKDefault);
    var minScore := args.minScore.GetOr(cfg.minScoreDefault);
    var kbId := KbIdFor(cfg, kbKey);
    calls := [RetrieveCall(kbId, q, topK)];
    var reply := retrieve(kbId, q, topK);
    if reply.Err? {
      return ToolRaised(reply.error), calls;
    }
    var items := ApplyScoreFloor(Map(CleanItem, reply.value), minScore);
    items := PostFilterLang(items, kbKey, Some(lang));
    resp := ToolContent(items, Routing(kbKey, lang, topK, minScore));
  }
}
