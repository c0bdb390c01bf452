/** A raw result record as the knowledge-base backend returns it, and the
    title/URL fallback chains both retrieval paths apply to its metadata. */
module Records {
  import opened Wrappers
  import opened Strings

  /** A metadata mapping; a key that is missing reads as `None`. */
  type Metadata = map<string, string>

  /** One retrieval result: the `content` mapping (`None` when absent or null),
      the `metadata` entry, the relevance score and the opaque `location`. */
  datatype RawRecord = RawRecord(
    content: Option<map<string, string>>,
    metadata: Field<Metadata>,
    score: Option<real>,
    location: Option<string>)

  /** `m.get(k)`. */
  function Lookup(m: map<string, string>, k: string): Option<string> {
    if k in m then Some(m[k]) else None
  }

  /** `v0 or v1 or ... or vn`: the first truthy value, or the last one when
      none is truthy. */
  function FirstTruthy(vals: seq<Option<string>>): (r: Option<string>)
    requires vals != []
    ensures forall i | 0 <= i < |vals| ::
              Truthy(vals[i]) && (forall j | 0 <= j < i :: !Truthy(vals[j])) ==> r == vals[i]
    ensures (forall i | 0 <= i < |vals| :: !Truthy(vals[i])) ==> r == vals[|vals| - 1]
    ensures Truthy(r) <==> exists i | 0 <= i < |vals| :: Truthy(vals[i])
    decreases |vals|
  {
    if |vals| == 1 then vals[0] else Or(vals[0], FirstTruthy(vals[1..]))
  }

  /** `meta.get("title") or meta.get("file") or meta.get("source")`. */
  function TitleOf(md: Metadata): (r: Option<string>)
    ensures Truthy(Lookup(md, "title")) ==> r == Lookup(md, "title")
    ensures !Truthy(Lookup(md, "title")) && Truthy(Lookup(md, "file")) ==> r == Lookup(md, "file")
    ensures !Truthy(Lookup(md, "title")) && !Truthy(Lookup(md, "file")) ==> r == Lookup(md, "source")
  {
    var vals := [Lookup(md, "title"), Lookup(md, "file"), Lookup(md, "source")];
    assert !Truthy(vals[0]) ==> forall j | 0 <= j < 1 :: !Truthy(vals[j]);
    assert vals[1] == Lookup(md, "file");
    FirstTruthy(vals)
  }

  /** `meta.get("url") or meta.get("source")`. */
  function UrlOf(md: Metadata): (r: Option<string>)
    ensures Truthy(Lookup(md, "url")) ==> r == Lookup(md, "url")
    ensures !Truthy(Lookup(md, "url")) ==> r == Lookup(md, "source")
  {
    FirstTruthy([Lookup(md, "url"), Lookup(md, "source")])
  }

  /** `record.get("metadata") or {}`: a missing or null entry reads as the empty
      mapping. For `record.get("metadata", {})`, where using a null entry raises,
      it is applied only after `TierAFaults` or `GroupFault` has ruled a null out. */
  function MetaOrEmpty(f: Field<Metadata>): Metadata {
    if f.Present? then f.value else map[]
  }

  /** `(record.get("content") or {}).get("text")`. */
  function ContentText(content: Option<map<string, string>>): (r: Option<string>)
    ensures content.None? ==> r.None?
  {
    if content.Some? then Lookup(content.value, "text") else None
  }
}
