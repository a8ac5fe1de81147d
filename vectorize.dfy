/**
 * Ingestion of scraped postings into the vector store
 * (linkedAI/scraper/vectorize.py): each record is split into its metadata, an
 * id taken from the end of its link, and its description; the documents that
 * get embedded are the title and the description joined by a blank line. The
 * JSON file, the embedding service and the Chroma collection are inputs and
 * outputs of the model rather than I/O.
 */
module Vectorize {
  import opened Wrappers
  import opened Strings
  import opened SearchConfig

  /** One metadata record of the collection: a dictionary of strings. */
  type Metadata = map<string, string>

  /** The metadata dictionary `parse_job_json` builds for a posting. */
  function MetadataOf(job: JobCard): Metadata {
    map["title" := job.title, "link" := job.link, "location" := job.location, "company" := job.company]
  }

  /** The metadata has exactly the keys title, link, location and company, each holding the posting's value verbatim. */
  lemma MetadataOfSpec(job: JobCard)
    ensures MetadataOf(job).Keys == {"title", "link", "location", "company"}
    ensures MetadataOf(job)["title"] == job.title && MetadataOf(job)["link"] == job.link
    ensures MetadataOf(job)["location"] == job.location && MetadataOf(job)["company"] == job.company
  {
  }

  /**
   * `link.split("-")[-1]`: the text after the last `-` of the link, or the
   * whole link when it has none.
   */
  function JobId(link: string): string {
    var parts := Split(link, '-');
    parts[|parts| - 1]
  }

  /**
   * The id holds no `-` and ends the link; when the link has a `-`, one sits
   * right before the id, and otherwise the id is the whole link.
   */
  lemma JobIdSpec(link: string)
    ensures '-' !in JobId(link)
    ensures var id := JobId(link);
      && |id| <= |link| && link[|link| - |id|..] == id
      && ('-' in link ==> |id| < |link| && link[|link| - |id| - 1] == '-')
      && ('-' !in link ==> id == link)
  {
    var parts := Split(link, '-');
    JoinSplit(link, '-');
    LastPiece(parts, '-');
    SplitSingle(link, '-');
  }

  /** The last piece of a join is its suffix, and a separator sits right before it when there are other pieces. */
  lemma {:induction false} LastPiece(parts: seq<string>, sep: char)
    requires |parts| > 0
    ensures var s := Join(parts, sep); var last := parts[|parts| - 1];
      && |last| <= |s| && s[|s| - |last|..] == last
      && (|parts| > 1 ==> |last| < |s| && s[|s| - |last| - 1] == sep)
  {
    if |parts| > 1 {
      LastPiece(parts[1..], sep);
      var rest := Join(parts[1..], sep);
      assert Join(parts, sep) == parts[0] + [sep] + rest;
      var last := parts[|parts| - 1];
      assert last == parts[1..][|parts[1..]| - 1];
      var s := Join(parts, sep);
      assert s[|s| - |last|..] == rest[|rest| - |last|..];
      if |parts| > 2 {
        assert s[|s| - |last| - 1] == rest[|rest| - |last| - 1];
      } else {
        assert rest == parts[1];
      }
    }
  }

  /** The three lists `parse_job_json` returns, index-aligned with the input records. */
  predicate ParsedFrom(jobs: seq<JobCard>, metadatas: seq<Metadata>, ids: seq<string>, descriptions: seq<string>) {
    && |metadatas| == |jobs| && |ids| == |jobs| && |descriptions| == |jobs|
    && forall i :: 0 <= i < |jobs| ==>
         && metadatas[i] == MetadataOf(jobs[i])
         && ids[i] == JobId(jobs[i].link)
         && descriptions[i] == jobs[i].description
  }

  /** `parse_job_json` on the decoded records: one metadata record, id and description per posting, in input order. */
  method ParseJobJson(jobs: seq<JobCard>) returns (metadatas: seq<Metadata>, ids: seq<string>, descriptions: seq<string>)
    ensures ParsedFrom(jobs, metadatas, ids, descriptions)
  {
    metadatas, ids, descriptions := [], [], [];
    for i := 0 to |jobs|
      invariant |metadatas| == i && |ids| == i && |descriptions| == i
      invariant forall k :: 0 <= k < i ==> metadatas[k] == MetadataOf(jobs[k])
      invariant forall k :: 0 <= k < i ==> ids[k] == JobId(jobs[k].link)
      invariant forall k :: 0 <= k < i ==> descriptions[k] == jobs[k].description
    {
      var job := jobs[i];
      metadatas := metadatas + [MetadataOf(job)];
      ids := ids + [JobId(job.link)];
      descriptions := descriptions + [job.description];
    }
  }

  function Min(a: nat, b: nat): nat {
    if a < b then a else b
  }

  /** The document embedded for one posting: its title, a blank line, its description. */
  function Document(title: string, description: string): string {
    title + "\n\n" + description
  }

  /**
   * The `full_descriptions` comprehension over `zip(metadatas, descriptions)`:
   * one document per pair, as many as the shorter list; `None` when a zipped
   * metadata record has no "title" (the `KeyError`).
   */
  function FullDescriptions(metadatas: seq<Metadata>, descriptions: seq<string>): (r: Option<seq<string>>)
    ensures r.Some? <==> forall i :: 0 <= i < Min(|metadatas|, |descriptions|) ==> "title" in metadatas[i]
    ensures r.Some? ==> (&& |r.value| == Min(|metadatas|, |descriptions|)
                         && forall i :: 0 <= i < |r.value| ==> r.value[i] == Document(metadatas[i]["title"], descriptions[i]))
  {
    if |metadatas| == 0 || |descriptions| == 0 then Some([])
    else if "title" !in metadatas[0] then None
    else
      match FullDescriptions(metadatas[1..], descriptions[1..])
      case None => None
      case Some(rest) => Some([Document(metadatas[0]["title"], descriptions[0])] + rest)
  }

  /** One element of the embedding response; the vector itself is opaque. */
  datatype EmbeddingData<E> = EmbeddingData(embedding: E)

  /** The `embeddings` comprehension: the vector of each response element, in response order. */
  function Embeddings<E>(data: seq<EmbeddingData<E>>): (r: seq<E>)
    ensures |r| == |data| && forall i :: 0 <= i < |data| ==> r[i] == data[i].embedding
  {
    if |data| == 0 then [] else [data[0].embedding] + Embeddings(data[1..])
  }

  /** The arguments of `collection.add`. */
  datatype CollectionAdd<E> = CollectionAdd(documents: seq<string>, embeddings: seq<E>, metadatas: seq<Metadata>, ids: seq<string>)

  /** The `KeyError` of a metadata record without a title. */
  datatype KeyError = MissingKey(key: string)

  /**
   * `vectorize`: the documents, their embeddings from `embed` (the embedding
   * service applied to the documents, in order) and the metadata and ids
   * unchanged, as handed to `collection.add`.
   */
  function VectorizeJobs<E>(metadatas: seq<Metadata>, ids: seq<string>, descriptions: seq<string>,
                            embed: seq<string> -> seq<EmbeddingData<E>>): (r: Result<CollectionAdd<E>, KeyError>)
    ensures r.Failure? <==> FullDescriptions(metadatas, descriptions).None?
    ensures r.Success? ==> (&& r.value.documents == FullDescriptions(metadatas, descriptions).value
                            && |r.value.embeddings| == |embed(r.value.documents)|
                            && (forall i :: 0 <= i < |r.value.embeddings| ==> r.value.embeddings[i] == embed(r.value.documents)[i].embedding)
                            && r.value.metadatas == metadatas && r.value.ids == ids)
  {
    match FullDescriptions(metadatas, descriptions)
    case None => Failure(MissingKey("title"))
    case Some(documents) => Success(CollectionAdd(documents, Embeddings(embed(documents)), metadatas, ids))
  }

  /**
   * Parsing then vectorizing never fails, and the collection receives one
   * document, metadata record and id per posting, index-aligned: document `i`
   * is posting `i`'s title and description and id `i` the end of its link.
   */
  lemma IngestAligned<E>(jobs: seq<JobCard>, metadatas: seq<Metadata>, ids: seq<string>, descriptions: seq<string>,
                         embed: seq<string> -> seq<EmbeddingData<E>>)
    requires ParsedFrom(jobs, metadatas, ids, descriptions)
    ensures var r := VectorizeJobs(metadatas, ids, descriptions, embed);
      && r.Success?
      && |r.value.documents| == |r.value.metadatas| == |r.value.ids| == |jobs|
      && forall i :: 0 <= i < |jobs| ==>
           && r.value.documents[i] == Document(jobs[i].title, jobs[i].description)
           && r.value.metadatas[i] == MetadataOf(jobs[i])
           && r.value.ids[i] == JobId(jobs[i].link)
  {
    assert forall i :: 0 <= i < |jobs| ==> "title" in metadatas[i];
  }
}
