/** The knowledge-base coordinator `RAGSystem`: the in-memory vector index, its
    snapshot in the `faiss_index` directory, the retriever and the QA chain. The PDF
    loader, the text splitter, the embedder, the similarity search and the language
    model are foreign; their outcomes are parameters. The index is abstracted to
    the sequence of its chunks in insertion order. */
module Rag {
  import opened Json

  /** A langchain Document: a page from the loader or a chunk from the splitter. */
  datatype Document = Document(pageContent: string, metadata: map<string, string>)

  /** What is on disk in the `faiss_index` directory. */
  datatype Snapshot =
    | NoSnapshot                        // the directory does not exist
    | Saved(entries: seq<Document>)     // a snapshot that loads back to these chunks
    | Unreadable                        // present, but `FAISS.load_local` raises

  /** The number of chunks the retriever fetches per question. */
  const RetrievalK: nat := 3

  datatype IngestReport = IngestReport(pagesProcessed: nat, chunksCreated: nat)

  /** Which step of `ingest_pdf` raised; the exception is re-raised to the caller. */
  datatype IngestError = LoadFailed | SplitFailed | EmbedFailed | SaveFailed

  datatype IngestResult = Ingested(report: IngestReport) | IngestRaised(error: IngestError)

  datatype QueryResult = QueryResult(answer: string, sourceDocuments: seq<map<string, string>>)

  const NoKnowledgeBase: QueryResult := QueryResult("No knowledge base available", [])
  const QueryFailed: QueryResult := QueryResult("Error processing your query", [])

  /** The QA chain's collaborators: the retriever's similarity search over the index
      for a question and k, and the model's answer from the question and the
      retrieved chunks. None means the call raised. */
  datatype Services = Services(
    search: (seq<Document>, string, nat) -> Option<seq<Document>>,
    complete: (string, seq<Document>) -> Option<string>)

  /** The metadata of each chunk, in order. */
  function Metadata(docs: seq<Document>): (ms: seq<map<string, string>>)
    ensures |ms| == |docs|
    ensures forall i :: 0 <= i < |docs| ==> ms[i] == docs[i].metadata
  {
    if docs == [] then [] else [docs[0].metadata] + Metadata(docs[1..])
  }

  /** What the RetrievalQA chain answers given the current index: the model's answer and
      the metadata of the chunks it was given, or the error sentinel when any step
      raised. */
  function ChainAnswer(index: seq<Document>, question: string, services: Services): (r: QueryResult)
  {
    match services.search(index, question, RetrievalK)
    case None => QueryFailed
    case Some(hits) =>
      match services.complete(question, hits)
      case None => QueryFailed
      case Some(answer) => QueryResult(answer, Metadata(hits))
  }

  class RagSystem {
    var vectorStore: Option<seq<Document>>
    /** The k of the retriever's search, when a retriever has been set up. */
    var retrieverK: Option<nat>
    /** Whether `qa_chain` is set. */
    var qaChain: bool
    /** The on-disk `faiss_index` directory. */
    var snapshot: Snapshot

    /** A QA chain and a retriever exist only over an index, and the retriever always
        fetches RetrievalK chunks. */
    ghost predicate Valid()
      reads this
    {
      && (qaChain ==> vectorStore.Some? && retrieverK.Some?)
      && (retrieverK.Some? ==> retrieverK.value == RetrievalK)
    }

    /** `__init__`: start empty and load the snapshot if the directory exists. A
        snapshot that fails to load leaves no index and no QA chain. */
    constructor (disk: Snapshot)
      ensures Valid()
      ensures snapshot == disk
      ensures vectorStore == (if disk.Saved? then Some(disk.entries) else None)
      ensures qaChain == disk.Saved?
      ensures retrieverK == (if disk.Saved? then Some(RetrievalK) else None)
    {
      vectorStore := None;
      retrieverK := None;
      qaChain := false;
      snapshot := disk;
      new;
      if disk != NoSnapshot {
        LoadVectorStore();
      }
    }

    /** `_load_vector_store`, which only `__init__` calls: load the snapshot and set up
        the chain, or, when loading raises, fall back to no index. */
    method LoadVectorStore()
      requires Valid()
      requires snapshot != NoSnapshot
      requires !qaChain && retrieverK.None?
      modifies this
      ensures Valid()
      ensures snapshot == old(snapshot)
      ensures snapshot.Saved? ==> vectorStore == Some(snapshot.entries) && qaChain && retrieverK == Some(RetrievalK)
      ensures snapshot.Unreadable? ==> vectorStore == None && !qaChain && retrieverK == None
    {
      match snapshot {
        case Saved(entries) =>
          vectorStore := Some(entries);
          SetupRetriever();
        case Unreadable =>
          vectorStore := None;
      }
    }

    /** `_setup_retriever`: nothing without an index; otherwise a retriever with
        k = RetrievalK and a QA chain over it. */
    method SetupRetriever()
      requires Valid()
      modifies this`retrieverK, this`qaChain
      ensures Valid()
      ensures vectorStore.None? ==> retrieverK == old(retrieverK) && qaChain == old(qaChain)
      ensures vectorStore.Some? ==> retrieverK == Some(RetrievalK) && qaChain
    {
      if vectorStore.None? {
        return;
      }
      retrieverK := Some(RetrievalK);
      qaChain := true;
    }

    /** `ingest_pdf`: load the pages, split them, build the index from the chunks or
        append them to it, save the snapshot and set up the chain. `pages` is the
        loader's outcome, `split` the splitter (chunk size 1000, overlap 200),
        `embedded` whether embedding the chunks succeeded and `saved` whether writing
        the snapshot succeeded. Any failure is re-raised; the steps before it stay
        done. */
    method IngestPdf(pages: Option<seq<Document>>, split: seq<Document> -> Option<seq<Document>>,
                     embedded: bool, saved: bool)
      returns (r: IngestResult)
      requires Valid()
      modifies this
      ensures Valid()
      ensures old(vectorStore).Some? ==> vectorStore.Some?
      // loading or splitting failed: nothing is touched
      ensures pages.None? ==> r == IngestRaised(LoadFailed) && unchanged(this)
      ensures pages.Some? && split(pages.value).None? ==> r == IngestRaised(SplitFailed) && unchanged(this)
      ensures pages.Some? && split(pages.value).Some? ==>
        var chunks := split(pages.value).value;
        var grown := if old(vectorStore).None? then chunks else old(vectorStore).value + chunks;
        && (!embedded ==> r == IngestRaised(EmbedFailed) && unchanged(this))
        && (embedded && !saved ==>
              && r == IngestRaised(SaveFailed)
              && vectorStore == Some(grown)
              && snapshot == old(snapshot) && qaChain == old(qaChain) && retrieverK == old(retrieverK))
        && (embedded && saved ==>
              && r == Ingested(IngestReport(|pages.value|, |chunks|))
              && vectorStore == Some(grown)
              && snapshot == Saved(grown)
              && qaChain && retrieverK == Some(RetrievalK))
    {
      if pages.None? {
        return IngestRaised(LoadFailed);
      }
      var texts := split(pages.value);
      if texts.None? {
        return IngestRaised(SplitFailed);
      }
      if !embedded {
        return IngestRaised(EmbedFailed);
      }
      if vectorStore.None? {
        vectorStore := Some(texts.value);
      } else {
        vectorStore := Some(vectorStore.value + texts.value);
      }
      if !saved {
        return IngestRaised(SaveFailed);
      }
      snapshot := Saved(vectorStore.value);
      SetupRetriever();
      return Ingested(IngestReport(|pages.value|, |texts.value|));
    }

    /** `query`: the no-knowledge-base sentinel without a QA chain; otherwise the
        chain's answer, always retrieving RetrievalK chunks whatever `topK` is. */
    method Query(question: string, topK: int, services: Services) returns (r: QueryResult)
      requires Valid()
      ensures !qaChain ==> r == NoKnowledgeBase
      ensures qaChain ==> r == ChainAnswer(vectorStore.value, question, services)
    {
      if !qaChain {
        return NoKnowledgeBase;
      }
      var hits := services.search(vectorStore.value, question, retrieverK.value);
      if hits.None? {
        return QueryFailed;
      }
      var answer := services.complete(question, hits.value);
      if answer.None? {
        return QueryFailed;
      }
      var docs := hits.value;
      var sources: seq<map<string, string>> := [];
      var i := 0;
      while i < |docs|
        invariant 0 <= i <= |docs|
        invariant |sources| == i
        invariant forall k :: 0 <= k < i ==> sources[k] == docs[k].metadata
      {
        sources := sources + [docs[i].metadata];
        i := i + 1;
      }
      assert sources == Metadata(docs);
      return QueryResult(answer.value, sources);
    }
  }

  /** Any failure inside the chain gives the error sentinel with no sources; otherwise
      the sources are the metadata of the retrieved chunks, in retrieval order. */
  lemma ChainAnswerCases(index: seq<Document>, question: string, services: Services)
    ensures var hits := services.search(index, question, RetrievalK);
      && (hits.None? ==> ChainAnswer(index, question, services) == QueryFailed)
      && (hits.Some? && services.complete(question, hits.value).None? ==> ChainAnswer(index, question, services) == QueryFailed)
      && (hits.Some? && services.complete(question, hits.value).Some? ==>
            && ChainAnswer(index, question, services).answer == services.complete(question, hits.value).value
            && |ChainAnswer(index, question, services).sourceDocuments| == |hits.value|
            && forall i :: 0 <= i < |hits.value| ==> ChainAnswer(index, question, services).sourceDocuments[i] == hits.value[i].metadata)
  {
  }

  /** After start-up the system answers from the snapshot when it loads, and with the
      sentinel when there is none or it fails to load. */
  method StartupQuery(disk: Snapshot, question: string, topK: int, services: Services) returns (r: QueryResult)
    ensures disk.Saved? ==> r == ChainAnswer(disk.entries, question, services)
    ensures !disk.Saved? ==> r == NoKnowledgeBase
  {
    var system := new RagSystem(disk);
    r := system.Query(question, topK, services);
  }

  /** The first successful ingest on an empty system indexes exactly the new chunks; a
      second one appends and keeps the earlier chunks first; the snapshot follows. */
  method IngestTwice(first: seq<Document>, second: seq<Document>, question: string, topK: int, services: Services)
    returns (index: seq<Document>, disk: Snapshot, r: QueryResult)
    ensures index == first + second
    ensures disk == Saved(first + second)
    ensures r == ChainAnswer(first + second, question, services)
  {
    var system := new RagSystem(NoSnapshot);
    var _ := system.IngestPdf(Some([]), (pages: seq<Document>) => Some(first), true, true);
    assert system.vectorStore == Some(first);
    var _ := system.IngestPdf(Some([]), (pages: seq<Document>) => Some(second), true, true);
    index, disk := system.vectorStore.value, system.snapshot;
    r := system.Query(question, topK, services);
  }

  /** When the first ingest fails to save, the chunks are in memory but no QA chain
      was set up, so queries still get the sentinel; a later successful ingest
      appends to those chunks. */
  method SaveFailureOnFirstIngest(first: seq<Document>, second: seq<Document>, question: string, topK: int, services: Services)
    returns (before: QueryResult, index: seq<Document>)
    ensures before == NoKnowledgeBase
    ensures index == first + second
  {
    var system := new RagSystem(NoSnapshot);
    var _ := system.IngestPdf(Some([]), (pages: seq<Document>) => Some(first), true, false);
    before := system.Query(question, topK, services);
    var _ := system.IngestPdf(Some([]), (pages: seq<Document>) => Some(second), true, true);
    index := system.vectorStore.value;
  }
}
