/**
 * The document-analysis example: a before-model callback that stores the
 * story bytes held in session state as my_document.pdf, and the
 * process_document tool that lists the artifacts, loads a document, consults
 * memory and saves an analysis as a new artifact version.
 */
module DocAnalysis {
  import opened Wrappers
  import opened Values
  import opened Genai
  import opened ArtifactStore
  import opened MemorySearch

  // ---------------------------------------------------------------------
  // saveStoryBytes
  // ---------------------------------------------------------------------

  const StoryKey := "story_bytes"
  const StoryFile := "my_document.pdf"

  function PdfPart(data: seq<bv8>): Part {
    BlobPart(Blob("application/pdf", data))
  }

  /** The story the callback finds: the bytes under story_bytes, when a byte slice is stored there. */
  function StoryIn(st: State): (r: Option<seq<bv8>>)
    ensures r.Some? <==> StoryKey in st && st[StoryKey].Bytes?
    ensures r.Some? ==> st[StoryKey] == Bytes(r.value)
  {
    if StoryKey in st && st[StoryKey].Bytes? then Some(st[StoryKey].data) else None
  }

  /** The store after the callback: the story saved as one more version of my_document.pdf, when there is one and the save succeeds. */
  function AfterStorySave(kv: State, start: Artifacts, failSave: Option<string>): (r: Artifacts)
    ensures WellFormed(start) ==> WellFormed(r)
  {
    if StoryIn(kv).Some? && failSave.None? then Stored(start, StoryFile, Some(PdfPart(StoryIn(kv).value)))
    else start
  }

  /**
   * saveStoryBytes: saves the story bytes as my_document.pdf. A missing key,
   * a value of another type or a failed save change nothing; the model is
   * always called.
   */
  method SaveStoryBytes(st: StateStore, store: Store) returns (r: Option<LLMResponse>)
    requires store.Valid()
    modifies store
    ensures store.Valid()
    ensures r.None?
    ensures store.data == AfterStorySave(st.kv, old(store.data), store.failSave)
  {
    var value := st.Get(StoryKey);
    if value.None? {
      return None;
    }
    if !value.value.Bytes? {
      return None;
    }
    var res := store.Save(StoryFile, Some(PdfPart(value.value.data)));
    return None;
  }

  /** The first session starts with no state, so its run saves nothing. */
  lemma FirstSessionSavesNothing(start: Artifacts, failSave: Option<string>)
    ensures AfterStorySave(map[], start, failSave) == start
  {
  }

  /** The second session starts with the story, so its run stores it as the latest my_document.pdf. */
  lemma SecondSessionSavesStory(data: seq<bv8>, start: Artifacts)
    requires WellFormed(start)
    ensures Latest(AfterStorySave(map[StoryKey := Bytes(data)], start, None), StoryFile) == Some(Some(PdfPart(data)))
  {
    LoadAfterSave(start, StoryFile, Some(PdfPart(data)));
  }

  // ---------------------------------------------------------------------
  // processDocument
  // ---------------------------------------------------------------------

  /** processDocumentResult; an empty artifact name and a zero version stand for omitted fields. */
  datatype DocResult = DocResult(status: string, analysisArtifact: string, version: nat, message: string)

  function Failure(message: string): DocResult {
    DocResult("error", "", 0, message)
  }

  function AnalysisName(document: string): string {
    "analysis_" + document
  }

  function AnalysisText(document: string, query: string): string {
    "Analysis of '" + document + "' regarding '" + query + "' using memory context: [Placeholder Analysis Result]"
  }

  function NotFound(document: string): string {
    "Document '" + document + "' not found."
  }

  /** The number of memory results the tool reports: zero without a response. */
  function MemoryCount(reply: SearchReply): nat {
    if reply.memories.Some? then |reply.memories.value| else 0
  }

  /** What the tool returns and what the store holds afterwards. */
  datatype Processed = Processed(out: Outcome<DocResult>, data: Artifacts)

  /**
   * The tool's behaviour, given the store's contents and which of its calls
   * it refuses: list, load (the document must carry inline data, or reading
   * its size panics), then save the analysis.
   */
  function Process(document: string, query: string, data: Artifacts,
                   failList: Option<string>, failLoad: Option<string>, failSave: Option<string>): (r: Processed)
    requires WellFormed(data)
    ensures WellFormed(r.data)
  {
    if failList.Some? then Processed(Done(Failure("Failed to list artifacts.")), data)
    else if failLoad.Some? || document !in data.versions then Processed(Done(Failure(NotFound(document))), data)
    else
      var loaded := Latest(data, document).value;
      if loaded.None? || loaded.value.inlineData.None? then Processed(Crash, data)
      else if failSave.Some? then Processed(Done(Failure("Failed to save artifact.")), data)
      else
        Processed(Done(DocResult("success", AnalysisName(document), NextVersion(data, AnalysisName(document)), "")),
                  Stored(data, AnalysisName(document), Some(TextPart(AnalysisText(document, query)))))
  }

  /**
   * The tool succeeds exactly when nothing is refused and the document is
   * stored with inline data; it then reports the analysis artifact's name
   * and the version the store gave it, and the analysis is that name's
   * latest version.
   */
  lemma ProcessSucceeds(document: string, query: string, data: Artifacts,
                        failList: Option<string>, failLoad: Option<string>, failSave: Option<string>)
    requires WellFormed(data)
    ensures var r := Process(document, query, data, failList, failLoad, failSave);
            && ((r.out.Done? && r.out.value.status == "success") <==>
                  && failList.None? && failLoad.None? && failSave.None?
                  && document in data.versions
                  && Latest(data, document).value.Some?
                  && Latest(data, document).value.value.inlineData.Some?)
            && (r.out.Done? && r.out.value.status == "success" ==>
                  && r.out.value.analysisArtifact == AnalysisName(document)
                  && r.out.value.version == NextVersion(data, AnalysisName(document))
                  && Latest(r.data, AnalysisName(document)) == Some(Some(TextPart(AnalysisText(document, query)))))
  {
    var name := AnalysisName(document);
    LoadAfterSave(data, name, Some(TextPart(AnalysisText(document, query))));
  }

  /** Whenever the tool does not succeed, nothing is saved. */
  lemma FailureSavesNothing(document: string, query: string, data: Artifacts,
                            failList: Option<string>, failLoad: Option<string>, failSave: Option<string>)
    requires WellFormed(data)
    ensures var r := Process(document, query, data, failList, failLoad, failSave);
            !(r.out.Done? && r.out.value.status == "success") ==> r.data == data
  {
  }

  /** A failure reports which step failed: listing first, then loading, then saving. */
  lemma FailureMessages(document: string, query: string, data: Artifacts,
                        failList: Option<string>, failLoad: Option<string>, failSave: Option<string>)
    requires WellFormed(data)
    ensures var r := Process(document, query, data, failList, failLoad, failSave);
            && (failList.Some? ==> r.out == Done(Failure("Failed to list artifacts.")))
            && (failList.None? && (failLoad.Some? || document !in data.versions) ==> r.out == Done(Failure(NotFound(document))))
            && ((&& failList.None? && failLoad.None? && document in data.versions
                 && Latest(data, document).value.Some? && Latest(data, document).value.value.inlineData.Some?
                 && failSave.Some?)
                ==> r.out == Done(Failure("Failed to save artifact.")))
  {
  }

  /**
   * processDocument. `reply` is the memory service's answer to the query;
   * its error is only reported, and `memoryCount` is the number of results
   * printed (None when the search is not reached).
   */
  method ProcessDocument(document: string, query: string, store: Store, reply: SearchReply)
    returns (out: Outcome<DocResult>, memoryCount: Option<nat>)
    requires store.Valid()
    modifies store
    ensures store.Valid()
    ensures Processed(out, store.data)
            == Process(document, query, old(store.data), store.failList, store.failLoad, store.failSave)
    ensures memoryCount.Some? ==> memoryCount.value == MemoryCount(reply)
  {
    memoryCount := None;
    var files := store.List();
    if files.Err? {
      return Done(Failure("Failed to list artifacts.")), None;
    }
    var loaded := store.Load(document);
    if loaded.Err? {
      return Done(Failure(NotFound(document))), None;
    }
    if loaded.value.None? || loaded.value.value.inlineData.None? {
      return Crash, None;
    }
    memoryCount := Some(MemoryCount(reply));
    var name := AnalysisName(document);
    var saved := store.Save(name, Some(TextPart(AnalysisText(document, query))));
    if saved.Err? {
      return Done(Failure("Failed to save artifact.")), memoryCount;
    }
    return Done(DocResult("success", name, saved.value, "")), memoryCount;
  }

  /**
   * The two runs end to end: in the second session the callback has stored
   * the story, so processing my_document.pdf against that session's
   * otherwise empty store succeeds with the analysis as version 0.
   */
  lemma SecondRunAnalyses(data: seq<bv8>, query: string)
    ensures var store := AfterStorySave(map[StoryKey := Bytes(data)], Artifacts(map[], []), None);
            Process(StoryFile, query, store, None, None, None).out
            == Done(DocResult("success", AnalysisName(StoryFile), 0, ""))
  {
    var empty := Artifacts(map[], []);
    var store := AfterStorySave(map[StoryKey := Bytes(data)], empty, None);
    SecondSessionSavesStory(data, empty);
    assert NextVersion(store, AnalysisName(StoryFile)) == 0 by {
      assert AnalysisName(StoryFile)[0] == 'a' != StoryFile[0];
    }
  }
}
