/**
 * The document-analyzer tool of the tools overview: list the artifacts, load
 * the named document, save an analysis of it under a derived name. Each
 * failure is reported with the store's own error and stops the later steps.
 */
module DocumentAnalyzer {
  import opened Wrappers
  import opened Genai
  import opened ArtifactStore

  /** processDocumentResult; an empty string stands for an omitted field. */
  datatype AnalyzerResult = AnalyzerResult(status: string, message: string, analysisArtifact: string)

  function Failure(message: string): AnalyzerResult {
    AnalyzerResult("error", message, "")
  }

  function AnalysisName(document: string): string {
    "analysis_" + document
  }

  /** The placeholder findings the analysis reports. */
  const PlaceholderFindings := "The document appears to be about planetary science, discussing the composition of Mars' atmosphere. [Placeholder Analysis Result]"

  function AnalysisText(document: string, query: string): string {
    "Analysis of '" + document + "' regarding '" + query + "': " + PlaceholderFindings
  }

  /** The text of a loaded document: a response without a part reads as empty text. */
  function DocumentText(loaded: Option<Part>): (r: string)
    ensures loaded.None? ==> r == ""
    ensures loaded.Some? ==> r == loaded.value.text
  {
    if loaded.Some? then loaded.value.text else ""
  }

  /** What the tool returns, the document text it read, and what the store holds afterwards. */
  datatype Analyzed = Analyzed(result: AnalyzerResult, documentText: Option<string>, data: Artifacts)

  /** The tool's behaviour, given the store's contents and which of its calls it refuses. */
  function Analyze(document: string, query: string, data: Artifacts,
                   failList: Option<string>, failLoad: Option<string>, failSave: Option<string>): (r: Analyzed)
    requires WellFormed(data)
    ensures WellFormed(r.data)
  {
    if failList.Some? then Analyzed(Failure("failed to list artifacts: " + failList.value), None, data)
    else if failLoad.Some? || document !in data.versions then
      Analyzed(Failure("Document '" + document + "' not found."), None, data)
    else
      var text := DocumentText(Latest(data, document).value);
      if failSave.Some? then Analyzed(Failure("failed to save artifact: " + failSave.value), Some(text), data)
      else Analyzed(AnalyzerResult("success", "", AnalysisName(document)), Some(text),
                    Stored(data, AnalysisName(document), Some(TextPart(AnalysisText(document, query)))))
  }

  /**
   * The steps run list, load, save: the tool succeeds exactly when none is
   * refused and the document exists, and then the analysis is the latest
   * version under "analysis_" + the document's name. A document saved
   * without a part still succeeds, read as empty text.
   */
  lemma AnalyzeSucceeds(document: string, query: string, data: Artifacts,
                        failList: Option<string>, failLoad: Option<string>, failSave: Option<string>)
    requires WellFormed(data)
    ensures var r := Analyze(document, query, data, failList, failLoad, failSave);
            && (r.result.status == "success" <==>
                  failList.None? && failLoad.None? && failSave.None? && document in data.versions)
            && (r.result.status == "success" ==>
                  && r.result.analysisArtifact == AnalysisName(document)
                  && Latest(r.data, AnalysisName(document)) == Some(Some(TextPart(AnalysisText(document, query)))))
            && (r.result.status != "success" ==> r.data == data && r.result.status == "error")
  {
    LoadAfterSave(data, AnalysisName(document), Some(TextPart(AnalysisText(document, query))));
  }

  /** A failed listing stops everything: nothing is loaded and nothing is saved. */
  lemma ListFailureStops(document: string, query: string, data: Artifacts, err: string,
                         failLoad: Option<string>, failSave: Option<string>)
    requires WellFormed(data)
    ensures var r := Analyze(document, query, data, Some(err), failLoad, failSave);
            r.documentText.None? && r.data == data && r.result.message == "failed to list artifacts: " + err
  {
  }

  /** A document stored without a part is read as empty text, not as an error. */
  lemma PartlessDocumentIsEmpty(document: string, query: string, data: Artifacts)
    requires WellFormed(data)
    requires document in data.versions && Latest(data, document) == Some(None)
    ensures Analyze(document, query, data, None, None, None).documentText == Some("")
    ensures Analyze(document, query, data, None, None, None).result.status == "success"
  {
  }

  /** processDocument */
  method ProcessDocument(document: string, query: string, store: Store)
    returns (result: AnalyzerResult, documentText: Option<string>)
    requires store.Valid()
    modifies store
    ensures store.Valid()
    ensures Analyzed(result, documentText, store.data)
            == Analyze(document, query, old(store.data), store.failList, store.failLoad, store.failSave)
  {
    var files := store.List();
    if files.Err? {
      return Failure("failed to list artifacts: " + files.error), None;
    }
    var loaded := store.Load(document);
    if loaded.Err? {
      return Failure("Document '" + document + "' not found."), None;
    }
    var text := "";
    if loaded.value.Some? {
      text := loaded.value.value.text;
    }
    var name := AnalysisName(document);
    var saved := store.Save(name, Some(TextPart(AnalysisText(document, query))));
    if saved.Err? {
      return Failure("failed to save artifact: " + saved.error), Some(text);
    }
    return AnalyzerResult("success", "", name), Some(text);
  }
}
