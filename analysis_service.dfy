/** The orchestrator: list the processable files of a directory walk,
    process them one after the other, collect analyses and error strings,
    keep per-category counts, and ask for a summary of what was analysed. */
module Analysis {
  import opened Outcomes
  import opened Strings
  import opened Config
  import opened Json
  import opened Constants
  import opened Exceptions
  import opened TextUtils
  import opened FileUtils
  import opened Schemas
  import opened Documents
  import opened Llm

  /** One step of `os.walk`: a directory and the names of the files in it. */
  datatype WalkEntry = WalkEntry(root: string, files: seq<string>)

  /** A file name as `os.walk` lists it: no slash in it. */
  predicate PlainName(name: string) {
    forall i :: 0 <= i < |name| ==> name[i] != '/'
  }

  /** The file filter `is_allowed_file` under the given settings. */
  function Filter(settings: Settings): string -> bool {
    name => IsAllowedFile(name, settings)
  }

  /** The accepted files of one directory, joined to it, in listed order. */
  function AllowedIn(root: string, files: seq<string>, accept: string -> bool): (r: seq<string>)
    ensures |r| <= |files|
  {
    if files == [] then []
    else
      var name := files[|files| - 1];
      AllowedIn(root, files[..|files| - 1], accept)
        + (if accept(name) then [Join(root, name)] else [])
  }

  /** `_get_processable_files` as a function of the walk. */
  function ProcessableFiles(walk: seq<WalkEntry>, accept: string -> bool): seq<string> {
    if walk == [] then []
    else
      var entry := walk[|walk| - 1];
      ProcessableFiles(walk[..|walk| - 1], accept) + AllowedIn(entry.root, entry.files, accept)
  }

  /** `p` is the path of the accepted file `name` in `root`. */
  predicate Selected(root: string, name: string, accept: string -> bool, p: string) {
    accept(name) && p == Join(root, name)
  }

  lemma {:induction false} AllowedInSpec(root: string, files: seq<string>, accept: string -> bool, p: string)
    ensures p in AllowedIn(root, files, accept) <==>
              exists j :: 0 <= j < |files| && Selected(root, files[j], accept, p)
    decreases |files|
  {
    if files != [] {
      var n := |files| - 1;
      var init := files[..n];
      var earlier := AllowedIn(root, init, accept);
      var here := if accept(files[n]) then [Join(root, files[n])] else [];
      assert AllowedIn(root, files, accept) == earlier + here;
      AllowedInSpec(root, init, accept, p);
      assert p in here <==> Selected(root, files[n], accept, p);
      if exists j :: 0 <= j < |files| && Selected(root, files[j], accept, p) {
        var j :| 0 <= j < |files| && Selected(root, files[j], accept, p);
        if j < n {
          assert init[j] == files[j];
          assert p in earlier;
        }
      }
      if p in earlier {
        var j :| 0 <= j < |init| && Selected(root, init[j], accept, p);
        assert files[j] == init[j];
      }
    }
  }

  /** A path is processable exactly when some directory of the walk lists
      a file the filter accepts and the path joins the two. */
  lemma {:induction false} ProcessableFilesSpec(walk: seq<WalkEntry>, accept: string -> bool, p: string)
    ensures p in ProcessableFiles(walk, accept) <==>
              exists i, j :: 0 <= i < |walk| && 0 <= j < |walk[i].files|
                && Selected(walk[i].root, walk[i].files[j], accept, p)
    decreases |walk|
  {
    if walk != [] {
      var n := |walk| - 1;
      var init := walk[..n];
      var last := walk[n];
      var earlier := ProcessableFiles(init, accept);
      var here := AllowedIn(last.root, last.files, accept);
      assert ProcessableFiles(walk, accept) == earlier + here;
      ProcessableFilesSpec(init, accept, p);
      AllowedInSpec(last.root, last.files, accept, p);
      if p in earlier {
        var i, j :| 0 <= i < |init| && 0 <= j < |init[i].files|
          && Selected(init[i].root, init[i].files[j], accept, p);
        assert walk[i] == init[i];
      } else if p in here {
        var j :| 0 <= j < |last.files| && Selected(last.root, last.files[j], accept, p);
        assert 0 <= n < |walk| && 0 <= j < |walk[n].files| && Selected(walk[n].root, walk[n].files[j], accept, p);
      } else {
        forall i, j | 0 <= i < |walk| && 0 <= j < |walk[i].files|
          ensures !Selected(walk[i].root, walk[i].files[j], accept, p)
        {
          if i < n {
            assert init[i] == walk[i];
          }
        }
      }
    }
  }

  /** With the default settings no PDF or JSON file is ever processed,
      whatever the walk lists. */
  lemma DefaultNeverProcessesExcluded(walk: seq<WalkEntry>, p: string)
    requires forall e <- walk :: forall name <- e.files :: PlainName(name)
    requires p in ProcessableFiles(walk, Filter(DefaultSettings))
    ensures GetFileExtension(p) in [".txt", ".csv", ".xlsx", ".xls", ".docx"]
  {
    ProcessableFilesSpec(walk, Filter(DefaultSettings), p);
    var i, j :| 0 <= i < |walk| && 0 <= j < |walk[i].files|
      && Selected(walk[i].root, walk[i].files[j], Filter(DefaultSettings), p);
    assert walk[i] in walk;
    assert walk[i].files[j] in walk[i].files;
    ExtensionOfJoin(walk[i].root, walk[i].files[j]);
  }

  lemma AllowedInStep(root: string, files: seq<string>, k: nat, accept: string -> bool)
    requires k < |files|
    ensures AllowedIn(root, files[..k + 1], accept)
            == AllowedIn(root, files[..k], accept) + (if accept(files[k]) then [Join(root, files[k])] else [])
  {
    assert files[..k + 1][..k] == files[..k];
  }

  lemma ProcessableFilesStep(walk: seq<WalkEntry>, i: nat, accept: string -> bool)
    requires i < |walk|
    ensures ProcessableFiles(walk[..i + 1], accept)
            == ProcessableFiles(walk[..i], accept) + AllowedIn(walk[i].root, walk[i].files, accept)
  {
    assert walk[..i + 1][..i] == walk[..i];
  }

  /** The loops of `_get_processable_files`: every file name of every
      directory of the walk, in order, joined to its directory when the
      filter accepts it. */
  method SelectFiles(walk: seq<WalkEntry>, accept: string -> bool) returns (paths: seq<string>)
    ensures paths == ProcessableFiles(walk, accept)
  {
    paths := [];
    for i := 0 to |walk|
      invariant paths == ProcessableFiles(walk[..i], accept)
    {
      var root := walk[i].root;
      var files := walk[i].files;
      ghost var before := paths;
      for k := 0 to |files|
        invariant paths == before + AllowedIn(root, files[..k], accept)
      {
        AllowedInStep(root, files, k, accept);
        if accept(files[k]) {
          paths := paths + [Join(root, files[k])];
        }
      }
      assert files[..|files|] == files;
      ProcessableFilesStep(walk, i, accept);
    }
    assert walk[..|walk|] == walk;
  }

  /** Where a file ended up: in `docs`, or as an error string. */
  datatype FileOutcome = Analyzed(analysis: DocumentAnalysis) | Failed(message: string)

  /** The outcome of processing one document: its result and the prompts
      sent for it. */
  datatype DocRun = DocRun(result: Result<Option<DocumentAnalysis>, VdrException>, prompts: seq<Prompt>)

  /** All files processed so far: one outcome per file, all prompts. */
  datatype FilesRun = FilesRun(outcomes: seq<FileOutcome>, prompts: seq<Prompt>)

  const FailedPrefix: string := "Failed to analyze: "
  const ErrorPrefix: string := "Error processing "

  /** The loop body of `analyze_directory` for one file: a raise becomes
      "Error processing {name}: {str(e)}", no analysis becomes
      "Failed to analyze: {name}". */
  function OutcomeOf(path: string, result: Result<Option<DocumentAnalysis>, VdrException>): (r: FileOutcome)
    ensures r.Analyzed? <==> result.Success? && result.value.Some?
    ensures r.Analyzed? ==> r.analysis == result.value.value
    ensures result == Success(None) ==> r == Failed(FailedPrefix + Basename(path))
    ensures result.Failure? ==> r == Failed(ErrorPrefix + Basename(path) + ": " + result.error.Str())
  {
    var filename := Basename(path);
    match result
    case Failure(e) =>
      Failed(ErrorPrefix + filename + ": " + e.Str())
    case Success(None) =>
      Failed(FailedPrefix + filename)
    case Success(Some(a)) => Analyzed(a)
  }

  /** `documents`: the analysed files, in processing order. */
  function Docs(outcomes: seq<FileOutcome>): seq<DocumentAnalysis> {
    if outcomes == [] then []
    else
      var last := outcomes[|outcomes| - 1];
      Docs(outcomes[..|outcomes| - 1]) + (if last.Analyzed? then [last.analysis] else [])
  }

  /** `errors`: the failure messages, in processing order. */
  function Errors(outcomes: seq<FileOutcome>): seq<string> {
    if outcomes == [] then []
    else
      var last := outcomes[|outcomes| - 1];
      Errors(outcomes[..|outcomes| - 1]) + (if last.Failed? then [last.message] else [])
  }

  /** Every file lands in exactly one of the two lists. */
  lemma {:induction false} DocsAndErrorsPartition(outcomes: seq<FileOutcome>)
    ensures |Docs(outcomes)| + |Errors(outcomes)| == |outcomes|
    decreases |outcomes|
  {
    if outcomes != [] {
      DocsAndErrorsPartition(outcomes[..|outcomes| - 1]);
    }
  }

  /** One more outcome extends the document list or the error list. */
  lemma OutcomesStep(outcomes: seq<FileOutcome>, o: FileOutcome)
    ensures Docs(outcomes + [o]) == Docs(outcomes) + (if o.Analyzed? then [o.analysis] else [])
    ensures Errors(outcomes + [o]) == Errors(outcomes) + (if o.Failed? then [o.message] else [])
  {
    assert (outcomes + [o])[..|outcomes|] == outcomes;
  }

  /** Facts listed by the documents of category `c`. */
  function FactsIn(docs: seq<DocumentAnalysis>, c: Category): nat {
    if docs == [] then 0
    else
      var last := docs[|docs| - 1];
      FactsIn(docs[..|docs| - 1], c) + (if last.category == c then |last.facts| else 0)
  }

  /** Red flags listed by the documents of category `c`. */
  function RedFlagsIn(docs: seq<DocumentAnalysis>, c: Category): nat {
    if docs == [] then 0
    else
      var last := docs[|docs| - 1];
      RedFlagsIn(docs[..|docs| - 1], c) + (if last.category == c then |last.redFlags| else 0)
  }

  function TotalFacts(docs: seq<DocumentAnalysis>): nat {
    if docs == [] then 0 else TotalFacts(docs[..|docs| - 1]) + |docs[|docs| - 1].facts|
  }

  function TotalRedFlags(docs: seq<DocumentAnalysis>): nat {
    if docs == [] then 0 else TotalRedFlags(docs[..|docs| - 1]) + |docs[|docs| - 1].redFlags|
  }

  /** Summed over the five categories, the per-category counts are the
      totals over all documents. */
  lemma {:induction false} CategoryCountsSumToTotals(docs: seq<DocumentAnalysis>)
    ensures FactsIn(docs, Financial) + FactsIn(docs, Legal) + FactsIn(docs, Operations)
            + FactsIn(docs, Commercial) + FactsIn(docs, Other) == TotalFacts(docs)
    ensures RedFlagsIn(docs, Financial) + RedFlagsIn(docs, Legal) + RedFlagsIn(docs, Operations)
            + RedFlagsIn(docs, Commercial) + RedFlagsIn(docs, Other) == TotalRedFlags(docs)
    decreases |docs|
  {
    if docs != [] {
      CategoryCountsSumToTotals(docs[..|docs| - 1]);
    }
  }

  /** What the counters hold once `_update_aggregate` has run over `docs`,
      in order, from all zero. */
  function TotalsOf(docs: seq<DocumentAnalysis>): Totals {
    if docs == [] then NoCounts
    else
      var last := docs[|docs| - 1];
      TotalsOf(docs[..|docs| - 1]).Add(last.category, |last.facts|, |last.redFlags|)
  }

  /** One more document adds to its own category's tally. */
  lemma TotalsOfStep(docs: seq<DocumentAnalysis>, a: DocumentAnalysis)
    ensures TotalsOf(docs + [a]) == TotalsOf(docs).Add(a.category, |a.facts|, |a.redFlags|)
  {
    assert (docs + [a])[..|docs|] == docs;
  }

  /** After all the documents, each category's counter holds the number of
      facts and of red flags its documents list. */
  lemma {:induction false} TotalsOfCounts(docs: seq<DocumentAnalysis>, c: Category)
    ensures TotalsOf(docs).Of(c) == Tally(FactsIn(docs, c), RedFlagsIn(docs, c))
    decreases |docs|
  {
    if docs != [] {
      var last := docs[|docs| - 1];
      TotalsOfCounts(docs[..|docs| - 1], c);
      TotalsAdd(TotalsOf(docs[..|docs| - 1]), last.category, |last.facts|, |last.redFlags|);
    }
  }

  /** A category no document has keeps zero counts. */
  lemma {:induction false} AbsentCategoryIsZero(docs: seq<DocumentAnalysis>, c: Category)
    requires forall d <- docs :: d.category != c
    ensures FactsIn(docs, c) == 0 && RedFlagsIn(docs, c) == 0
    decreases |docs|
  {
    if docs != [] {
      assert docs[|docs| - 1] in docs;
      AbsentCategoryIsZero(docs[..|docs| - 1], c);
    }
  }

  /** The loop of `analyze_directory` over `paths`, with `process` standing
      for `_process_document` and model calls numbered from `start`: one
      outcome per path, in order, each file's calls following the previous
      file's. */
  function RunFiles(paths: seq<string>, start: nat, process: (string, nat) -> DocRun): (run: FilesRun)
    ensures |run.outcomes| == |paths|
  {
    if paths == [] then FilesRun([], [])
    else
      var prev := RunFiles(paths[..|paths| - 1], start, process);
      var path := paths[|paths| - 1];
      var doc := process(path, start + |prev.prompts|);
      FilesRun(prev.outcomes + [OutcomeOf(path, doc.result)], prev.prompts + doc.prompts)
  }

  /** Concatenation regroups freely. */
  lemma AppendAssociative<T>(a: seq<T>, b: seq<T>, c: seq<T>)
    ensures a + b + c == a + (b + c)
  {
  }

  /** One more file: its outcome and its prompts are appended. */
  lemma RunFilesStep(paths: seq<string>, idx: nat, start: nat, process: (string, nat) -> DocRun)
    requires idx < |paths|
    ensures var prev := RunFiles(paths[..idx], start, process);
            var doc := process(paths[idx], start + |prev.prompts|);
            RunFiles(paths[..idx + 1], start, process)
            == FilesRun(prev.outcomes + [OutcomeOf(paths[idx], doc.result)], prev.prompts + doc.prompts)
  {
    assert paths[..idx + 1][..idx] == paths[..idx];
  }

  /** Dropping the last of the first `k + 1` files drops the last outcome. */
  lemma RunFilesDropLast(paths: seq<string>, start: nat, process: (string, nat) -> DocRun, k: nat)
    requires k < |paths|
    ensures RunFiles(paths[..k], start, process).outcomes == RunFiles(paths[..k + 1], start, process).outcomes[..k]
  {
    RunFilesStep(paths, k, start, process);
  }

  /** Running the loop over the first `k` files gives the first `k`
      outcomes of running it over all of them. */
  lemma {:induction false} RunFilesPrefix(paths: seq<string>, start: nat, process: (string, nat) -> DocRun, k: nat)
    requires k <= |paths|
    ensures RunFiles(paths[..k], start, process).outcomes == RunFiles(paths, start, process).outcomes[..k]
    decreases |paths| - k
  {
    if k == |paths| {
      assert paths[..k] == paths;
    } else {
      RunFilesPrefix(paths, start, process, k + 1);
      RunFilesDropLast(paths, start, process, k);
      var all := RunFiles(paths, start, process).outcomes;
      assert all[..k + 1][..k] == all[..k];
    }
  }

  /** The outcome of the `i`-th file is what processing it gave, its model
      calls numbered after those of the files before it. */
  lemma RunFilesOutcomeAt(paths: seq<string>, start: nat, process: (string, nat) -> DocRun, i: nat)
    requires i < |paths|
    ensures RunFiles(paths, start, process).outcomes[i]
            == OutcomeOf(paths[i], process(paths[i], start + |RunFiles(paths[..i], start, process).prompts|).result)
  {
    var all := RunFiles(paths, start, process).outcomes;
    RunFilesPrefix(paths, start, process, i + 1);
    RunFilesStep(paths, i, start, process);
    assert all[i] == all[..i + 1][i];
  }

  /** A property every file's own prompts have, relative to that file's
      path, holds of every prompt of the loop for some path of the loop. */
  lemma {:induction false} RunFilesPromptsFrom(paths: seq<string>, start: nat, process: (string, nat) -> DocRun,
                                               ok: (string, Prompt) -> bool)
    requires forall p, s, q :: q in process(p, s).prompts ==> ok(p, q)
    ensures forall q <- RunFiles(paths, start, process).prompts :: exists p <- paths :: ok(p, q)
    decreases |paths|
  {
    if paths != [] {
      var n := |paths| - 1;
      var prev := RunFiles(paths[..n], start, process);
      RunFilesPromptsFrom(paths[..n], start, process, ok);
      var doc := process(paths[n], start + |prev.prompts|);
      forall q <- RunFiles(paths, start, process).prompts
        ensures exists p <- paths :: ok(p, q)
      {
        if q in prev.prompts {
          var p :| p in paths[..n] && ok(p, q);
          assert p in paths;
        } else {
          assert q in doc.prompts;
          assert paths[n] in paths;
        }
      }
    }
  }

  /** The loop of `analyze_directory` after the first `k` files, the
      model's prompts having been `prior` before the loop: the documents,
      the errors and the prompts are those of `RunFiles` over those files. */
  ghost predicate FilesState(paths: seq<string>, k: nat, prior: seq<Prompt>, process: (string, nat) -> DocRun,
                             documents: seq<DocumentAnalysis>, errors: seq<string>, prompts: seq<Prompt>)
  {
    && k <= |paths|
    && var run := RunFiles(paths[..k], |prior|, process);
    && documents == Docs(run.outcomes)
    && errors == Errors(run.outcomes)
    && prompts == prior + run.prompts
  }

  /** Handling file `k` as one pass of the loop does (its outcome appended
      to the documents or to the errors, its prompts to the prompts) moves
      `FilesState` one file further on. */
  lemma FilesStateStep(paths: seq<string>, k: nat, prior: seq<Prompt>, process: (string, nat) -> DocRun,
                       documents: seq<DocumentAnalysis>, errors: seq<string>, prompts: seq<Prompt>,
                       documents': seq<DocumentAnalysis>, errors': seq<string>, prompts': seq<Prompt>)
    requires k < |paths| && FilesState(paths, k, prior, process, documents, errors, prompts)
    requires var run := process(paths[k], |prompts|);
             var outcome := OutcomeOf(paths[k], run.result);
             && prompts' == prompts + run.prompts
             && documents' == documents + (if outcome.Analyzed? then [outcome.analysis] else [])
             && errors' == errors + (if outcome.Failed? then [outcome.message] else [])
    ensures FilesState(paths, k + 1, prior, process, documents', errors', prompts')
  {
    var start := |prior|;
    var run := RunFiles(paths[..k], start, process);
    assert |prompts| == start + |run.prompts|;
    var doc := process(paths[k], start + |run.prompts|);
    var outcome := OutcomeOf(paths[k], doc.result);
    var next := RunFiles(paths[..k + 1], start, process);
    RunFilesStep(paths, k, start, process);
    assert next.outcomes == run.outcomes + [outcome] && next.prompts == run.prompts + doc.prompts;
    OutcomesStep(run.outcomes, outcome);
    assert documents' == Docs(next.outcomes) && errors' == Errors(next.outcomes);
    AppendAssociative(prior, run.prompts, doc.prompts);
    assert prompts' == prior + next.prompts;
  }

  /** A walk in which the filter accepts no file name has no processable
      file, so the loop processes nothing and asks nothing. */
  lemma NothingToProcess(walk: seq<WalkEntry>, accept: string -> bool, start: nat, process: (string, nat) -> DocRun)
    requires forall e <- walk :: forall name <- e.files :: !accept(name)
    ensures ProcessableFiles(walk, accept) == []
    ensures RunFiles(ProcessableFiles(walk, accept), start, process) == FilesRun([], [])
  {
    var paths := ProcessableFiles(walk, accept);
    if paths != [] {
      ProcessableFilesSpec(walk, accept, paths[0]);
      assert false;
    }
  }

  /** `[doc.dict() for doc in documents]`. */
  function AsDicts(docs: seq<DocumentAnalysis>): (r: seq<Json>)
    ensures |r| == |docs|
  {
    seq(|docs|, i requires 0 <= i < |docs| => AsDict(docs[i]))
  }

  /** Each dictionary handed to the summary validates back to its document. */
  lemma AsDictsRoundTrip(docs: seq<DocumentAnalysis>)
    ensures forall i :: 0 <= i < |docs| ==> ToDocumentAnalysis(AsDicts(docs)[i]) == Some(docs[i])
  {
    forall i | 0 <= i < |docs| ensures ToDocumentAnalysis(AsDicts(docs)[i]) == Some(docs[i]) {
      DictRoundTrip(docs[i]);
    }
  }

  /** `AnalysisService`. */
  class AnalysisService {
    const documentService: DocumentService
    const llmService: LlmService
    const settings: Settings
    /** `self._process_document` as a value: the step the directory loop
        applies to each path. */
    ghost var process: (string, nat) -> DocRun

    ghost predicate Valid()
      reads this
    {
      && documentService.Valid()
      && forall path, start {:trigger ProcessDocumentRun(path, start)} ::
           process(path, start) == ProcessDocumentRun(path, start)
    }

    constructor (documentService: DocumentService, llmService: LlmService, settings: Settings)
      requires documentService.Valid()
      ensures this.documentService == documentService && this.llmService == llmService
      ensures this.settings == settings
      ensures Valid()
    {
      this.documentService := documentService;
      this.llmService := llmService;
      this.settings := settings;
      new;
      process := (path: string, start: nat) => ProcessDocumentRun(path, start);
    }

    /** The part of `_process_document` after a non-empty text was
        extracted: truncate, categorise, ask the model, validate. */
    function AnalyzeExtracted(filename: string, text: string, start: nat): (run: DocRun)
      ensures var truncated := TruncateText(text, None, settings);
              var llm := llmService.AnalyzeDocumentRun(filename, Categorize(documentService.keywords, filename, truncated), truncated, start);
              run.result == Success(if llm.result.Some? then ToDocumentAnalysis(llm.result.value) else None)
      ensures var truncated := TruncateText(text, None, settings);
              var category := Categorize(documentService.keywords, filename, truncated);
              && 1 <= |run.prompts| <= 2
              && run.prompts[0] == AnalysisPrompt(filename, category, truncated)
              && (|run.prompts| == 2 ==> run.prompts[1] == RetryPrompt(filename, category, SliceTo(truncated, 1000)))
    {
      var truncated := TruncateText(text, None, settings);
      var category := Categorize(documentService.keywords, filename, truncated);
      var llm := llmService.AnalyzeDocumentRun(filename, category, truncated, start);
      var result := if llm.result.Some? then ToDocumentAnalysis(llm.result.value) else None;
      DocRun(Success(result), llm.prompts)
    }

    /** The prompts sent for one document name it and carry at most the
        configured number of characters, a retry at most 1000. */
    lemma AnalyzeExtractedPrompts(filename: string, text: string, start: nat)
      ensures forall i :: 0 <= i < |AnalyzeExtracted(filename, text, start).prompts| ==>
                PromptFor(AnalyzeExtracted(filename, text, start).prompts[i], filename, settings)
    {
      var prompts := AnalyzeExtracted(filename, text, start).prompts;
      var truncated := TruncateText(text, None, settings);
      assert TruncateLimit(None, settings) == settings.maxTextLength;
      assert |SliceTo(truncated, 1000)| <= |truncated|;
      assert PromptFor(prompts[0], filename, settings);
      if |prompts| == 2 {
        assert PromptFor(prompts[1], filename, settings);
      }
    }

    /** `_process_document` for the file at `path`, its model calls numbered
        from `start`. A failure to extract is raised (`Failure`); no text,
        no LLM result, or a result the schema refuses gives `None`. */
    function ProcessDocumentRun(path: string, start: nat): (run: DocRun)
      ensures run.result.Failure? ==>
                && run.prompts == []
                && run.result.error.DocumentProcessingError?
                && run.result.error.filename == Basename(path)
      ensures |run.prompts| <= 2
    {
      match documentService.ExtractText(path)
      case Failure(e) => DocRun(Failure(e), [])
      case Success(text) =>
        if text.None? || text.value == [] then DocRun(Success(None), [])
        else AnalyzeExtracted(Basename(path), text.value, start)
    }

    /** The model is asked exactly when extraction gave a non-empty text,
        and then about that text under the file's base name. */
    lemma ProcessDocumentAsksIffText(path: string, start: nat)
      ensures ProcessDocumentRun(path, start).prompts == [] <==> !HasText(documentService.ExtractText(path))
      ensures HasText(documentService.ExtractText(path)) ==>
                ProcessDocumentRun(path, start)
                == AnalyzeExtracted(Basename(path), documentService.ExtractText(path).value.value, start)
    {
    }

    /** What `_process_document` returns: a failed extraction is raised; no
        text gives `None`; otherwise the model's accepted reply about the
        truncated text, validated as a `DocumentAnalysis`, or `None` when
        there is no reply or validation fails. */
    lemma ProcessDocumentResult(path: string, start: nat)
      ensures var extracted := documentService.ExtractText(path);
              extracted.Failure? ==> ProcessDocumentRun(path, start).result == Failure(extracted.error)
      ensures var extracted := documentService.ExtractText(path);
              extracted.Success? && !HasText(extracted) ==> ProcessDocumentRun(path, start).result == Success(None)
      ensures var extracted := documentService.ExtractText(path);
              HasText(extracted) ==>
                var filename := Basename(path);
                var truncated := TruncateText(extracted.value.value, None, settings);
                var llm := llmService.AnalyzeDocumentRun(filename, Categorize(documentService.keywords, filename, truncated), truncated, start);
                ProcessDocumentRun(path, start).result == Success(if llm.result.Some? then ToDocumentAnalysis(llm.result.value) else None)
    {
    }

    /** `_process_document`, proved against `ProcessDocumentRun`. */
    method ProcessDocument(path: string) returns (result: Result<Option<DocumentAnalysis>, VdrException>)
      requires Valid()
      modifies llmService.model
      ensures var run := process(path, |old(llmService.model.prompts)|);
              result == run.result && llmService.model.prompts == old(llmService.model.prompts) + run.prompts
    {
      ghost var start := |llmService.model.prompts|;
      var filename := Basename(path);
      var extracted := documentService.ExtractText(path);
      if extracted.Failure? {
        assert ProcessDocumentRun(path, start) == DocRun(Failure(extracted.error), []);
        return Failure(extracted.error);
      }
      var text := extracted.value;
      if text.None? || text.value == [] {
        assert ProcessDocumentRun(path, start) == DocRun(Success(None), []);
        return Success(None);
      }
      assert ProcessDocumentRun(path, start) == AnalyzeExtracted(filename, text.value, start);
      var truncated := TruncateText(text.value, None, settings);
      var category := documentService.CategorizeDocument(filename, truncated);
      var analysisDict := llmService.AnalyzeDocument(filename, category, truncated);
      ghost var llm := llmService.AnalyzeDocumentRun(filename, category, truncated, start);
      assert AnalyzeExtracted(filename, text.value, start).prompts == llm.prompts;
      if analysisDict.None? {
        return Success(None);
      }
      return Success(ToDocumentAnalysis(analysisDict.value));
    }

    /** `_get_processable_files` with the configured filter. */
    method GetProcessableFiles(walk: seq<WalkEntry>) returns (paths: seq<string>)
      ensures paths == ProcessableFiles(walk, Filter(settings))
    {
      paths := SelectFiles(walk, Filter(settings));
    }

    /** `_update_aggregate`: the analysis's category counter grows by its
        number of facts and of red flags; every other counter is untouched. */
    method UpdateAggregate(aggregate: AggregateCounts, analysis: DocumentAnalysis)
      requires aggregate.Valid()
      modifies aggregate.Of(analysis.category)
      ensures aggregate.Snapshot() == old(aggregate.Snapshot()).Add(analysis.category, |analysis.facts|, |analysis.redFlags|)
    {
      var counts := aggregate.Of(analysis.category);
      counts.facts := counts.facts + |analysis.facts|;
      counts.redFlags := counts.redFlags + |analysis.redFlags|;
    }

    /** One pass of the loop of `analyze_directory`: process the file, then
        append the analysis to `documents` and add its counts to its
        category, or append the failure message to `errors`. */
    method AnalyzeFile(path: string, aggregate: AggregateCounts, documents: seq<DocumentAnalysis>, errors: seq<string>)
      returns (documents': seq<DocumentAnalysis>, errors': seq<string>)
      requires Valid() && aggregate.Valid()
      modifies llmService.model, aggregate.Repr()
      ensures process == old(process)
      ensures var run := process(path, |old(llmService.model.prompts)|);
              var outcome := OutcomeOf(path, run.result);
              && llmService.model.prompts == old(llmService.model.prompts) + run.prompts
              && documents' == documents + (if outcome.Analyzed? then [outcome.analysis] else [])
              && errors' == errors + (if outcome.Failed? then [outcome.message] else [])
      ensures var outcome := OutcomeOf(path, process(path, |old(llmService.model.prompts)|).result);
              aggregate.Snapshot()
              == if outcome.Analyzed?
                 then old(aggregate.Snapshot()).Add(outcome.analysis.category, |outcome.analysis.facts|, |outcome.analysis.redFlags|)
                 else old(aggregate.Snapshot())
    {
      var filename := Basename(path);
      documents', errors' := documents, errors;
      var analysis := ProcessDocument(path);
      match analysis
      case Success(Some(a)) =>
        documents' := documents + [a];
        UpdateAggregate(aggregate, a);
      case Success(None) =>
        errors' := errors + [FailedPrefix + filename];
      case Failure(e) =>
        errors' := errors + [ErrorPrefix + filename + ": " + e.Str()];
    }

    /** The state the loop of `analyze_directory` keeps after the first `k`
        files: `FilesState` over the model's prompts, and each counter
        holding its category's sums over the documents. */
    ghost predicate FilesDone(filePaths: seq<string>, k: nat, prior: seq<Prompt>,
                              documents: seq<DocumentAnalysis>, errors: seq<string>, aggregate: AggregateCounts)
      reads this, llmService.model, aggregate.Repr()
    {
      && FilesState(filePaths, k, prior, process, documents, errors, llmService.model.prompts)
      && aggregate.Snapshot() == TotalsOf(documents)
    }

    /** One pass of the loop keeps `FilesDone`, one file further on. */
    method AnalyzeNext(filePaths: seq<string>, idx: nat, ghost prior: seq<Prompt>,
                       aggregate: AggregateCounts, documents: seq<DocumentAnalysis>, errors: seq<string>)
      returns (documents': seq<DocumentAnalysis>, errors': seq<string>)
      requires Valid() && aggregate.Valid() && idx < |filePaths|
      requires FilesDone(filePaths, idx, prior, documents, errors, aggregate)
      modifies llmService.model, aggregate.Repr()
      ensures FilesDone(filePaths, idx + 1, prior, documents', errors', aggregate)
    {
      ghost var prompts := llmService.model.prompts;
      ghost var run := process(filePaths[idx], |prompts|);
      assert FilesState(filePaths, idx, prior, process, documents, errors, prompts);
      documents', errors' := AnalyzeFile(filePaths[idx], aggregate, documents, errors);
      assert llmService.model.prompts == prompts + run.prompts;
      FilesStateStep(filePaths, idx, prior, process, documents, errors, prompts,
                     documents', errors', llmService.model.prompts);
      ghost var outcome := OutcomeOf(filePaths[idx], run.result);
      if outcome.Analyzed? {
        assert documents' == documents + [outcome.analysis];
        TotalsOfStep(documents, outcome.analysis);
      } else {
        assert documents' == documents;
      }
    }

    /** The loop of `analyze_directory` over the processable files: the
        documents, the errors and the prompts are those of `RunFiles`, and
        each counter holds its category's sums over the documents. */
    method AnalyzeFiles(filePaths: seq<string>)
      returns (documents: seq<DocumentAnalysis>, errors: seq<string>, aggregate: AggregateCounts)
      requires Valid()
      modifies llmService.model
      ensures fresh(aggregate) && fresh(aggregate.Repr()) && aggregate.Valid()
      ensures var run := RunFiles(filePaths, |old(llmService.model.prompts)|, process);
              && documents == Docs(run.outcomes)
              && errors == Errors(run.outcomes)
              && llmService.model.prompts == old(llmService.model.prompts) + run.prompts
      ensures aggregate.Snapshot() == TotalsOf(documents)
    {
      documents, errors := [], [];
      aggregate := new AggregateCounts();
      ghost var prior := llmService.model.prompts;
      for idx := 0 to |filePaths|
        invariant aggregate.Valid() && fresh(aggregate.Repr())
        invariant FilesDone(filePaths, idx, prior, documents, errors, aggregate)
      {
        documents, errors := AnalyzeNext(filePaths, idx, prior, aggregate, documents, errors);
      }
      assert filePaths[..|filePaths|] == filePaths;
    }

    /** `analyze_directory` on the walk of the directory: the documents, the
        errors and the prompts are those of `RunFiles` over the processable
        files, the counters hold the per-category sums over the documents,
        and one summary prompt over the documents' dictionaries comes last. */
    method AnalyzeDirectory(walk: seq<WalkEntry>) returns (response: AnalysisResponse)
      requires Valid()
      modifies llmService.model
      ensures fresh(response) && fresh(response.aggregate) && fresh(response.aggregate.Repr())
      ensures response.aggregate.Valid()
      ensures var run := RunFiles(ProcessableFiles(walk, Filter(settings)), |old(llmService.model.prompts)|, process);
              var summaryPrompt := SummaryPrompt(AsDicts(response.docs));
              && response.docs == Docs(run.outcomes)
              && response.errors == Errors(run.outcomes)
              && llmService.model.prompts == old(llmService.model.prompts) + run.prompts + [summaryPrompt]
              && response.summaryText
                 == llmService.SummaryOf(llmService.model.respond(|old(llmService.model.prompts) + run.prompts|, summaryPrompt))
      ensures response.aggregate.Snapshot() == TotalsOf(response.docs)
    {
      ghost var before := llmService.model.prompts;
      var filePaths := GetProcessableFiles(walk);
      var documents, errors, aggregate := AnalyzeFiles(filePaths);
      ghost var run := RunFiles(filePaths, |before|, process);
      ghost var afterFiles := llmService.model.prompts;
      assert afterFiles == before + run.prompts;
      var summaryText := llmService.GenerateSummary(AsDicts(documents));
      assert llmService.model.prompts == afterFiles + [SummaryPrompt(AsDicts(documents))];
      assert summaryText == llmService.SummaryOf(llmService.model.respond(|afterFiles|, SummaryPrompt(AsDicts(documents))));
      response := new AnalysisResponse(documents, aggregate, summaryText, errors);
    }
  }

  /** Every prompt sent while processing a file names its base name and
      respects the length limits. */
  lemma ProcessDocumentPrompts(service: AnalysisService, path: string, start: nat)
    ensures forall i :: 0 <= i < |service.ProcessDocumentRun(path, start).prompts| ==>
              PromptFor(service.ProcessDocumentRun(path, start).prompts[i], Basename(path), service.settings)
  {
    var extracted := service.documentService.ExtractText(path);
    if HasText(extracted) {
      service.AnalyzeExtractedPrompts(Basename(path), extracted.value.value, start);
    }
  }

  /** `if not text`: extraction gave a non-empty string. */
  predicate HasText(extracted: Result<Option<string>, VdrException>) {
    extracted.Success? && extracted.value.Some? && extracted.value.value != []
  }

  /** A prompt about the file `filename`: never the summary prompt, its text
      within the configured length, a retry's text within 1000 characters. */
  predicate PromptFor(p: Prompt, filename: string, settings: Settings) {
    && !p.SummaryPrompt?
    && p.filename == filename
    && (settings.maxTextLength >= 0 ==> |p.text| <= settings.maxTextLength)
    && (p.RetryPrompt? ==> |p.text| <= 1000)
  }
}
