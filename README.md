# Due-diligence document pipeline, modelled in Dafny

This project models the document-analysis core of a small due-diligence
backend (the "VDR Lite" service). It takes a directory walk and keeps the
files whose extension the settings allow. It then processes the files one
after the other:

- extract the text with a reader chosen by the file's extension;
- truncate the text to the configured length;
- categorise the document by keyword scoring;
- ask a language model for facts and red flags, with one retry when the reply does not parse;
- validate the reply against the `DocumentAnalysis` schema.

Each file ends up either as an analysed document or as an error string.
The per-category counts of facts and red flags are kept in a mutable
`AggregateCounts` object. Finally the model is asked once for an executive
summary of the analysed documents.

Modules, one per source file:

- `Constants`: the category enum and the keyword table.
- `Config`: the settings the core reads, as a value.
- `Exceptions`: the exception hierarchy and its message formats.
- `Schemas`: the response schemas. The counters are classes updated in place.
- `TextUtils`: `truncate_text` and `clean_json_response`.
- `FileUtils`: `get_file_extension`, `is_allowed_file`, and the POSIX `splitext`, `basename` and `join` they rely on.
- `Documents`: the document service, with extension dispatch and the keyword categoriser.
- `Llm`: the LLM service, with analysis, retry, parsing, summary and API-error classification.
- `Analysis`: the orchestrator.

Three helper modules stand for Python itself:

- `Outcomes`: `Option` and `Result`.
- `Strings`: the `str` builtins the code uses. These are `lower`, `strip`, `count`, `rfind`, `in`, `startswith`, `endswith` and slicing.
- `Json`: decoded JSON.

The stateful parts are imperative Dafny, as in the source.

- **Language model:** a `GenerativeModel` object. It logs every prompt it is sent, and its reply to the `i`-th call is a fixed function of `i` and the prompt.
- **Service methods:** the `LlmService` and `AnalysisService` methods update that log and the counters. Each method is proved equal to a pure "run" function: `AnalyzeDocumentRun`, `ProcessDocumentRun` and `RunFiles`. The lemmas are stated about those functions.
- **Categoriser:** `categorize_document` keeps its two loops and its score map, and is proved equal to the function `Categorize`.
- **File listing:** `_get_processable_files` keeps its nested loops, proved equal to `ProcessableFiles`.
- **Directory loop:** the loop of `analyze_directory` keeps an invariant, `FilesDone`. It says that the documents, the errors and the prompts sent are those of `RunFiles` over the files handled so far. It also says that the counters' values (`Snapshot`) equal `TotalsOf(documents)`, the fold of `_update_aggregate` over the documents.

## Model

| member | source | states |
|---|---|---|
| Strings.Lower | backend/services/document_service.py:205-206 | `str.lower` keeps the length and lowers each character on its own (ASCII letters) |
| Strings.LowerIdempotent | backend/services/document_service.py:205-206 | lowering an already lowered string changes nothing |
| Strings.RFind | backend/utils/file_utils.py:25 | `rfind` gives -1 or an index holding the character, with no later occurrence |
| Strings.SliceTo | backend/services/document_service.py:205 | `s[:n]` is a prefix of `s`, of length `min(n, len)` for `n >= 0` and `max(len + n, 0)` for negative `n` |
| Strings.LStripShape | backend/utils/text_utils.py:39 | `lstrip` drops exactly the leading run of whitespace: a suffix whose first character is not whitespace |
| Strings.RStripShape | backend/utils/text_utils.py:50 | `rstrip` drops exactly the trailing run of whitespace: a prefix whose last character is not whitespace |
| Strings.StripShape | backend/utils/text_utils.py:39 | `strip` returns the infix between a leading and a trailing run of whitespace, and it neither begins nor ends with whitespace |
| Strings.StripIsInfix | backend/services/llm_service.py:215 | the stripped text is a contiguous piece of the original |
| Strings.StripIdempotent | backend/utils/text_utils.py:50 | stripping twice is stripping once |
| Strings.CountZeroIffAbsent | backend/services/document_service.py:215-216 | `s.count(k)` for non-empty `k` is zero exactly when `k in s` is false |
| Strings.CountBound | backend/services/document_service.py:215-216 | non-overlapping matches: `count(k) * len(k) <= len(s)` |
| Constants.CategoryFromValue | backend/core/constants.py:7-14 | `DocumentCategory(s)` succeeds only with a member whose value is `s` |
| Constants.CategoryValueRoundTrip | backend/core/constants.py:7-14 | every member is recovered from its string value |
| Constants.KeywordsOfCategoryKeywords | backend/core/constants.py:27-52 | looking up each category finds its own keyword list, and `other` has none |
| Constants.CategoryKeywordsShape | backend/core/constants.py:27-52 | four entries in the order financial, legal, commercial, operations, no key twice, none for `other` |
| Constants.KeywordsAreLowercase | backend/core/constants.py:28-51 | every keyword equals its lower-cased form, and multi-word keywords exist ("balance sheet") |
| Constants.FinancialKeywordsLowercase | backend/core/constants.py:28-33 | every financial keyword is lower case |
| Constants.LegalKeywordsLowercase | backend/core/constants.py:34-39 | every legal keyword is lower case |
| Constants.CommercialKeywordsLowercase | backend/core/constants.py:40-45 | every commercial keyword is lower case |
| Constants.OperationsKeywordsLowercase | backend/core/constants.py:46-51 | every operations keyword is lower case |
| Constants.RevenueListedTwice | backend/core/constants.py:28-45 | "revenue" is listed for both financial and commercial |
| Constants.GoverningLawCountsTwice | backend/core/constants.py:37-38 | "governing law" and "law" are both legal keywords, and the phrase contains each once |
| Exceptions.MessageRoundTrip | backend/core/exceptions.py:23-74 | each subclass has an error code, and its string form (its message) gives back that code and the unchanged file name |
| TextUtils.TruncateText | backend/utils/text_utils.py:9-26 | the result is a prefix of the text; the text itself when it fits; otherwise of exactly the limit's length |
| TextUtils.TruncateIdempotent | backend/utils/text_utils.py:23-26 | truncating twice with the same non-negative limit is truncating once |
| TextUtils.DefaultTruncation | backend/utils/text_utils.py:20-21 | with no explicit limit the default settings keep 15000 characters |
| TextUtils.UnfencedShape | backend/utils/text_utils.py:41-48 | removing the fences leaves an infix, and a text with no fence at either end is unchanged |
| TextUtils.CleanJsonShape | backend/utils/text_utils.py:29-50 | the result has no whitespace at either end and is no longer than the input; an unfenced input is only stripped |
| TextUtils.JsonFenceIsFence | backend/utils/text_utils.py:42-45 | the json-tagged fence is tested first because it also starts with the plain fence |
| TextUtils.CleanIsInfixOfInput | backend/utils/text_utils.py:39-50 | the cleaned text is a contiguous piece of the input |
| TextUtils.CleanJsonTaggedFence | backend/utils/text_utils.py:42-48 | for any body, a json-tagged fence and its closing fence are removed whole, leaving the body stripped |
| FileUtils.SplitExt | backend/utils/file_utils.py:25 | `splitext` splits the path into root and extension; the extension is empty or a dot followed by neither dots nor slashes |
| FileUtils.ExtensionShape | backend/utils/file_utils.py:15-25 | the extension is empty or starts with a dot, is lower case, and ends the lower-cased name |
| FileUtils.IsAllowedFile | backend/utils/file_utils.py:28-48 | a file is allowed exactly when its extension is on the allowed list and not on the excluded list |
| FileUtils.BasenameShape | backend/services/analysis_service.py:124 | the base name is the longest slash-free suffix of the path |
| FileUtils.Join | backend/services/analysis_service.py:174 | joining with an absolute name gives the name; otherwise the directory, one slash if needed, and the name |
| FileUtils.ExtensionOfBasename | backend/utils/file_utils.py:25 | the extension of a path is the extension of its last component |
| FileUtils.BasenameOfJoin | backend/services/analysis_service.py:171-175 | the base name of a joined path is the plain file name that was joined |
| FileUtils.ExtensionOfJoin | backend/services/document_service.py:43 | the extractor dispatch sees the same extension as the filter saw on the bare file name |
| FileUtils.ExtensionIgnoresCase | backend/utils/file_utils.py:25 | names equal up to ASCII case have the same extension |
| FileUtils.AllowedIgnoresCase | backend/utils/file_utils.py:28-48 | the filter ignores ASCII case |
| FileUtils.ExtensionOfAppended | backend/utils/file_utils.py:25 | appending a dotted suffix makes it, lower-cased, the extension, unless the last component is only dots |
| FileUtils.ExtensionOfDoubleSuffix | backend/utils/file_utils.py:25 | "a.tar.GZ" has extension ".gz" |
| FileUtils.ExtensionOfDotFile | backend/utils/file_utils.py:25 | ".env" has no extension |
| FileUtils.ExtensionOfDottedDirectory | backend/utils/file_utils.py:25 | a dot in a directory name is not an extension |
| FileUtils.DefaultAcceptsListed | backend/utils/file_utils.py:28-48 | with the default settings .txt/.csv/.xlsx/.xls/.docx are accepted in any letter case |
| FileUtils.DefaultRejectsExcluded | backend/utils/file_utils.py:40-42 | with the default settings .pdf and .json are rejected in any letter case |
| FileUtils.NoExtensionRejected | backend/utils/file_utils.py:44-48 | a file without an extension is rejected unless the empty string is allowed |
| FileUtils.ExclusionWins | backend/utils/file_utils.py:40-42 | an excluded extension is rejected even when it is also allowed |
| Schemas.StringList | backend/models/schemas.py:35-40 | a list field validates exactly when it is a list of strings, and its value re-encodes to the input |
| Schemas.ToDocumentAnalysis | backend/models/schemas.py:30-45 | validation needs an object with `doc` and `category`; the fields it keeps are those of the input; absent lists default to empty |
| Schemas.DictRoundTrip | backend/models/schemas.py:30-45 | validating a document's own dictionary gives the document back |
| Schemas.UnknownCategoryRejected | backend/models/schemas.py:34 | a category string outside the five values fails validation |
| Schemas.NonObjectRejected | backend/services/analysis_service.py:153-157 | a reply that is not a JSON object cannot become a document |
| Schemas.TotalsAdd | backend/services/analysis_service.py:194-199 | adding to one category's tally raises that tally and leaves the other four alone |
| Schemas.CategoryCounts.constructor | backend/models/schemas.py:9-13 | both counters start at 0 and are natural numbers |
| Schemas.AggregateCounts.constructor | backend/models/schemas.py:20-27 | five distinct fresh counters, all zero |
| Schemas.AggregateCounts.Of | backend/services/analysis_service.py:195 | `getattr(aggregate, category)` is one of the aggregate's own counters |
| Schemas.AggregateCounts.OfInjective | backend/models/schemas.py:20-27 | distinct categories have distinct counters |
| Schemas.AnalysisResponse.Default | backend/models/schemas.py:48-67 | the defaults are no documents, an all-zero aggregate, an empty summary and no errors |
| Schemas.AnalysisResponse.constructor | backend/models/schemas.py:48-67 | the response holds exactly the given documents, aggregate, summary and error strings |
| Documents.ExtractorKeys | backend/services/document_service.py:49-56 | exactly six lower-case extensions have a reader, and both Excel extensions share one |
| Documents.Sample | backend/services/document_service.py:205 | the sample has at most 300 characters |
| Documents.ScoreSplits | backend/services/document_service.py:211-218 | a score is the keyword hits in the sample plus twice the hits in the file name |
| Documents.BestIndex | backend/services/document_service.py:221-222 | the chosen entry scores at least as high as every entry and strictly higher than every earlier one |
| Documents.CategorizeOtherIffAllZero | backend/services/document_service.py:220-230 | the category is `other` exactly when every category scores zero |
| Documents.CategorizeIsFirstMaximal | backend/services/document_service.py:221-227 | any other result is the first table entry with the highest score, and that score is positive |
| Documents.CategorizeIgnoresTail | backend/services/document_service.py:205 | characters from index 300 on never change the category |
| Documents.CategorizeIgnoresCase | backend/services/document_service.py:205-206 | changing the ASCII case of the text or the file name does not change the category |
| Documents.DocumentService.constructor | backend/services/document_service.py:25-27 | the service uses the keyword table |
| Documents.DocumentService.RunExtractor | backend/services/document_service.py:58-70 | a reader that catches its own errors never fails; the reader's text is returned; a raise becomes the empty text for a reader that catches its own errors and a failure with the reader's message otherwise |
| Documents.DocumentService.ExtractText | backend/services/document_service.py:29-77 | every failure is a `DocumentProcessingError` naming the file's base name |
| Documents.DocumentService.ExtractTextOutcomes | backend/services/document_service.py:42-77 | `None` exactly when no reader exists for the extension; a raise comes from a propagating reader with its message, and every raise of a propagating reader becomes a `DocumentProcessingError` naming the base name; text comes from the extension's reader |
| Documents.DocumentService.CategorizeDocument | backend/services/document_service.py:191-230 | the two scoring loops and the arg-max over the score map compute `Categorize` |
| Llm.GenerativeModel.constructor | backend/services/llm_service.py:32 | a new model has sent no prompt |
| Llm.GenerativeModel.GenerateContent | backend/services/llm_service.py:69-72 | one call appends its prompt to the log and returns the reply for that call number |
| Llm.QuotaTakesPriority | backend/services/llm_service.py:232-237 | a message mentioning a quota or a rate limit is reported as a quota problem |
| Llm.InvalidIsLastResort | backend/services/llm_service.py:232-245 | an invalid-request report means the message says "invalid" and matched no earlier class |
| Llm.LogApiErrorsIgnoresCase | backend/services/llm_service.py:232 | the classification ignores ASCII case |
| Llm.ObjectRequiredFields | backend/services/llm_service.py:117-118 | a decoded object is accepted exactly when it has the four keys |
| Llm.Mantissa | backend/services/llm_service.py:77 | the part of a number literal before its exponent: a prefix of the literal holding no exponent marker, stopped only by one |
| Llm.ZeroNumberFalse | backend/services/llm_service.py:77 | a number made only of zeros, signs and points before its exponent is false under Python's truth test |
| Llm.NonzeroNumberTrue | backend/services/llm_service.py:77 | a number with a non-zero digit before its exponent is true |
| Llm.AcceptedIsTruthy | backend/services/llm_service.py:75-83 | an accepted value is never falsy, so the `if result:` test passes |
| Llm.LlmService.constructor | backend/services/llm_service.py:29-37 | the service holds the given model and decoder |
| Llm.LlmService.ParseAnalysisOutcomes | backend/services/llm_service.py:94-130 | a reply is accepted exactly when it decodes to a value holding the four fields, and then unchanged; the parser raises exactly when `in` is undefined on the decoded value |
| Llm.LlmService.RetryAnalysisRun | backend/services/llm_service.py:132-180 | the retry sends one prompt carrying the first 1000 characters |
| Llm.LlmService.RetryAnalysisOutcome | backend/services/llm_service.py:151-180 | the retry gives a result exactly when its reply was text the parser accepted, and that result is what it accepted |
| Llm.LlmService.AnalyzeDocumentRun | backend/services/llm_service.py:39-92 | one or two prompts: the analysis prompt, then at most the retry prompt over the first 1000 characters |
| Llm.LlmService.AnalyzeDocumentCalls | backend/services/llm_service.py:60-92 | the second call happens exactly when the first reply was read and rejected; a raise gives `None`; any result is a reply the parser accepted; after a rejected first reply, a retry reply the parser accepts is the result |
| Llm.LlmService.SummaryOf | backend/services/llm_service.py:215-223 | a raise gives the fixed fallback sentence; otherwise the result is an infix of the reply with no whitespace at either end |
| Llm.LlmService.RetryAnalysis | backend/services/llm_service.py:132-180 | the method's result and prompts are those of `RetryAnalysisRun` |
| Llm.LlmService.AnalyzeDocument | backend/services/llm_service.py:39-92 | the method's result and prompts are those of `AnalyzeDocumentRun`; no raise escapes |
| Llm.LlmService.GenerateSummary | backend/services/llm_service.py:182-223 | exactly one summary prompt over the given analyses, and its result is `SummaryOf` the reply |
| Llm.NoRetryAfterRaise | backend/services/llm_service.py:60-92 | if the first call raises, the run is that one call and gives `None` |
| Llm.AcceptedReturnedUnchanged | backend/services/llm_service.py:75-83 | a first reply with the four keys and list-valued facts and red flags is returned as decoded, with no cap on list lengths |
| Llm.RunPromptTextBound | backend/services/llm_service.py:153-160 | the analysis prompt carries the text; the retry prompt carries a prefix of it of at most 1000 characters |
| Analysis.AllowedInSpec | backend/services/analysis_service.py:172-175 | a path comes from a directory exactly when it is the join of an accepted file name listed there |
| Analysis.ProcessableFilesSpec | backend/services/analysis_service.py:159-179 | a path is processable exactly when some directory of the walk lists an accepted file that joins to it |
| Analysis.DefaultNeverProcessesExcluded | backend/services/analysis_service.py:171-175 | with the default settings every processable path has one of the five listed extensions, so no PDF is ever processed |
| Analysis.SelectFiles | backend/services/analysis_service.py:169-179 | the nested loops compute `ProcessableFiles` |
| Analysis.OutcomeOf | backend/services/analysis_service.py:78-91 | a file is analysed exactly when processing gave a document, and then that document is kept; no document gives "Failed to analyze: " and the base name; a raise gives "Error processing ", the base name, ": " and the exception's text |
| Analysis.DocsAndErrorsPartition | backend/services/analysis_service.py:74-91 | documents plus errors number exactly the files processed |
| Analysis.OutcomesStep | backend/services/analysis_service.py:82-91 | one more file appends to the documents or to the errors |
| Analysis.CategoryCountsSumToTotals | backend/services/analysis_service.py:181-199 | the five categories' counts sum to the totals over all documents |
| Analysis.TotalsOfStep | backend/services/analysis_service.py:181-199 | one more document adds its list lengths to its own category's tally |
| Analysis.TotalsOfCounts | backend/services/analysis_service.py:181-199 | after the fold, each category's tally is the number of facts and of red flags its documents list |
| Analysis.AbsentCategoryIsZero | backend/services/analysis_service.py:63-91 | a category no document has keeps zero counts |
| Analysis.RunFiles | backend/services/analysis_service.py:74-91 | the loop gives one outcome per file |
| Analysis.RunFilesStep | backend/services/analysis_service.py:74-91 | one more file appends its outcome and its prompts |
| Analysis.RunFilesPrefix | backend/services/analysis_service.py:74-91 | the outcomes of the first `k` files are the first `k` outcomes |
| Analysis.RunFilesOutcomeAt | backend/services/analysis_service.py:74-84 | outcome `i` belongs to file `i`, so the documents keep the listing order |
| Analysis.RunFilesPromptsFrom | backend/services/analysis_service.py:74-80 | every prompt of the loop comes from processing one of its files |
| Analysis.FilesStateStep | backend/services/analysis_service.py:78-91 | handling one more file as the loop body does keeps documents, errors and prompts equal to those of `RunFiles` |
| Analysis.NothingToProcess | backend/services/analysis_service.py:68-91 | a walk in which no file name is accepted has no processable file, and the loop over it gives no outcome and sends no prompt |
| Analysis.AsDicts | backend/services/analysis_service.py:95-97 | one dictionary per document |
| Analysis.AsDictsRoundTrip | backend/services/analysis_service.py:95-97 | each dictionary sent to the summary validates back to its document |
| Analysis.AnalysisService.constructor | backend/services/analysis_service.py:32-45 | the service holds the two services and the settings |
| Analysis.AnalysisService.AnalyzeExtracted | backend/services/analysis_service.py:134-157 | after extraction: the analysis prompt over the truncated text and its category, then at most the retry prompt; never a raise; the result is the model's accepted reply validated as a document, or `None` when there is no reply |
| Analysis.AnalysisService.AnalyzeExtractedPrompts | backend/services/analysis_service.py:134-146 | the prompts name the file and carry at most the configured length, a retry at most 1000 characters |
| Analysis.AnalysisService.ProcessDocumentRun | backend/services/analysis_service.py:111-157 | a failure is an extraction error naming the base name and sends no prompt; at most two prompts |
| Analysis.AnalysisService.ProcessDocumentResult | backend/services/analysis_service.py:111-157 | an extraction failure is raised unchanged; no text gives `None`; otherwise the document is the validated accepted reply about the truncated text, or `None` |
| Analysis.AnalysisService.ProcessDocumentAsksIffText | backend/services/analysis_service.py:126-146 | the model is asked exactly when extraction gave a non-empty text, and then about that text under the base name |
| Analysis.AnalysisService.ProcessDocument | backend/services/analysis_service.py:111-157 | the method's result and prompts are those of `ProcessDocumentRun` |
| Analysis.AnalysisService.GetProcessableFiles | backend/services/analysis_service.py:159-179 | the files listed are `ProcessableFiles` under the configured filter |
| Analysis.AnalysisService.UpdateAggregate | backend/services/analysis_service.py:181-199 | the document's category gains its numbers of facts and red flags; the other counters keep their values |
| Analysis.AnalysisService.AnalyzeFile | backend/services/analysis_service.py:75-91 | one loop pass appends the document or the error and adds the counts only for an analysed document |
| Analysis.AnalysisService.AnalyzeNext | backend/services/analysis_service.py:74-91 | one loop pass keeps the loop invariant, one file further on |
| Analysis.AnalysisService.AnalyzeFiles | backend/services/analysis_service.py:62-91 | documents, errors and prompts are those of `RunFiles`, and the counters hold `TotalsOf(documents)` |
| Analysis.AnalysisService.AnalyzeDirectory | backend/services/analysis_service.py:47-109 | the response's documents and errors are those of `RunFiles` over the processable files; its counters are the per-category sums; exactly one summary prompt over the documents comes last, and its result is the summary |
| Analysis.ProcessDocumentPrompts | backend/services/analysis_service.py:124-146 | every prompt sent for a file names its base name and respects the length limits |

## Where the design and the code differ

The model follows the code in each case.

- **Concurrency:** the design describes concurrent per-document processing with a bounded gate. The code awaits each file in turn.
- **Length limits:** the design enforces 1-5 facts and 0-5 red flags. The code accepts any reply with the four keys and imposes no length limit.
- **Failed analysis:** the design degrades a failed analysis to an empty document. The code drops the document and records the string "Failed to analyze: name".
- **Summary fallback:** the design builds the summary fallback from the counts. The code returns a fixed sentence when the call raises, and the stripped reply otherwise, even when that is empty.
- **Empty input:** the design gives the fallback summary when there are no documents. The code still asks the model, over an empty list.
- **Errors:** the design's errors are `{doc, message}` records. The code uses plain strings.
- **Document fields:** a document's `doc` and `category` are the values the model returned. The aggregate counts under the model's category, not under the keyword categoriser's.
- **PDF:** the design lists PDF as an input format. The default settings exclude `.pdf`, so PDFs are never processed.

## Left out

- **Readers:** the per-format readers are modelled by one function parameter, `readFile`. Whether a reader catches its own errors is kept (CSV, Excel and PDF return an empty string; text and Word readers propagate). The text they produce is not modelled. These are `_extract_txt_text`, `_extract_docx_text`, `_extract_pdf_text`, `_extract_excel_text`, `_extract_csv_text` and `_dataframe_to_text`.
- **Gemini:** the Gemini client is a reply function of call number and prompt. Temperature and token settings are floating-point tuning knobs with no effect on control flow.
- **Prompt templates:** a prompt is modelled by the values of its placeholders. Its rendered text is not modelled.
- **JSON:** `json.loads` and `json.dumps` are library code. Decoding is the `loads` parameter, and the summary prompt carries the list of dictionaries.
- **extract_json_from_markdown:** never called by the pipeline; its meaning depends on the regular-expression engine.
- **Files and archives:** `validate_zip_file`, `extract_zip_file` and `get_all_files_in_directory` do archive and filesystem I/O. The directory walk is a sequence of `(directory, file names)` entries.
- **Settings:** environment loading and every setting the core does not read are not modelled. The core reads the text length and the two extension lists.
- **Logging:** all logging is left out, and so is the logging module. The one log line that can raise, by counting the reply's lists, is modelled, because it changes the result.
- **Interface and wiring:** the HTTP layer, dependency wiring, `AnalysisStatus`, `ErrorResponse` and `ExportService` are outside the core.
- **Case and paths:** `str.lower` is modelled on ASCII letters only. Paths are POSIX paths.
- **Python exceptions:** only those that change a result are modelled: `TypeError` from `in`, `AttributeError` from `.get`, `ValueError` from validation.
- **Analysis.AnalysisService.process:** a ghost field that names `_process_document` as a value, so that the loop can be specified by `RunFiles`. The class invariant ties it to `ProcessDocumentRun`.
- **Loop body:** `AnalyzeFile` and `AnalyzeNext` hold the body of the directory loop as separate methods. The source writes that body inline.
- **TextUtils.TruncateText:** for a negative limit the contract states only that the result is a prefix, not its length. A negative limit is reachable only through a misconfigured setting.
- **Llm.Truthy:** a number is false when every digit before its exponent is zero. A non-zero literal that underflows to `0.0` when decoded, such as `1e-400`, is counted as true here; Python counts it false.
- **Documents.DocumentService.RunExtractor:** the text a reader produces, and whether it raises, is library code and a parameter here; the model states what each outcome becomes.
- **Llm.LlmService.AnalyzeDocument:** "never raises" is carried by its type, which has no error case, rather than by a clause.
