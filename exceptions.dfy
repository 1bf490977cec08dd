/** The application's exception hierarchy: a base exception carrying a
    message, optional details and an optional error code, and three
    subclasses that build their message from a file name. */
module Exceptions {
  import opened Outcomes
  import opened Strings

  const DocumentProcessingPrefix: string := "Failed to process document: "
  const LlmAnalysisPrefix: string := "Failed to analyze document with LLM: "
  const FileValidationPrefix: string := "File validation failed: "

  /** `VDRException` and its subclasses, one constructor each. */
  datatype VdrException =
    | VdrError(message: string, details: Option<string>, errorCode: Option<string>)
    | DocumentProcessingError(filename: string, reason: string)
    | LlmAnalysisError(filename: string, reason: string)
    | FileValidationError(filename: string, reason: string)
  {
    /** The `message` attribute. */
    function Message(): string {
      match this
      case VdrError(m, _, _) => m
      case DocumentProcessingError(f, _) => DocumentProcessingPrefix + f
      case LlmAnalysisError(f, _) => LlmAnalysisPrefix + f
      case FileValidationError(f, _) => FileValidationPrefix + f
    }

    /** The `details` attribute: a subclass passes its reason. */
    function Details(): Option<string> {
      match this
      case VdrError(_, d, _) => d
      case DocumentProcessingError(_, r) => Some(r)
      case LlmAnalysisError(_, r) => Some(r)
      case FileValidationError(_, r) => Some(r)
    }

    /** The `error_code` attribute. */
    function ErrorCode(): Option<string> {
      match this
      case VdrError(_, _, c) => c
      case DocumentProcessingError(_, _) => Some("DOC_PROCESS_ERROR")
      case LlmAnalysisError(_, _) => Some("LLM_ANALYSIS_ERROR")
      case FileValidationError(_, _) => Some("FILE_VALIDATION_ERROR")
    }

    /** `str(e)`: the base constructor hands the message to `Exception`. */
    function Str(): string {
      Message()
    }
  }

  /** Reads a subclass message back: which error code produced it and the
      file name it carries. The inverse of `Message` on the subclasses. */
  function ParseMessage(message: string): Option<(string, string)> {
    if StartsWith(message, DocumentProcessingPrefix) then
      Some(("DOC_PROCESS_ERROR", message[|DocumentProcessingPrefix|..]))
    else if StartsWith(message, LlmAnalysisPrefix) then
      Some(("LLM_ANALYSIS_ERROR", message[|LlmAnalysisPrefix|..]))
    else if StartsWith(message, FileValidationPrefix) then
      Some(("FILE_VALIDATION_ERROR", message[|FileValidationPrefix|..]))
    else None
  }

  /** A subclass's string form determines both its error code and the
      unchanged file name it was built from. */
  lemma MessageRoundTrip(e: VdrException)
    requires !e.VdrError?
    ensures e.ErrorCode().Some?
    ensures ParseMessage(e.Str()) == Some((e.ErrorCode().value, e.filename))
  {
    var m := e.Str();
    match e
    case DocumentProcessingError(f, _) =>
      assert m[..|DocumentProcessingPrefix|] == DocumentProcessingPrefix;
    case LlmAnalysisError(f, _) =>
      DiffersAt(m, DocumentProcessingPrefix, 10);
      assert m[..|LlmAnalysisPrefix|] == LlmAnalysisPrefix;
    case FileValidationError(f, _) =>
      DiffersAt(m, DocumentProcessingPrefix, 1);
      DiffersAt(m, LlmAnalysisPrefix, 1);
      assert m[..|FileValidationPrefix|] == FileValidationPrefix;
  }

  /** A string that differs from `p` at some index of both does not start
      with `p`. */
  lemma DiffersAt(s: string, p: string, i: nat)
    requires i < |p| && i < |s| && s[i] != p[i]
    ensures !StartsWith(s, p)
  {
    if |p| <= |s| {
      assert s[..|p|][i] == s[i];
    }
  }
}
