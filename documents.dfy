/** The document service: text extraction dispatched on the file extension
    and keyword-based categorisation. The per-format readers are library
    code and appear as one function parameter. */
module Documents {
  import opened Outcomes
  import opened Strings
  import opened Constants
  import opened Exceptions
  import opened FileUtils

  /** The per-format readers. */
  datatype Reader = TxtReader | CsvReader | ExcelReader | DocxReader | PdfReader

  /** What a reader does with a path: produce text, or raise with the given
      message. */
  datatype ReadOutcome = Read(text: string) | ReadRaised(reason: string)

  type ReadFile = (Reader, string) -> ReadOutcome

  /** The dispatch table of `extract_text`, keyed by lower-cased extension. */
  function ExtractorFor(ext: string): Option<Reader> {
    if ext == ".txt" then Some(TxtReader)
    else if ext == ".csv" then Some(CsvReader)
    else if ext == ".xlsx" then Some(ExcelReader)
    else if ext == ".xls" then Some(ExcelReader)
    else if ext == ".docx" then Some(DocxReader)
    else if ext == ".pdf" then Some(PdfReader)
    else None
  }

  /** Six extensions have a reader; both Excel extensions share one. */
  lemma ExtractorKeys(ext: string)
    ensures ExtractorFor(ext).Some? <==> ext in [".txt", ".csv", ".xlsx", ".xls", ".docx", ".pdf"]
    ensures ExtractorFor(ext) == Some(ExcelReader) <==> ext == ".xlsx" || ext == ".xls"
  {
  }

  /** The CSV, Excel and PDF readers catch their own failures and return the
      empty string; the text and Word readers let them propagate. */
  predicate CatchesOwnErrors(reader: Reader) {
    reader == CsvReader || reader == ExcelReader || reader == PdfReader
  }

  /** The first 300 characters of the text, lower-cased. */
  function Sample(text: string): (r: string)
    ensures |r| <= 300
  {
    Lower(SliceTo(text, 300))
  }

  /** A list's contribution to its category's score: each keyword's
      occurrences in the sample plus twice those in the file name. */
  function KeywordScore(words: seq<string>, sample: string, name: string): nat
  {
    if words == [] then 0
    else
      var k := words[|words| - 1];
      KeywordScore(words[..|words| - 1], sample, name) + Count(sample, k) + 2 * Count(name, k)
  }

  /** Occurrences of all keywords in one string. */
  function Hits(words: seq<string>, s: string): nat {
    if words == [] then 0 else Hits(words[..|words| - 1], s) + Count(s, words[|words| - 1])
  }

  /** The score splits into hits in the sample and doubled hits in the name. */
  lemma {:induction false} ScoreSplits(words: seq<string>, sample: string, name: string)
    ensures KeywordScore(words, sample, name) == Hits(words, sample) + 2 * Hits(words, name)
    decreases |words|
  {
    if words != [] {
      ScoreSplits(words[..|words| - 1], sample, name);
    }
  }

  /** The score of the `i`-th table entry. */
  function Score(table: KeywordTable, i: int, sample: string, name: string): nat
    requires 0 <= i < |table|
  {
    KeywordScore(table[i].1, sample, name)
  }

  /** The first entry, among the first `n`, with the highest score. */
  function BestIndex(table: KeywordTable, sample: string, name: string, n: nat): (b: nat)
    requires 0 < n <= |table|
    ensures b < n
    ensures forall j :: 0 <= j < n ==> Score(table, j, sample, name) <= Score(table, b, sample, name)
    ensures forall j :: 0 <= j < b ==> Score(table, j, sample, name) < Score(table, b, sample, name)
  {
    if n == 1 then 0
    else
      var b := BestIndex(table, sample, name, n - 1);
      if Score(table, n - 1, sample, name) > Score(table, b, sample, name) then n - 1 else b
  }

  /** `categorize_document` as a function of the keyword table. */
  function Categorize(table: KeywordTable, filename: string, text: string): Category {
    var sample := Sample(text);
    var name := Lower(filename);
    if |table| == 0 then Other
    else
      var b := BestIndex(table, sample, name, |table|);
      if Score(table, b, sample, name) > 0 then table[b].0 else Other
  }

  /** The result is `Other` exactly when every category scores zero. */
  lemma CategorizeOtherIffAllZero(table: KeywordTable, filename: string, text: string)
    requires ValidTable(table)
    ensures Categorize(table, filename, text) == Other <==>
              forall j :: 0 <= j < |table| ==> Score(table, j, Sample(text), Lower(filename)) == 0
  {
    if |table| > 0 {
      var b := BestIndex(table, Sample(text), Lower(filename), |table|);
      assert table[b].0 != Other;
    }
  }

  /** A category other than `Other` is the first entry with the highest
      score, and that score is positive. */
  lemma CategorizeIsFirstMaximal(table: KeywordTable, filename: string, text: string)
    requires ValidTable(table)
    requires Categorize(table, filename, text) != Other
    ensures exists i :: 0 <= i < |table| && table[i].0 == Categorize(table, filename, text)
              && Score(table, i, Sample(text), Lower(filename)) > 0
              && (forall j :: 0 <= j < |table| ==>
                    Score(table, j, Sample(text), Lower(filename)) <= Score(table, i, Sample(text), Lower(filename)))
              && (forall j :: 0 <= j < i ==>
                    Score(table, j, Sample(text), Lower(filename)) < Score(table, i, Sample(text), Lower(filename)))
  {
    var b := BestIndex(table, Sample(text), Lower(filename), |table|);
    assert table[b].0 == Categorize(table, filename, text);
  }

  /** Characters from index 300 on never matter. */
  lemma CategorizeIgnoresTail(table: KeywordTable, filename: string, text: string, tail: string)
    requires |text| >= 300
    ensures Categorize(table, filename, text + tail) == Categorize(table, filename, text)
  {
    assert SliceTo(text + tail, 300) == SliceTo(text, 300);
  }

  /** Changing the ASCII letter case of the text or the file name does not
      change the category. */
  lemma CategorizeIgnoresCase(table: KeywordTable, filename: string, filename': string, text: string, text': string)
    requires Lower(filename) == Lower(filename') && Lower(text) == Lower(text')
    ensures Categorize(table, filename, text) == Categorize(table, filename', text')
  {
    LowerSliceTo(text, 300);
    LowerSliceTo(text', 300);
  }

  /** `DocumentService`. */
  class DocumentService {
    const keywords: KeywordTable
    const readFile: ReadFile

    ghost predicate Valid() {
      ValidTable(keywords)
    }

    constructor (readFile: ReadFile)
      ensures keywords == CategoryKeywords && this.readFile == readFile
      ensures Valid()
    {
      keywords := CategoryKeywords;
      this.readFile := readFile;
      new;
      CategoryKeywordsShape();
    }

    /** Running one reader, with the failure handling that reader has. */
    function RunExtractor(reader: Reader, path: string): (r: Result<string, string>)
      ensures CatchesOwnErrors(reader) ==> r.Success?
      ensures readFile(reader, path).Read? ==> r == Success(readFile(reader, path).text)
      ensures readFile(reader, path).ReadRaised? ==>
                r == if CatchesOwnErrors(reader) then Success("") else Failure(readFile(reader, path).reason)
    {
      match readFile(reader, path)
      case Read(text) => Success(text)
      case ReadRaised(reason) => if CatchesOwnErrors(reader) then Success("") else Failure(reason)
    }

    /** `extract_text`: `None` for an extension without a reader, otherwise
        the reader's text; a failure becomes a `DocumentProcessingError`
        naming the file's base name. */
    function ExtractText(path: string): (r: Result<Option<string>, VdrException>)
      ensures r.Failure? ==> r.error.DocumentProcessingError? && r.error.filename == Basename(path)
    {
      match ExtractorFor(GetFileExtension(path))
      case None => Success(None)
      case Some(reader) =>
        match RunExtractor(reader, path)
        case Success(text) => Success(Some(text))
        case Failure(reason) => Failure(DocumentProcessingError(Basename(path), reason))
    }

    /** No reader means no text; a raise comes from a reader that lets its
        failures propagate, and carries the reader's message; text comes
        from the reader of the file's extension. */
    lemma ExtractTextOutcomes(path: string)
      ensures ExtractorFor(GetFileExtension(path)).None? <==> ExtractText(path) == Success(None)
      ensures ExtractText(path).Failure? ==>
                && ExtractorFor(GetFileExtension(path)).Some?
                && !CatchesOwnErrors(ExtractorFor(GetFileExtension(path)).value)
                && readFile(ExtractorFor(GetFileExtension(path)).value, path) == ReadRaised(ExtractText(path).error.reason)
      ensures ExtractText(path).Success? && ExtractText(path).value.Some? ==>
                && ExtractorFor(GetFileExtension(path)).Some?
                && RunExtractor(ExtractorFor(GetFileExtension(path)).value, path) == Success(ExtractText(path).value.value)
      ensures forall reader, m ::
                ExtractorFor(GetFileExtension(path)) == Some(reader) && !CatchesOwnErrors(reader)
                && readFile(reader, path) == ReadRaised(m) ==>
                  ExtractText(path) == Failure(DocumentProcessingError(Basename(path), m))
    {
    }

    /** `categorize_document`: scores every table entry into a map, then
        picks the first entry with the highest score, or `Other` when
        nothing scored. */
    method CategorizeDocument(filename: string, text: string) returns (category: Category)
      requires Valid()
      ensures category == Categorize(keywords, filename, text)
    {
      var sample := Lower(SliceTo(text, 300));
      var name := Lower(filename);
      var scores: map<Category, nat> := map[];
      var i := 0;
      while i < |keywords|
        invariant 0 <= i <= |keywords|
        invariant forall j :: 0 <= j < i ==>
                    keywords[j].0 in scores && scores[keywords[j].0] == Score(keywords, j, sample, name)
      {
        var words := keywords[i].1;
        var score := 0;
        var k := 0;
        while k < |words|
          invariant 0 <= k <= |words|
          invariant score == KeywordScore(words[..k], sample, name)
        {
          score := score + Count(sample, words[k]);
          score := score + Count(name, words[k]) * 2;
          k := k + 1;
          assert words[..k][..k - 1] == words[..k - 1];
        }
        assert words[..k] == words;
        scores := scores[keywords[i].0 := score];
        i := i + 1;
      }
      if |keywords| == 0 {
        return Other;
      }
      var best := 0;
      i := 1;
      while i < |keywords|
        invariant 1 <= i <= |keywords|
        invariant best == BestIndex(keywords, sample, name, i)
      {
        if scores[keywords[i].0] > scores[keywords[best].0] {
          best := i;
        }
        i := i + 1;
      }
      if scores[keywords[best].0] > 0 {
        category := keywords[best].0;
      } else {
        category := Other;
      }
    }
  }
}
