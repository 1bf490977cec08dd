/** Document categories and the keyword table that drives categorisation. */
module Constants {
  import opened Outcomes
  import opened Strings

  /** `DocumentCategory`: a string enum with exactly these five members. */
  datatype Category = Financial | Legal | Commercial | Operations | Other {

    /** The member's string value. */
    function Value(): string {
      match this
      case Financial => "financial"
      case Legal => "legal"
      case Commercial => "commercial"
      case Operations => "operations"
      case Other => "other"
    }
  }

  /** `DocumentCategory(s)`: the member whose value is `s`; any other string
      is a `ValueError`, here `None`. */
  function CategoryFromValue(s: string): (r: Option<Category>)
    ensures r.Some? ==> r.value.Value() == s
  {
    if s == "financial" then Some(Financial)
    else if s == "legal" then Some(Legal)
    else if s == "commercial" then Some(Commercial)
    else if s == "operations" then Some(Operations)
    else if s == "other" then Some(Other)
    else None
  }

  lemma CategoryValueRoundTrip(c: Category)
    ensures CategoryFromValue(c.Value()) == Some(c)
  {
  }

  /** The keyword table: categories in dictionary (insertion) order, each
      with its keywords in order. */
  type KeywordTable = seq<(Category, seq<string>)>

  /** What a Python dict literal guarantees of the table (no key twice),
      and that `Other` has no keywords. */
  ghost predicate ValidTable(table: KeywordTable) {
    && (forall i, j :: 0 <= i < j < |table| ==> table[i].0 != table[j].0)
    && (forall i :: 0 <= i < |table| ==> table[i].0 != Other)
  }

  /** The keywords listed for `c`, or none. */
  function KeywordsOf(table: KeywordTable, c: Category): seq<string> {
    if table == [] then []
    else if table[0].0 == c then table[0].1
    else KeywordsOf(table[1..], c)
  }

  const FinancialKeywords: seq<string> := [
    "revenue", "profit", "loss", "cash", "debt", "equity",
    "financial", "audit", "accounting", "budget", "forecast",
    "ebitda", "margins", "balance sheet", "income statement",
    "expenses", "assets", "liabilities", "capital"]

  const LegalKeywords: seq<string> := [
    "contract", "agreement", "terms", "conditions", "liability",
    "indemnity", "warranty", "compliance", "regulation", "legal",
    "law", "court", "litigation", "dispute", "clause", "covenant",
    "jurisdiction", "governing law", "arbitration"]

  const CommercialKeywords: seq<string> := [
    "customer", "client", "sales", "marketing", "pricing",
    "competition", "market", "brand", "product", "service",
    "revenue", "growth", "acquisition", "retention", "segment",
    "channel", "distribution", "partnership"]

  const OperationsKeywords: seq<string> := [
    "process", "production", "manufacturing", "supply", "logistics",
    "quality", "safety", "environment", "facility", "equipment",
    "staff", "training", "procedure", "workflow", "inventory",
    "maintenance", "efficiency", "capacity"]

  /** `CATEGORY_KEYWORDS`. */
  const CategoryKeywords: KeywordTable := [
    (Financial, FinancialKeywords),
    (Legal, LegalKeywords),
    (Commercial, CommercialKeywords),
    (Operations, OperationsKeywords)]

  /** Looking the table up by category finds each category's own list. */
  lemma KeywordsOfCategoryKeywords()
    ensures KeywordsOf(CategoryKeywords, Financial) == FinancialKeywords
    ensures KeywordsOf(CategoryKeywords, Legal) == LegalKeywords
    ensures KeywordsOf(CategoryKeywords, Commercial) == CommercialKeywords
    ensures KeywordsOf(CategoryKeywords, Operations) == OperationsKeywords
    ensures KeywordsOf(CategoryKeywords, Other) == []
  {
    var t1 := CategoryKeywords[1..];
    var t2 := t1[1..];
    var t3 := t2[1..];
    assert t1[0].0 == Legal && t2[0].0 == Commercial && t3[0].0 == Operations;
    assert t3[1..] == [];
    forall c | c != Financial
      ensures KeywordsOf(CategoryKeywords, c) == KeywordsOf(t1, c)
    {
    }
    forall c | c != Financial && c != Legal
      ensures KeywordsOf(t1, c) == KeywordsOf(t2, c)
    {
    }
    forall c | c != Financial && c != Legal && c != Commercial
      ensures KeywordsOf(t2, c) == KeywordsOf(t3, c)
    {
    }
    assert KeywordsOf(t3, Other) == KeywordsOf(t3[1..], Other);
  }

  /** Four entries in the order financial, legal, commercial, operations
      (the categoriser's tie-break order), none for `Other`, no key twice. */
  lemma CategoryKeywordsShape()
    ensures ValidTable(CategoryKeywords)
    ensures seq(|CategoryKeywords|, i requires 0 <= i < |CategoryKeywords| => CategoryKeywords[i].0)
         == [Financial, Legal, Commercial, Operations]
  {
  }

  /** Every keyword is already lower case, so matching it against lowered
      text is case-insensitive matching. Some keywords are phrases. */
  lemma KeywordsAreLowercase()
    ensures forall i, k :: 0 <= i < |CategoryKeywords| && k in CategoryKeywords[i].1 ==> Lower(k) == k
    ensures "balance sheet" in KeywordsOf(CategoryKeywords, Financial)
  {
    KeywordsOfCategoryKeywords();
    FinancialKeywordsLowercase();
    LegalKeywordsLowercase();
    CommercialKeywordsLowercase();
    OperationsKeywordsLowercase();
  }

  lemma FinancialKeywordsLowercase()
    ensures forall k <- FinancialKeywords :: Lower(k) == k
  {
    var words := FinancialKeywords;
    FinancialHeadNoUpper();
    FinancialTailNoUpper();
    ListIsLowercase(words[..10]);
    ListIsLowercase(words[10..]);
    assert words == words[..10] + words[10..];
  }

  lemma FinancialHeadNoUpper()
    ensures forall k <- FinancialKeywords[..10] :: NoUpper(k)
  {
  }

  lemma FinancialTailNoUpper()
    ensures forall k <- FinancialKeywords[10..] :: NoUpper(k)
  {
  }

  lemma LegalKeywordsLowercase()
    ensures forall k <- LegalKeywords :: Lower(k) == k
  {
    var words := LegalKeywords;
    LegalHeadNoUpper();
    LegalTailNoUpper();
    ListIsLowercase(words[..10]);
    ListIsLowercase(words[10..]);
    assert words == words[..10] + words[10..];
  }

  lemma LegalHeadNoUpper()
    ensures forall k <- LegalKeywords[..10] :: NoUpper(k)
  {
  }

  lemma LegalTailNoUpper()
    ensures forall k <- LegalKeywords[10..] :: NoUpper(k)
  {
  }

  lemma CommercialKeywordsLowercase()
    ensures forall k <- CommercialKeywords :: Lower(k) == k
  {
    var words := CommercialKeywords;
    CommercialHeadNoUpper();
    CommercialTailNoUpper();
    ListIsLowercase(words[..10]);
    ListIsLowercase(words[10..]);
    assert words == words[..10] + words[10..];
  }

  lemma CommercialHeadNoUpper()
    ensures forall k <- CommercialKeywords[..10] :: NoUpper(k)
  {
  }

  lemma CommercialTailNoUpper()
    ensures forall k <- CommercialKeywords[10..] :: NoUpper(k)
  {
  }

  lemma OperationsKeywordsLowercase()
    ensures forall k <- OperationsKeywords :: Lower(k) == k
  {
    var words := OperationsKeywords;
    OperationsHeadNoUpper();
    OperationsTailNoUpper();
    ListIsLowercase(words[..10]);
    ListIsLowercase(words[10..]);
    assert words == words[..10] + words[10..];
  }

  lemma OperationsHeadNoUpper()
    ensures forall k <- OperationsKeywords[..10] :: NoUpper(k)
  {
  }

  lemma OperationsTailNoUpper()
    ensures forall k <- OperationsKeywords[10..] :: NoUpper(k)
  {
  }

  predicate NoUpper(k: string) {
    forall c <- k :: !('A' <= c <= 'Z')
  }

  lemma ListIsLowercase(words: seq<string>)
    requires forall k <- words :: NoUpper(k)
    ensures forall k <- words :: Lower(k) == k
  {
    forall k <- words ensures Lower(k) == k {
      assert NoUpper(k);
      assert forall j :: 0 <= j < |k| ==> k[j] in k;
    }
  }

  /** "revenue" is listed for both financial and commercial, so one
      occurrence raises both scores. */
  lemma RevenueListedTwice()
    ensures "revenue" in KeywordsOf(CategoryKeywords, Financial)
    ensures "revenue" in KeywordsOf(CategoryKeywords, Commercial)
  {
    KeywordsOfCategoryKeywords();
  }

  /** "governing law" contains the legal keyword "law": one occurrence of
      the phrase is counted once for each of the two keywords. */
  lemma GoverningLawCountsTwice()
    ensures "governing law" in KeywordsOf(CategoryKeywords, Legal)
    ensures "law" in KeywordsOf(CategoryKeywords, Legal)
    ensures Count("governing law", "governing law") == 1
    ensures Count("governing law", "law") == 1
  {
    KeywordsOfCategoryKeywords();
    var s := "governing law";
    assert Count(s, s) == 1 + Count(s[|s|..], s);
    forall i | 0 <= i < 10 ensures !OccursAt(s, "law", i) {
      assert s[i] != 'l';
    }
    CountSkip(s, "law", 10);
    assert s[10..] == "law";
  }
}
