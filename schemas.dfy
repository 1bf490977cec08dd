/** The response schemas: per-document analyses, the per-category counters
    the orchestrator updates in place, and the response that carries them. */
module Schemas {
  import opened Outcomes
  import opened Json
  import opened Constants

  /** `DocumentAnalysis`: the category is kept as one of the five members
      (the schema stores its string value). */
  datatype DocumentAnalysis = DocumentAnalysis(
    doc: string,
    category: Category,
    facts: seq<string>,
    redFlags: seq<string>)

  /** A list of strings as JSON. */
  function StringsAsJson(ss: seq<string>): (r: Json)
    ensures r.JArray? && |r.items| == |ss|
    ensures forall i :: 0 <= i < |ss| ==> r.items[i] == JString(ss[i])
  {
    JArray(seq(|ss|, i requires 0 <= i < |ss| => JString(ss[i])))
  }

  /** `analysis.dict()`: the field names as keys, the category as its
      string value. */
  function AsDict(a: DocumentAnalysis): Json {
    JObject(map[
      "doc" := JString(a.doc),
      "category" := JString(a.category.Value()),
      "facts" := StringsAsJson(a.facts),
      "red_flags" := StringsAsJson(a.redFlags)])
  }

  /** Validation of a `List[str]` field: a list whose items are all
      strings, or a validation error. */
  function StringList(v: Json): (r: Option<seq<string>>)
    ensures r.Some? ==> StringsAsJson(r.value) == v
    ensures v.JArray? && (forall i :: 0 <= i < |v.items| ==> v.items[i].JString?) ==> r.Some?
  {
    if v.JArray? && forall i :: 0 <= i < |v.items| ==> v.items[i].JString? then
      var ss := seq(|v.items|, i requires 0 <= i < |v.items| => v.items[i].s);
      assert StringsAsJson(ss).items == v.items;
      Some(ss)
    else None
  }

  /** A list field with a default: absent means the empty list. */
  function ListField(fields: map<string, Json>, key: string): Option<seq<string>> {
    if key in fields then StringList(fields[key]) else Some([])
  }

  /** A required string field. */
  function StringField(fields: map<string, Json>, key: string): Option<string> {
    if key in fields && fields[key].JString? then Some(fields[key].s) else None
  }

  /** `DocumentAnalysis(**d)`: keyword arguments need a mapping; `doc` must
      be a string, `category` one of the five values, `facts` and
      `red_flags` lists of strings defaulting to empty; other keys are
      ignored; nothing bounds the list lengths. */
  function ToDocumentAnalysis(v: Json): (r: Option<DocumentAnalysis>)
    ensures r.Some? ==> v.JObject? && "doc" in v.fields && "category" in v.fields
    ensures r.Some? ==> forall k :: k in v.fields && k in AsDict(r.value).fields ==>
                          v.fields[k] == AsDict(r.value).fields[k]
    ensures r.Some? && "facts" !in v.fields ==> r.value.facts == []
    ensures r.Some? && "red_flags" !in v.fields ==> r.value.redFlags == []
  {
    match v
    case JObject(fields) =>
      var doc := StringField(fields, "doc");
      var category := StringField(fields, "category");
      var member := if category.Some? then CategoryFromValue(category.value) else None;
      var facts := ListField(fields, "facts");
      var redFlags := ListField(fields, "red_flags");
      if doc.Some? && member.Some? && facts.Some? && redFlags.Some? then
        Some(DocumentAnalysis(doc.value, member.value, facts.value, redFlags.value))
      else None
    case _ => None
  }

  /** Validating a document's own dictionary gives the document back. */
  lemma DictRoundTrip(a: DocumentAnalysis)
    ensures ToDocumentAnalysis(AsDict(a)) == Some(a)
  {
    var fields := AsDict(a).fields;
    CategoryValueRoundTrip(a.category);
    assert StringList(fields["facts"]).Some?;
    assert StringList(fields["red_flags"]).Some?;
    StringsAsJsonInjective(StringList(fields["facts"]).value, a.facts);
    StringsAsJsonInjective(StringList(fields["red_flags"]).value, a.redFlags);
  }

  lemma StringsAsJsonInjective(xs: seq<string>, ys: seq<string>)
    requires StringsAsJson(xs) == StringsAsJson(ys)
    ensures xs == ys
  {
    assert |xs| == |ys|;
    forall i | 0 <= i < |xs| ensures xs[i] == ys[i] {
      assert StringsAsJson(xs).items[i] == StringsAsJson(ys).items[i];
    }
  }

  /** A category string outside the five values fails validation. */
  lemma UnknownCategoryRejected(v: Json)
    requires v.JObject? && "category" in v.fields && v.fields["category"].JString?
    requires CategoryFromValue(v.fields["category"].s).None?
    ensures ToDocumentAnalysis(v) == None
  {
  }

  /** Only a JSON object can be spread into keyword arguments. */
  lemma NonObjectRejected(v: Json)
    requires !v.JObject?
    ensures ToDocumentAnalysis(v) == None
  {
  }

  /** The facts and the red flags counted for one category. */
  datatype Tally = Tally(facts: nat, redFlags: nat)

  /** What the five counters of an `AggregateCounts` hold, one tally per
      category. */
  datatype Totals = Totals(financial: Tally, legal: Tally, operations: Tally, commercial: Tally, other: Tally) {

    function Of(c: Category): Tally {
      match c
      case Financial => financial
      case Legal => legal
      case Operations => operations
      case Commercial => commercial
      case Other => other
    }

    /** `facts` more facts and `redFlags` more red flags for `c`. */
    function Add(c: Category, facts: nat, redFlags: nat): Totals {
      var t := Tally(Of(c).facts + facts, Of(c).redFlags + redFlags);
      match c
      case Financial => this.(financial := t)
      case Legal => this.(legal := t)
      case Operations => this.(operations := t)
      case Commercial => this.(commercial := t)
      case Other => this.(other := t)
    }
  }

  const NoCounts: Totals := Totals(Tally(0, 0), Tally(0, 0), Tally(0, 0), Tally(0, 0), Tally(0, 0))

  /** Adding to one category's tally raises that tally by the amounts and
      leaves every other tally as it was. */
  lemma TotalsAdd(t: Totals, c: Category, facts: nat, redFlags: nat)
    ensures t.Add(c, facts, redFlags).Of(c) == Tally(t.Of(c).facts + facts, t.Of(c).redFlags + redFlags)
    ensures forall d :: d != c ==> t.Add(c, facts, redFlags).Of(d) == t.Of(d)
  {
  }

  /** `CategoryCounts`: two counters, both non-negative, both starting at 0. */
  class CategoryCounts {
    var facts: nat
    var redFlags: nat

    constructor ()
      ensures facts == 0 && redFlags == 0
    {
      facts := 0;
      redFlags := 0;
    }
  }

  /** `AggregateCounts`: one `CategoryCounts` per category, each its own
      object. */
  class AggregateCounts {
    const financial: CategoryCounts
    const legal: CategoryCounts
    const operations: CategoryCounts
    const commercial: CategoryCounts
    const other: CategoryCounts

    /** The five counters are distinct objects. */
    ghost predicate Valid() {
      && financial != legal && financial != operations && financial != commercial && financial != other
      && legal != operations && legal != commercial && legal != other
      && operations != commercial && operations != other
      && commercial != other
    }

    ghost function Repr(): set<object> {
      {financial, legal, operations, commercial, other}
    }

    /** `getattr(aggregate, category.value)`. */
    function Of(c: Category): (r: CategoryCounts)
      ensures r in Repr()
    {
      match c
      case Financial => financial
      case Legal => legal
      case Operations => operations
      case Commercial => commercial
      case Other => other
    }

    /** The values the five counters hold. */
    function Snapshot(): Totals
      reads Repr()
    {
      Totals(Tally(financial.facts, financial.redFlags), Tally(legal.facts, legal.redFlags),
             Tally(operations.facts, operations.redFlags), Tally(commercial.facts, commercial.redFlags),
             Tally(other.facts, other.redFlags))
    }

    /** The snapshot's tally for `c` is what `c`'s counter holds. */
    lemma SnapshotOf(c: Category)
      ensures Snapshot().Of(c) == Tally(Of(c).facts, Of(c).redFlags)
    {
    }

    /** Every counter reads zero. */
    predicate IsZero()
      reads Repr()
    {
      Snapshot() == NoCounts
    }

    constructor ()
      ensures Valid() && fresh(Repr())
      ensures IsZero()
    {
      financial := new CategoryCounts();
      legal := new CategoryCounts();
      operations := new CategoryCounts();
      commercial := new CategoryCounts();
      other := new CategoryCounts();
    }

    /** Distinct categories have distinct counters. */
    lemma OfInjective(c: Category, d: Category)
      requires Valid() && c != d
      ensures Of(c) != Of(d)
    {
    }
  }

  /** `AnalysisResponse`; `summaryText` is also the external name of the
      summary. Errors are plain strings. */
  class AnalysisResponse {
    const docs: seq<DocumentAnalysis>
    const aggregate: AggregateCounts
    const summaryText: string
    const errors: seq<string>

    /** The defaults: nothing analysed, all counts zero, no summary, no
        errors. */
    constructor Default()
      ensures docs == [] && errors == [] && summaryText == ""
      ensures fresh(aggregate) && fresh(aggregate.Repr())
      ensures aggregate.Valid() && aggregate.IsZero()
    {
      docs := [];
      aggregate := new AggregateCounts();
      summaryText := "";
      errors := [];
    }

    constructor (docs: seq<DocumentAnalysis>, aggregate: AggregateCounts, summaryText: string, errors: seq<string>)
      ensures this.docs == docs && this.aggregate == aggregate
      ensures this.summaryText == summaryText && this.errors == errors
    {
      this.docs := docs;
      this.aggregate := aggregate;
      this.summaryText := summaryText;
      this.errors := errors;
    }
  }
}
