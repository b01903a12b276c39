/** Receipt text analysis: keyword categories, the confidence rule and the receipt pipeline. */
module Ocr {
  import opened Wrappers
  import opened Strings

  datatype Confidence = Low | Medium | High

  /** The dictionary `process_receipt` returns. Amounts are abstract integers. */
  datatype OcrResult = OcrResult(
    success: bool,
    rawText: string,
    amounts: seq<int>,
    date: Option<string>,
    ruts: seq<string>,
    suggestedCategories: seq<string>,
    confidence: Confidence)

  /** `process_receipt` either returns its dictionary or raises. */
  datatype OcrOutcome = Returned(result: OcrResult) | Raised(reason: string)

  datatype Category = Category(name: string, keywords: seq<string>)

  /** The keyword table, in the order the categories are tried. */
  const CATEGORIES: seq<Category> := [
    Category("Transporte", ["taxi", "uber", "cabify", "bus", "metro", "peaje", "combustible", "bencina", "estacionamiento"]),
    Category("Alimentación", ["restaurant", "almuerzo", "cena", "comida", "cafe", "cafetería"]),
    Category("Hospedaje", ["hotel", "hostal", "alojamiento", "hospedaje"]),
    Category("Materiales", ["ferretería", "materiales", "insumos", "equipamiento"])
  ]

  /** Position of a category name in the table; names outside it rank last. */
  function Rank(name: string): nat {
    if name == "Transporte" then 0
    else if name == "Alimentación" then 1
    else if name == "Hospedaje" then 2
    else if name == "Materiales" then 3
    else 4
  }

  /** Some keyword of the list is a substring of the lowered text. */
  predicate AnyKeyword(lowered: string, keywords: seq<string>) {
    exists k :: 0 <= k < |keywords| && Contains(lowered, keywords[k])
  }

  /** The names of the categories in `cats` with a matching keyword, in table order. */
  function Matching(lowered: string, cats: seq<Category>): seq<string> {
    if cats == [] then []
    else (if AnyKeyword(lowered, cats[0].keywords) then [cats[0].name] else []) + Matching(lowered, cats[1..])
  }

  lemma RankOfCatalogue(n: nat)
    requires n < |CATEGORIES|
    ensures Rank(CATEGORIES[n].name) == n
  {
  }

  /** Over a table whose names rank by position, `Matching` from position `k` on lists names
      of that part only, in strictly increasing rank, and a name exactly when one of its
      keywords occurs. */
  lemma {:induction false} MatchingFrom(lowered: string, cats: seq<Category>, k: nat)
    requires k <= |cats|
    requires forall n :: 0 <= n < |cats| ==> Rank(cats[n].name) == n
    ensures var m := Matching(lowered, cats[k..]);
      && (forall i :: 0 <= i < |m| ==> k <= Rank(m[i]) < |cats|)
      && (forall i, j :: 0 <= i < j < |m| ==> Rank(m[i]) < Rank(m[j]))
      && (forall n :: k <= n < |cats| ==> (cats[n].name in m <==> AnyKeyword(lowered, cats[n].keywords)))
    decreases |cats| - k
  {
    if k < |cats| {
      var c := cats[k];
      var rest := Matching(lowered, cats[k + 1..]);
      var head: seq<string> := if AnyKeyword(lowered, c.keywords) then [c.name] else [];
      assert Matching(lowered, cats[k..]) == head + rest by {
        assert cats[k..][0] == c;
        assert cats[k..][1..] == cats[k + 1..];
      }
      MatchingFrom(lowered, cats, k + 1);
    }
  }

  /** `extract_keywords`: a category is reported iff one of its keywords occurs in the lowered
      text; each at most once, in table order. */
  function ExtractKeywords(text: string): (found: seq<string>)
    ensures forall n :: 0 <= n < |CATEGORIES| ==>
      (CATEGORIES[n].name in found <==> exists k :: 0 <= k < |CATEGORIES[n].keywords| && Contains(LowerAll(text), CATEGORIES[n].keywords[k]))
    ensures forall i :: 0 <= i < |found| ==> Rank(found[i]) < |CATEGORIES| && CATEGORIES[Rank(found[i])].name == found[i]
    ensures forall i, j :: 0 <= i < j < |found| ==> Rank(found[i]) < Rank(found[j]) < |CATEGORIES|
  {
    forall n | 0 <= n < |CATEGORIES| ensures Rank(CATEGORIES[n].name) == n {
      RankOfCatalogue(n);
    }
    MatchingFrom(LowerAll(text), CATEGORIES, 0);
    assert CATEGORIES[0..] == CATEGORIES;
    Matching(LowerAll(text), CATEGORIES)
  }

  /** The confidence rule: both an amount and a date give high, exactly one gives medium. */
  function ConfidenceFor(amounts: seq<int>, date: Option<string>): (c: Confidence)
    ensures c == High <==> |amounts| > 0 && date.Some?
    ensures c == Medium <==> (|amounts| > 0) != date.Some?
    ensures c == Low <==> |amounts| == 0 && date.None?
  {
    if |amounts| > 0 && date.Some? then High
    else if |amounts| > 0 || date.Some? then Medium
    else Low
  }

  /** The order of the confidence levels. */
  function Level(c: Confidence): nat {
    match c
    case Low => 0
    case Medium => 1
    case High => 2
  }

  /** The confidence level counts the kinds of data found (amounts, a date), so finding more
      never lowers it. */
  lemma ConfidenceCountsFindings(amounts: seq<int>, more: seq<int>, date: Option<string>, date2: Option<string>)
    requires date.Some? ==> date2.Some?
    ensures Level(ConfidenceFor(amounts, date)) == (if |amounts| > 0 then 1 else 0) + (if date.Some? then 1 else 0)
    ensures Level(ConfidenceFor(amounts, date)) <= Level(ConfidenceFor(amounts + more, date2))
  {
  }

  /** A regular expression, split into the parts that matter when it is compiled: literal
      text, and character classes given by the text between their brackets. */
  datatype PatternPart = Text(text: string) | CharClass(body: string)

  /** One member of a character class: a single character or a range `lo-hi`. */
  datatype ClassItem = Single(c: char) | Range(lo: char, hi: char)

  /** How Python's regex parser reads a class body: a character, '-' and a further character
      form a range; any other character stands for itself, so a leading or trailing '-' is
      literal. */
  function ClassItems(body: string): (items: seq<ClassItem>)
    ensures |items| <= |body|
    ensures |body| >= 3 && body[1] == '-' ==> |items| > 0 && items[0] == Range(body[0], body[2])
  {
    if |body| >= 3 && body[1] == '-' then [Range(body[0], body[2])] + ClassItems(body[3..])
    else if body == [] then []
    else [Single(body[0])] + ClassItems(body[1..])
  }

  /** A range whose bounds are reversed. */
  predicate Reversed(item: ClassItem) {
    item.Range? && item.lo > item.hi
  }

  /** The first reversed range among the members, if any. */
  function FirstReversed(items: seq<ClassItem>): (r: Option<ClassItem>)
    ensures r.Some? ==> r.value in items && Reversed(r.value)
    ensures r.None? <==> forall i :: 0 <= i < |items| ==> !Reversed(items[i])
  {
    if items == [] then None
    else if Reversed(items[0]) then Some(items[0])
    else FirstReversed(items[1..])
  }

  /** The error the parser raises for a reversed range. */
  function RangeError(item: ClassItem): string
    requires item.Range?
  {
    "bad character range " + [item.lo] + "-" + [item.hi]
  }

  /** The error compiling the parts from `k` on: that of the first class holding a reversed
      range; `Pass` when there is none. */
  function CompileFrom(parts: seq<PatternPart>, k: nat): (r: Outcome<string>)
    requires k <= |parts|
    ensures r.Pass? <==> forall i :: k <= i < |parts| && parts[i].CharClass? ==> FirstReversed(ClassItems(parts[i].body)).None?
    ensures r.Fail? ==>
      exists i :: k <= i < |parts| && parts[i].CharClass? && FirstReversed(ClassItems(parts[i].body)).Some? &&
                  r.error == RangeError(FirstReversed(ClassItems(parts[i].body)).value)
    decreases |parts| - k
  {
    if k == |parts| then Pass
    else if parts[k].CharClass? && FirstReversed(ClassItems(parts[k].body)).Some? then
      Fail(RangeError(FirstReversed(ClassItems(parts[k].body)).value))
    else CompileFrom(parts, k + 1)
  }

  /** `re.compile`: the pattern compiles iff none of its classes holds a reversed range. */
  function Compile(parts: seq<PatternPart>): (r: Outcome<string>)
    ensures r.Pass? <==> forall i :: 0 <= i < |parts| && parts[i].CharClass? ==> FirstReversed(ClassItems(parts[i].body)).None?
  {
    CompileFrom(parts, 0)
  }

  /** A class holding just the range `lo-hi` compiles exactly when `lo` does not come after
      `hi`. */
  lemma RangeRule(lo: char, hi: char)
    ensures Compile([CharClass([lo, '-', hi])]).Pass? <==> lo <= hi
  {
    var items := ClassItems([lo, '-', hi]);
    assert items[0] == Range(lo, hi);
    assert ClassItems([lo, '-', hi][3..]) == [];
  }

  /** The two date patterns of `extract_date`, DD/MM/YYYY and DD/MM/YY, with the separator
      class `[/-.]`. */
  const DATE_PATTERNS: seq<seq<PatternPart>> := [
    [Text("(\\d{1,2})"), CharClass("/-."), Text("(\\d{1,2})"), CharClass("/-."), Text("(\\d{4})")],
    [Text("(\\d{1,2})"), CharClass("/-."), Text("(\\d{1,2})"), CharClass("/-."), Text("(\\d{2})")]
  ]

  /** The reason `extract_date` raises. */
  const DATE_PATTERN_ERROR := "bad character range /-."

  /** The separator class reads as the single range '/'..'.', and '/' comes after '.', so
      both date patterns fail to compile with the same error. */
  lemma {:induction false} DatePatternsRejected()
    ensures Compile(DATE_PATTERNS[0]) == Fail(DATE_PATTERN_ERROR)
    ensures Compile(DATE_PATTERNS[1]) == Fail(DATE_PATTERN_ERROR)
  {
    var sep := ClassItems("/-.");
    assert sep == [Range('/', '.')] by {
      assert "/-."[3..] == [];
    }
    assert Reversed(Range('/', '.'));
    assert FirstReversed(sep) == Some(Range('/', '.'));
    assert RangeError(Range('/', '.')) == DATE_PATTERN_ERROR;
    forall p | p in DATE_PATTERNS
      ensures CompileFrom(p, 1) == Fail(DATE_PATTERN_ERROR)
    {
      assert p[1] == CharClass("/-.");
    }
  }

  /** `extract_date`: the first pattern is compiled before the text is read; the search that
      would follow is never reached, so it is not modelled. */
  function ExtractDate(text: string): (r: Result<Option<string>, string>)
    ensures r == Failure(DATE_PATTERN_ERROR)
  {
    match Compile(DATE_PATTERNS[0])
    case Fail(e) => DatePatternsRejected(); Failure(e)
    case Pass => DatePatternsRejected(); assert false; Success(None)
  }

  /** The result for a receipt whose text extraction produced nothing. */
  const NO_TEXT := OcrResult(false, "", [], None, [], [], Low)

  /** `process_receipt` on the text the OCR engine returned ('' when it failed). */
  function ProcessReceipt(text: string): (r: OcrOutcome)
    ensures text == "" ==> r == Returned(NO_TEXT)
    ensures text != "" ==> r.Raised?
    ensures r.Returned? ==> !r.result.success && r.result.confidence == Low
  {
    if text == "" then Returned(NO_TEXT)
    else Raised(ExtractDate(text).error)
  }
}
