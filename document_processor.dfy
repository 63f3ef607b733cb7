/**
  The document processor of the tender-summary backend: the MIME-type dispatch
  of text extraction, the text normaliser, the keyword and pattern extractors,
  the rule-based summariser with its sentence scores, the derivation of the
  summary fields, the confidence score and the order in which
  `processDocument` runs them.

  The natural-language toolkit, the file-format readers and the remote
  summarisation model are not modelled: their results enter as parameters
  (`Entities`, `read`, `AiService`).
 */
module DocumentProcessor {
  import opened Wrappers
  import opened Js
  import Sorting

  // ---------------------------------------------------------------------------
  // Text extraction dispatch

  const PdfType: string := "application/pdf"
  const MsWordType: string := "application/msword"
  const DocxType: string := "application/vnd.openxmlformats-officedocument.wordprocessingml.document"
  const PlainTextType: string := "text/plain"
  const SupportedTypes: seq<string> := [PdfType, MsWordType, DocxType, PlainTextType]

  /** The three reading paths: the PDF parser, the Word reader, a UTF-8 file read. */
  datatype Extractor = Pdf | Word | PlainText

  /** The `switch (mimeType)` of `extractText`. */
  function ExtractorFor(mimeType: string): (r: Result<Extractor, string>)
    ensures r.Success? <==> mimeType in SupportedTypes
    ensures r == Success(Pdf) <==> mimeType == PdfType
    ensures r == Success(Word) <==> mimeType == MsWordType || mimeType == DocxType
    ensures r == Success(PlainText) <==> mimeType == PlainTextType
    ensures r.Failure? ==> r.error == "Unsupported file type: " + mimeType
  {
    if mimeType == PdfType then Success(Pdf)
    else if mimeType == MsWordType || mimeType == DocxType then Success(Word)
    else if mimeType == PlainTextType then Success(PlainText)
    else Failure("Unsupported file type: " + mimeType)
  }

  /** `extractText`: an unsupported type fails before any file is read; a
      supported one commits to its reader, whose failure is rethrown. */
  function ExtractText(mimeType: string, read: Extractor -> Result<string, string>): (r: Result<string, string>)
    ensures mimeType !in SupportedTypes ==> r == Failure("Unsupported file type: " + mimeType)
    ensures mimeType in SupportedTypes ==> r == read(ExtractorFor(mimeType).value)
  {
    match ExtractorFor(mimeType)
    case Failure(e) => Failure(e)
    case Success(x) => read(x)
  }

  // ---------------------------------------------------------------------------
  // preprocessText

  /** The only white space left is the plain space. */
  ghost predicate OnlyPlainSpaces(s: string) {
    forall i :: !StraySpaceAt(s, i)
  }

  /** Position `i` holds white space other than the plain space. */
  ghost predicate StraySpaceAt(s: string, i: int) {
    0 <= i < |s| && IsSpace(s[i]) && s[i] != ' '
  }

  /** Positions `i` and `i + 1` both hold a space. */
  ghost predicate DoubleSpaceAt(s: string, i: int) {
    0 <= i < |s| - 1 && s[i] == ' ' && s[i + 1] == ' '
  }

  /** No two consecutive spaces. */
  ghost predicate NoDoubleSpace(s: string) {
    forall i :: !DoubleSpaceAt(s, i)
  }

  /** `text.replace(/\s+/g, ' ')`: every run of white space becomes one space. */
  function CollapseSpaceRuns(s: string): (r: string)
    ensures |r| <= |s|
    ensures s != [] ==> r != [] && r[0] == (if IsSpace(s[0]) then ' ' else s[0])
  {
    if s == [] then []
    else if IsSpace(s[0]) then [' '] + CollapseSpaceRuns(TrimStart(s[1..]))
    else [s[0]] + CollapseSpaceRuns(s[1..])
  }

  /** After collapsing, the only white space left is the plain space. */
  lemma {:induction false} CollapseSpaceRunsPlain(s: string)
    ensures OnlyPlainSpaces(CollapseSpaceRuns(s))
  {
    if s != [] {
      var rest := if IsSpace(s[0]) then TrimStart(s[1..]) else s[1..];
      var t := CollapseSpaceRuns(rest);
      var r := CollapseSpaceRuns(s);
      assert r[1..] == t;
      CollapseSpaceRunsPlain(rest);
      forall i | i > 0 ensures !StraySpaceAt(r, i) {
        assert StraySpaceAt(r, i) ==> StraySpaceAt(t, i - 1);
      }
    }
  }

  /** After collapsing, no two spaces are adjacent. */
  lemma {:induction false} CollapseSpaceRunsSingle(s: string)
    ensures NoDoubleSpace(CollapseSpaceRuns(s))
  {
    if s != [] {
      var rest := if IsSpace(s[0]) then TrimStart(s[1..]) else s[1..];
      var t := CollapseSpaceRuns(rest);
      var r := CollapseSpaceRuns(s);
      assert r[1..] == t;
      CollapseSpaceRunsSingle(rest);
      assert !DoubleSpaceAt(r, 0) by {
        if IsSpace(s[0]) && rest != [] {
          assert !IsSpace(rest[0]);
        }
      }
      forall i | i > 0 ensures !DoubleSpaceAt(r, i) {
        assert DoubleSpaceAt(r, i) ==> DoubleSpaceAt(t, i - 1);
      }
    }
  }

  /** After collapsing, white space is single plain spaces. */
  lemma CollapseSpaceRunsNormal(s: string)
    ensures OnlyPlainSpaces(CollapseSpaceRuns(s)) && NoDoubleSpace(CollapseSpaceRuns(s))
  {
    CollapseSpaceRunsPlain(s);
    CollapseSpaceRunsSingle(s);
  }

  /** The first line of `preprocessText`: collapse white space, then `trim()`. */
  function CollapseWhitespace(s: string): (r: string)
    ensures |r| <= |s|
    ensures r == [] || (!IsSpace(r[0]) && !IsSpace(r[|r| - 1]))
  {
    Trim(CollapseSpaceRuns(s))
  }

  /** A suffix of a string keeps its spacing properties. */
  lemma SuffixKeepsSpacing(s: string, from: nat)
    requires from <= |s|
    requires OnlyPlainSpaces(s) && NoDoubleSpace(s)
    ensures OnlyPlainSpaces(s[from..]) && NoDoubleSpace(s[from..])
  {
    var t := s[from..];
    forall i ensures !StraySpaceAt(t, i) {
      assert StraySpaceAt(t, i) ==> StraySpaceAt(s, from + i);
    }
    forall i ensures !DoubleSpaceAt(t, i) {
      assert DoubleSpaceAt(t, i) ==> DoubleSpaceAt(s, from + i);
    }
  }

  /** A prefix of a string keeps its spacing properties. */
  lemma PrefixKeepsSpacing(s: string, to: nat)
    requires to <= |s|
    requires OnlyPlainSpaces(s) && NoDoubleSpace(s)
    ensures OnlyPlainSpaces(s[..to]) && NoDoubleSpace(s[..to])
  {
    forall i ensures !StraySpaceAt(s[..to], i) {
      assert StraySpaceAt(s[..to], i) ==> StraySpaceAt(s, i);
    }
    forall i ensures !DoubleSpaceAt(s[..to], i) {
      assert DoubleSpaceAt(s[..to], i) ==> DoubleSpaceAt(s, i);
    }
  }

  /** The collapsed and trimmed text has only single plain spaces. */
  lemma CollapseWhitespaceNormal(s: string)
    ensures OnlyPlainSpaces(CollapseWhitespace(s)) && NoDoubleSpace(CollapseWhitespace(s))
  {
    var c := CollapseSpaceRuns(s);
    var t := TrimStart(c);
    assert t == c[|c| - |t|..];
    assert CollapseWhitespace(s) == t[..|TrimEnd(t)|];
    CollapseSpaceRunsNormal(s);
    SuffixKeepsSpacing(c, |c| - |t|);
    PrefixKeepsSpacing(t, |TrimEnd(t)|);
  }

  /** The punctuation the normaliser keeps. */
  predicate Punctuation(c: char) {
    c == '.' || c == ',' || c == '!' || c == '?' || c == ';' || c == ':' || c == '(' || c == ')' || c == '-'
  }

  /** The characters kept by `text.replace(/[^\w\s.,!?;:()\-]/g, '')`. */
  predicate KeptChar(c: char) {
    IsWordChar(c) || IsSpace(c) || Punctuation(c)
  }

  /** The characters a normalised text is made of. */
  predicate CleanChar(c: char) {
    IsWordChar(c) || c == ' ' || Punctuation(c)
  }

  lemma CleanCharIsNotSlash(c: char)
    requires CleanChar(c)
    ensures c != '/'
  {
  }

  /** The second line of `preprocessText`: delete every character outside the allow-list. */
  function StripSymbols(s: string): (r: string)
    ensures |r| <= |s|
    ensures forall i | 0 <= i < |r| :: KeptChar(r[i])
  {
    Filter(s, KeptChar)
  }

  /** Length of the longest prefix of `s` without white space: what `[^\s]+` can consume. */
  function NonSpaceRun(s: string): (n: nat)
    ensures n <= |s|
    ensures forall k | 0 <= k < n :: !IsSpace(s[k])
  {
    if s == [] || IsSpace(s[0]) then 0 else 1 + NonSpaceRun(s[1..])
  }

  /** Length of the match of `https?:\/\/[^\s]+` at the start of `s`, or 0 when there is none. */
  function UrlMatchLength(s: string): (n: nat)
    ensures n <= |s|
    ensures n > 0 ==> (|s| > 5 && s[5] == '/') || (|s| > 6 && s[6] == '/')
  {
    var scheme := if StartsWith(s, "https://") then 8 else if StartsWith(s, "http://") then 7 else 0;
    if scheme == 0 then 0
    else
      assert s[..scheme] == (if scheme == 8 then "https://" else "http://");
      var run := NonSpaceRun(s[scheme..]);
      if run == 0 then 0 else scheme + run
  }

  /** The third line of `preprocessText`: `text.replace(/https?:\/\/[^\s]+/g, '')`,
      scanning from left to right and deleting each match. */
  function RemoveUrls(s: string): (r: string)
    ensures |r| <= |s|
    decreases |s|
  {
    if s == [] then []
    else
      var n := UrlMatchLength(s);
      if n > 0 then RemoveUrls(s[n..]) else [s[0]] + RemoveUrls(s[1..])
  }

  /** The URL pass can only delete text that contains a '/'. */
  lemma {:induction false} UrlPassNeedsSlash(s: string)
    requires forall i | 0 <= i < |s| :: s[i] != '/'
    ensures RemoveUrls(s) == s
    decreases |s|
  {
    if s != [] {
      assert UrlMatchLength(s) == 0;
      UrlPassNeedsSlash(s[1..]);
    }
  }

  /** After white space has been collapsed to single spaces, the symbol pass
      leaves only clean characters. */
  lemma {:induction false} StrippedIsClean(s: string)
    requires OnlyPlainSpaces(s)
    ensures forall i | 0 <= i < |StripSymbols(s)| :: CleanChar(StripSymbols(s)[i])
  {
    if s != [] {
      forall i ensures !StraySpaceAt(s[1..], i) {
        assert StraySpaceAt(s[1..], i) ==> StraySpaceAt(s, i + 1);
      }
      StrippedIsClean(s[1..]);
      assert !StraySpaceAt(s, 0);
      assert StripSymbols(s) == if KeptChar(s[0]) then [s[0]] + StripSymbols(s[1..]) else StripSymbols(s[1..]);
    }
  }

  lemma PreprocessSteps(text: string)
    ensures RemoveUrls(StripSymbols(CollapseWhitespace(text))) == StripSymbols(CollapseWhitespace(text))
    ensures forall i | 0 <= i < |StripSymbols(CollapseWhitespace(text))| :: CleanChar(StripSymbols(CollapseWhitespace(text))[i])
  {
    var collapsed := CollapseWhitespace(text);
    CollapseWhitespaceNormal(text);
    StrippedIsClean(collapsed);
    var s := StripSymbols(collapsed);
    assert forall i | 0 <= i < |s| :: CleanChar(s[i]);
    forall i | 0 <= i < |s| ensures s[i] != '/' {
      CleanCharIsNotSlash(s[i]);
    }
    UrlPassNeedsSlash(s);
  }

  /** `preprocessText`. The e-mail pass of the source is not applied: every match of
      its pattern contains '@', which the symbol pass has already deleted. */
  function PreprocessText(text: string): (clean: string)
    ensures |clean| <= |text|
    ensures forall i | 0 <= i < |clean| :: CleanChar(clean[i])
  {
    var stripped := StripSymbols(CollapseWhitespace(text));
    PreprocessSteps(text);
    RemoveUrls(stripped)
  }

  /** The URL pass of `preprocessText` never changes anything: it runs after '/'
      has been deleted. */
  lemma UrlPassNeverMatches(text: string)
    ensures PreprocessText(text) == StripSymbols(CollapseWhitespace(text))
  {
    PreprocessSteps(text);
  }

  lemma StripSymbolsCons(c: char, s: string)
    ensures StripSymbols([c] + s) == (if KeptChar(c) then [c] else []) + StripSymbols(s)
  {
    assert ([c] + s)[1..] == s;
  }

  /** Collapsing leaves a text alone that already has single plain spaces. */
  lemma {:induction false} CollapseSpaceRunsFixes(s: string)
    requires OnlyPlainSpaces(s) && NoDoubleSpace(s)
    ensures CollapseSpaceRuns(s) == s
  {
    if s != [] {
      var tail := s[1..];
      assert s == [s[0]] + tail;
      SuffixKeepsSpacing(s, 1);
      CollapseSpaceRunsFixes(tail);
      assert !StraySpaceAt(s, 0);
      if IsSpace(s[0]) {
        assert TrimStart(tail) == tail by {
          if tail != [] {
            assert !DoubleSpaceAt(s, 0) && !StraySpaceAt(s, 1);
            assert tail[0] == s[1];
          }
        }
        CollapseSpaceRunsSpace(tail);
      } else {
        CollapseSpaceRunsWord(s[0], tail);
      }
    }
  }

  /** The first line of `preprocessText` is idempotent: its result is left
      alone by a second application. */
  lemma CollapseWhitespaceIdempotent(s: string)
    ensures CollapseWhitespace(CollapseWhitespace(s)) == CollapseWhitespace(s)
  {
    var r := CollapseWhitespace(s);
    CollapseWhitespaceNormal(s);
    CollapseSpaceRunsFixes(r);
    TrimFixes(r);
  }

  lemma CollapseKeepsSingleSpaces(x: char, y: char)
    requires IsWordChar(x) && IsWordChar(y)
    ensures CollapseWhitespace([x, ' ', '@', ' ', y]) == [x, ' ', '@', ' ', y]
  {
    WordCharIsNotSpace(x);
    WordCharIsNotSpace(y);
    var s := [x, ' ', '@', ' ', y];
    forall i ensures !StraySpaceAt(s, i) && !DoubleSpaceAt(s, i) {
    }
    CollapseSpaceRunsFixes(s);
    TrimFixes(s);
  }

  lemma CollapseSpaceRunsWord(c: char, s: string)
    requires !IsSpace(c)
    ensures CollapseSpaceRuns([c] + s) == [c] + CollapseSpaceRuns(s)
  {
    assert ([c] + s)[1..] == s;
  }

  lemma CollapseSpaceRunsSpace(s: string)
    ensures CollapseSpaceRuns([' '] + s) == [' '] + CollapseSpaceRuns(TrimStart(s))
  {
    assert ([' '] + s)[1..] == s;
  }

  lemma CollapseMergesDoubleSpace(x: char, y: char)
    requires IsWordChar(x) && IsWordChar(y)
    ensures CollapseWhitespace([x, ' ', ' ', y]) == [x, ' ', y]
  {
    WordCharIsNotSpace(x);
    WordCharIsNotSpace(y);
    var a, b := [' ', y], [' ', ' ', y];
    assert CollapseSpaceRuns([y]) == [y] by {
      CollapseSpaceRunsWord(y, []);
    }
    assert TrimStart(a) == [y] by {
      assert a[1..] == [y];
    }
    assert CollapseSpaceRuns(b) == a by {
      assert b == [' '] + a;
      CollapseSpaceRunsSpace(a);
    }
    assert CollapseSpaceRuns([x, ' ', ' ', y]) == [x, ' ', y] by {
      assert [x, ' ', ' ', y] == [x] + b;
      CollapseSpaceRunsWord(x, b);
    }
    TrimFixes([x, ' ', y]);
  }

  lemma StripSymbolsExamples(x: char, y: char)
    requires IsWordChar(x) && IsWordChar(y)
    ensures StripSymbols([x, ' ', '@', ' ', y]) == [x, ' ', ' ', y]
    ensures StripSymbols([x, ' ', y]) == [x, ' ', y]
  {
    StripSymbolsCons(y, []);
    StripSymbolsCons(' ', [y]);
    StripSymbolsCons('@', [' ', y]);
    StripSymbolsCons(' ', ['@', ' ', y]);
    StripSymbolsCons(x, [' ', '@', ' ', y]);
    StripSymbolsCons(x, [' ', y]);
  }

  /** Normalising twice is not normalising once: deleting a symbol that stood
      between two spaces leaves a double space, which only a second pass
      collapses. So "a @ b" normalises to "a  b", and that to "a b". */
  lemma PreprocessNotIdempotent(x: char, y: char)
    requires IsWordChar(x) && IsWordChar(y)
    ensures PreprocessText([x, ' ', '@', ' ', y]) == [x, ' ', ' ', y]
    ensures PreprocessText([x, ' ', ' ', y]) == [x, ' ', y]
    ensures PreprocessText(PreprocessText([x, ' ', '@', ' ', y])) != PreprocessText([x, ' ', '@', ' ', y])
  {
    CollapseKeepsSingleSpaces(x, y);
    CollapseMergesDoubleSpace(x, y);
    StripSymbolsExamples(x, y);
    UrlPassNeverMatches([x, ' ', '@', ' ', y]);
    UrlPassNeverMatches([x, ' ', ' ', y]);
  }

  // ---------------------------------------------------------------------------
  // What the language toolkit reports, and what the extractors produce

  /** The `compromise` results for one text: its sentences, and the organisations,
      places, money amounts, dates and values it recognised, each in its order. */
  datatype Entities = Entities(
    sentences: seq<string>,
    organizations: seq<string>,
    places: seq<string>,
    money: seq<string>,
    dates: seq<string>,
    numbers: seq<string>)

  datatype ExtractedInfo = ExtractedInfo(
    organizations: seq<string>,
    places: seq<string>,
    money: seq<string>,
    dates: seq<string>,
    numbers: seq<string>,
    projectTypes: seq<string>,
    workDescription: seq<string>,
    requirements: seq<string>)

  datatype Summary = Summary(
    overview: string,
    workType: string,
    estimatedValue: string,
    location: string,
    keyRequirements: seq<string>,
    timeline: string,
    projectScope: string,
    confidence: int)

  // ---------------------------------------------------------------------------
  // extractProjectTypes

  /** The project-type taxonomy: each type with its trigger substrings. */
  const ProjectKeywords: map<string, seq<string>> := map[
    "construction" := ["construction", "building", "structure", "infrastructure"],
    "roads" := ["road", "highway", "street", "pavement", "asphalt"],
    "bridges" := ["bridge", "overpass", "underpass", "flyover"],
    "water" := ["water", "pipeline", "drainage", "sewage", "irrigation"],
    "electrical" := ["electrical", "power", "lighting", "wiring", "transformer"],
    "maintenance" := ["maintenance", "repair", "renovation", "upgrade"],
    "supply" := ["supply", "procurement", "purchase", "equipment", "materials"]
  ]

  /** The types in the order `Object.entries` lists them (insertion order). */
  const TypeNames: seq<string> := ["construction", "roads", "bridges", "water", "electrical", "maintenance", "supply"]

  /** Some trigger of the type occurs in the lower-cased text. */
  predicate TypeTriggered(lowerText: string, typeName: string) {
    typeName in ProjectKeywords && exists k | k in ProjectKeywords[typeName] :: Contains(lowerText, k)
  }

  function TriggeredIn(lowerText: string): string -> bool {
    name => TypeTriggered(lowerText, name)
  }

  /** The result of `extractProjectTypes`: the triggered types in taxonomy order. */
  function ProjectTypesOf(text: string): seq<string> {
    Filter(TypeNames, TriggeredIn(Lower(text)))
  }

  method ExtractProjectTypes(text: string) returns (foundTypes: seq<string>)
    ensures foundTypes == ProjectTypesOf(text)
  {
    foundTypes := [];
    var lowerText := Lower(text);
    var i := 0;
    while i < |TypeNames|
      invariant 0 <= i <= |TypeNames|
      invariant foundTypes == Filter(TypeNames[..i], TriggeredIn(lowerText))
    {
      var name := TypeNames[i];
      TypeNameKeyed(i);
      var keywords := ProjectKeywords[name];
      FilterSnoc(TypeNames[..i], name, TriggeredIn(lowerText));
      PrefixSnoc(TypeNames, i);
      if exists k | k in keywords :: Contains(lowerText, k) {
        foundTypes := foundTypes + [name];
      }
      i := i + 1;
    }
    assert TypeNames[..i] == TypeNames;
  }

  lemma TypeNameKeyed(i: nat)
    requires i < |TypeNames|
    ensures TypeNames[i] in ProjectKeywords
  {
  }

  lemma TypeNamesDistinct()
    ensures Distinct(TypeNames)
  {
  }

  /** The detected types are distinct, listed in taxonomy order, and a type is
      listed exactly when one of its triggers occurs in the lower-cased text. */
  lemma ProjectTypesSpec(text: string)
    ensures IsSubsequence(ProjectTypesOf(text), TypeNames)
    ensures Distinct(ProjectTypesOf(text))
    ensures forall name :: name in ProjectTypesOf(text) <==> name in TypeNames && TypeTriggered(Lower(text), name)
  {
    var r := ProjectTypesOf(text);
    var p := TriggeredIn(Lower(text));
    FilterIsSubsequence(TypeNames, p);
    TypeNamesDistinct();
    SubsequenceOfDistinct(r, TypeNames);
    forall name ensures name in r <==> name in TypeNames && TypeTriggered(Lower(text), name) {
      FilterMembers(TypeNames, p);
      assert p(name) == TypeTriggered(Lower(text), name);
    }
  }

  // ---------------------------------------------------------------------------
  // extractWorkDescription

  const WorkKeywords: seq<string> := ["work", "construction", "installation", "maintenance", "repair", "supply", "provide"]

  predicate IsWorkSentence(sentence: string) {
    exists k | k in WorkKeywords :: Contains(Lower(sentence), k)
  }

  /** The result of `extractWorkDescription`: the first five work sentences. */
  function WorkDescriptionOf(sentences: seq<string>): seq<string> {
    Take(Filter(sentences, IsWorkSentence), 5)
  }

  method ExtractWorkDescription(sentences: seq<string>) returns (workSections: seq<string>)
    ensures workSections == WorkDescriptionOf(sentences)
  {
    var found: seq<string> := [];
    var i := 0;
    while i < |sentences|
      invariant 0 <= i <= |sentences|
      invariant found == Filter(sentences[..i], IsWorkSentence)
    {
      var sentence := sentences[i];
      FilterSnoc(sentences[..i], sentence, IsWorkSentence);
      assert sentences[..i + 1] == sentences[..i] + [sentence];
      var lowerSentence := Lower(sentence);
      if exists k | k in WorkKeywords :: Contains(lowerSentence, k) {
        found := found + [sentence];
      }
      i := i + 1;
    }
    assert sentences[..i] == sentences;
    workSections := Take(found, 5);
  }

  /** At most five sentences, each naming a work keyword, in document order. */
  lemma WorkDescriptionSpec(sentences: seq<string>)
    ensures |WorkDescriptionOf(sentences)| <= 5
    ensures IsSubsequence(WorkDescriptionOf(sentences), sentences)
    ensures forall i | 0 <= i < |WorkDescriptionOf(sentences)| :: IsWorkSentence(WorkDescriptionOf(sentences)[i])
  {
    var all := Filter(sentences, IsWorkSentence);
    FilterIsSubsequence(sentences, IsWorkSentence);
    PrefixIsSubsequence(all, sentences, |WorkDescriptionOf(sentences)|);
  }

  // ---------------------------------------------------------------------------
  // extractRequirements

  /** One of the requirement patterns: `keyword\s+[^.]+`, or, for the
      `specification[s]?[^.]+` pattern, a keyword followed directly by `[^.]+`. */
  datatype RequirementPattern = RequirementPattern(keyword: string, spaceAfter: bool)

  const RequirementPatterns: seq<RequirementPattern> := [
    RequirementPattern("must", true),
    RequirementPattern("shall", true),
    RequirementPattern("required", true),
    RequirementPattern("specification", false),
    RequirementPattern("minimum", true)
  ]

  /** Length of the longest prefix of `s` without a '.': what `[^.]+` consumes. */
  function NonDotRun(s: string): (n: nat)
    ensures n <= |s|
  {
    if s == [] || s[0] == '.' then 0 else 1 + NonDotRun(s[1..])
  }

  /** The run holds no '.' and ends at a '.' or at the end of `s`. */
  lemma {:induction false} NonDotRunSpec(s: string)
    ensures forall k | 0 <= k < NonDotRun(s) :: s[k] != '.'
    ensures NonDotRun(s) < |s| ==> s[NonDotRun(s)] == '.'
  {
    if s != [] && s[0] != '.' {
      NonDotRunSpec(s[1..]);
      forall k | 0 < k < NonDotRun(s) ensures s[k] != '.' {
        assert s[k] == s[1..][k - 1];
      }
    }
  }

  /** Length of the match of a requirement pattern at position `i`, or 0. The
      keyword is matched case-insensitively; whatever follows it up to the next
      '.' belongs to the match, which needs at least one such character (two,
      the first of them white space, when the pattern asks for `\s+`). */
  function MatchLengthAt(text: string, p: RequirementPattern, i: nat): (n: nat)
    requires i <= |text|
    ensures n == 0 || n > |p.keyword|
    ensures i + n <= |text|
  {
    if !FoldMatchAt(text, p.keyword, i) then 0
    else
      var j := i + |p.keyword|;
      var run := NonDotRun(text[j..]);
      if (if p.spaceAfter then run >= 2 && IsSpace(text[j]) else run >= 1) then |p.keyword| + run else 0
  }

  /** The match lengths of a pattern at every position of the text. */
  function MatchLength(text: string, p: RequirementPattern): nat -> nat {
    (i: nat) => if i <= |text| then MatchLengthAt(text, p, i) else 0
  }

  /** `text.match(pattern)` of a global pattern, from position `from` on. */
  function MatchesFrom(text: string, p: RequirementPattern, from: nat): (ms: seq<string>)
    requires from <= |text|
  {
    GlobalMatches(text, MatchLength(text, p), from)
  }

  /** The trimmed matches of the first `count` patterns, pattern by pattern. */
  function RequirementMatches(text: string, count: nat): seq<string>
    requires count <= |RequirementPatterns|
  {
    if count == 0 then []
    else RequirementMatches(text, count - 1) + Map(MatchesFrom(text, RequirementPatterns[count - 1], 0), Trim)
  }

  /** The result of `extractRequirements`: the first ten trimmed matches. */
  function RequirementsOf(text: string): seq<string> {
    Take(RequirementMatches(text, |RequirementPatterns|), 10)
  }

  method ExtractRequirements(text: string) returns (requirements: seq<string>)
    ensures requirements == RequirementsOf(text)
  {
    var found: seq<string> := [];
    var i := 0;
    while i < |RequirementPatterns|
      invariant 0 <= i <= |RequirementPatterns|
      invariant found == RequirementMatches(text, i)
    {
      var matches := MatchesFrom(text, RequirementPatterns[i], 0);
      found := found + Map(matches, Trim);
      i := i + 1;
    }
    requirements := Take(found, 10);
  }

  /** A clause of keyword `kw`: it starts with the keyword, in any letter case,
      and holds no '.' after it. */
  ghost predicate ClauseFor(clause: string, kw: string) {
    FoldMatchAt(clause, kw, 0) && forall k | |kw| <= k < |clause| :: clause[k] != '.'
  }

  lemma MatchAtShape(text: string, p: RequirementPattern, i: nat)
    requires i <= |text| && MatchLengthAt(text, p, i) > 0
    ensures ClauseFor(text[i..i + MatchLengthAt(text, p, i)], p.keyword)
  {
    var n := MatchLengthAt(text, p, i);
    var m := text[i..i + n];
    var j := i + |p.keyword|;
    var run := NonDotRun(text[j..]);
    NonDotRunSpec(text[j..]);
    assert n == |p.keyword| + run;
    forall k | |p.keyword| <= k < |m| ensures m[k] != '.' {
      assert m[k] == text[j..][k - |p.keyword|];
    }
    forall k | 0 <= k < |p.keyword| ensures FoldChar(m[k]) == FoldChar(p.keyword[k]) {
      assert m[k] == text[i + k];
    }
  }

  /** Every match is a clause of its pattern's keyword, longer than the keyword. */
  lemma MatchesShape(text: string, p: RequirementPattern, from: nat, j: nat)
    requires from <= |text| && j < |MatchesFrom(text, p, from)|
    ensures ClauseFor(MatchesFrom(text, p, from)[j], p.keyword) && |MatchesFrom(text, p, from)[j]| > |p.keyword|
  {
    var i := GlobalMatchOrigin(text, MatchLength(text, p), from, j);
    assert MatchLength(text, p)(i) == MatchLengthAt(text, p, i);
    MatchAtShape(text, p, i);
  }

  /** The pattern a requirement clause came from: the first whose keyword it starts with. */
  function PatternIndex(clause: string): (k: nat)
    ensures k <= |RequirementPatterns|
  {
    PatternIndexFrom(clause, 0)
  }

  function PatternIndexFrom(clause: string, k: nat): (r: nat)
    requires k <= |RequirementPatterns|
    ensures k <= r <= |RequirementPatterns|
    decreases |RequirementPatterns| - k
  {
    if k == |RequirementPatterns| then k
    else if FoldMatchAt(clause, RequirementPatterns[k].keyword, 0) then k
    else PatternIndexFrom(clause, k + 1)
  }

  /** Keywords that differ (after folding) at some position cannot both start a text. */
  lemma FoldMismatch(clause: string, a: string, b: string, i: nat)
    requires i < |a| && i < |b| && FoldChar(a[i]) != FoldChar(b[i])
    requires FoldMatchAt(clause, b, 0)
    ensures !FoldMatchAt(clause, a, 0)
  {
  }

  /** No text starts with two different requirement keywords: any two of them
      differ in their first or second letter. */
  lemma KeywordsExclusive(clause: string, k: nat, k': nat)
    requires k < k' < |RequirementPatterns|
    requires FoldMatchAt(clause, RequirementPatterns[k'].keyword, 0)
    ensures !FoldMatchAt(clause, RequirementPatterns[k].keyword, 0)
  {
    var a := RequirementPatterns[k].keyword;
    var b := RequirementPatterns[k'].keyword;
    if FoldChar(a[0]) != FoldChar(b[0]) {
      FoldMismatch(clause, a, b, 0);
    } else {
      FoldMismatch(clause, a, b, 1);
    }
  }

  lemma PatternIndexOf(clause: string, k: nat)
    requires k < |RequirementPatterns|
    requires FoldMatchAt(clause, RequirementPatterns[k].keyword, 0)
    ensures PatternIndex(clause) == k
  {
    var j := 0;
    while j < k
      invariant 0 <= j <= k
      invariant PatternIndexFrom(clause, j) == PatternIndex(clause)
    {
      KeywordsExclusive(clause, j, k);
      j := j + 1;
    }
  }

  /** Every requirement keyword begins and ends with a letter. */
  lemma KeywordEnds(k: nat)
    requires k < |RequirementPatterns|
    ensures var kw := RequirementPatterns[k].keyword; |kw| > 1 && IsLetter(kw[0]) && IsLetter(kw[|kw| - 1])
  {
  }

  /** A character that folds to a letter's fold is itself a letter. */
  lemma FoldOfLetter(c: char, d: char)
    requires IsLetter(d) && FoldChar(c) == FoldChar(d)
    ensures IsLetter(c)
  {
  }

  /** `trim()` of a text that starts with a letter and has a letter at `n - 1`
      only cuts the text short, and not before `n`. */
  lemma TrimLetterPrefix(m: string, n: nat)
    requires 0 < n <= |m| && IsLetter(m[0]) && IsLetter(m[n - 1])
    ensures n <= |Trim(m)| && Trim(m) == m[..|Trim(m)|]
  {
    WordCharIsNotSpace(m[0]);
    WordCharIsNotSpace(m[n - 1]);
    assert TrimStart(m) == m;
    TrimEndKeepsPrefix(m, m[..n]);
  }

  /** A clause whose keyword begins and ends with a letter is a clause after `trim()`. */
  lemma ClauseTrimmed(m: string, kw: string)
    requires |kw| > 1 && IsLetter(kw[0]) && IsLetter(kw[|kw| - 1])
    requires ClauseFor(m, kw)
    ensures ClauseFor(Trim(m), kw)
  {
    FoldOfLetter(m[0], kw[0]);
    FoldOfLetter(m[|kw| - 1], kw[|kw| - 1]);
    TrimLetterPrefix(m, |kw|);
    var t := Trim(m);
    forall i | 0 <= i < |kw| ensures FoldChar(t[i]) == FoldChar(kw[i]) {
      assert t[i] == m[i];
    }
    forall i | |kw| <= i < |t| ensures t[i] != '.' {
      assert t[i] == m[i];
    }
  }

  /** Trimming a match keeps it a clause of its pattern, recognised as such. */
  lemma TrimmedMatch(m: string, k: nat)
    requires k < |RequirementPatterns|
    requires ClauseFor(m, RequirementPatterns[k].keyword)
    ensures PatternIndex(Trim(m)) == k && ClauseFor(Trim(m), RequirementPatterns[k].keyword)
  {
    KeywordEnds(k);
    ClauseTrimmed(m, RequirementPatterns[k].keyword);
    PatternIndexOf(Trim(m), k);
  }

  /** Every trimmed match of pattern `k` is a clause of it. */
  lemma PatternBlock(text: string, k: nat)
    requires k < |RequirementPatterns|
    ensures forall i | 0 <= i < |Map(MatchesFrom(text, RequirementPatterns[k], 0), Trim)| ::
      PatternIndex(Map(MatchesFrom(text, RequirementPatterns[k], 0), Trim)[i]) == k
      && ClauseFor(Map(MatchesFrom(text, RequirementPatterns[k], 0), Trim)[i], RequirementPatterns[k].keyword)
  {
    var ms := MatchesFrom(text, RequirementPatterns[k], 0);
    forall i | 0 <= i < |ms| ensures PatternIndex(Trim(ms[i])) == k && ClauseFor(Trim(ms[i]), RequirementPatterns[k].keyword) {
      MatchesShape(text, RequirementPatterns[k], 0, i);
      TrimmedMatch(ms[i], k);
    }
  }

  /** The clauses of the first `count` patterns, each recognised as its pattern's. */
  lemma {:induction false} RequirementMatchesClauses(text: string, count: nat)
    requires count <= |RequirementPatterns|
    ensures forall i | 0 <= i < |RequirementMatches(text, count)| ::
      PatternIndex(RequirementMatches(text, count)[i]) < count
      && ClauseFor(RequirementMatches(text, count)[i], RequirementPatterns[PatternIndex(RequirementMatches(text, count)[i])].keyword)
  {
    if count > 0 {
      RequirementMatchesClauses(text, count - 1);
      var prev := RequirementMatches(text, count - 1);
      var block := Map(MatchesFrom(text, RequirementPatterns[count - 1], 0), Trim);
      PatternBlock(text, count - 1);
      var all := RequirementMatches(text, count);
      assert all == prev + block;
      forall i | 0 <= i < |all|
        ensures PatternIndex(all[i]) < count && ClauseFor(all[i], RequirementPatterns[PatternIndex(all[i])].keyword)
      {
        if i < |prev| {
          assert all[i] == prev[i];
        } else {
          assert all[i] == block[i - |prev|];
        }
      }
    }
  }

  /** The clauses of an earlier pattern come before those of a later one. */
  lemma {:induction false} RequirementMatchesOrdered(text: string, count: nat)
    requires count <= |RequirementPatterns|
    ensures forall i, j | 0 <= i < j < |RequirementMatches(text, count)| ::
      PatternIndex(RequirementMatches(text, count)[i]) <= PatternIndex(RequirementMatches(text, count)[j])
  {
    if count > 0 {
      RequirementMatchesOrdered(text, count - 1);
      RequirementMatchesClauses(text, count - 1);
      var prev := RequirementMatches(text, count - 1);
      var block := Map(MatchesFrom(text, RequirementPatterns[count - 1], 0), Trim);
      PatternBlock(text, count - 1);
      var all := RequirementMatches(text, count);
      assert all == prev + block;
      forall i, j | 0 <= i < j < |all| ensures PatternIndex(all[i]) <= PatternIndex(all[j]) {
        if j < |prev| {
          assert all[i] == prev[i] && all[j] == prev[j];
        } else if i < |prev| {
          assert all[i] == prev[i] && all[j] == block[j - |prev|];
        } else {
          assert all[i] == block[i - |prev|] && all[j] == block[j - |prev|];
        }
      }
    }
  }

  /** At most ten clauses; each starts with its pattern's keyword and holds no
      '.' after it; the clauses of an earlier pattern come before those of a later one. */
  lemma RequirementsSpec(text: string)
    ensures |RequirementsOf(text)| <= 10
    ensures forall i | 0 <= i < |RequirementsOf(text)| ::
      PatternIndex(RequirementsOf(text)[i]) < |RequirementPatterns|
      && ClauseFor(RequirementsOf(text)[i], RequirementPatterns[PatternIndex(RequirementsOf(text)[i])].keyword)
    ensures forall i, j | 0 <= i < j < |RequirementsOf(text)| ::
      PatternIndex(RequirementsOf(text)[i]) <= PatternIndex(RequirementsOf(text)[j])
  {
    RequirementMatchesClauses(text, |RequirementPatterns|);
    RequirementMatchesOrdered(text, |RequirementPatterns|);
    var all := RequirementMatches(text, |RequirementPatterns|);
    forall i | 0 <= i < |RequirementsOf(text)| ensures RequirementsOf(text)[i] == all[i] { }
  }

  // ---------------------------------------------------------------------------
  // generateRuleBasedSummary

  /** The words whose presence raises a sentence's score. */
  const SummaryKeywords: seq<string> := ["tender", "work", "construction", "supply", "maintenance", "project"]

  /** The alternatives of the currency pattern, matched case-insensitively. The
      second is the rupee sign `₹` as it reads when its UTF-8 bytes are decoded
      as Windows-1252. */
  const CurrencyPatterns: seq<string> := ["rs", "\U{E2}\U{201A}\U{B9}", "rupees", "inr"]

  /** How many of `keywords` occur in `lowerText`. */
  function CountContained(lowerText: string, keywords: seq<string>): (n: nat)
    ensures n <= |keywords|
  {
    if keywords == [] then 0
    else
      CountContained(lowerText, keywords[..|keywords| - 1])
      + (if Contains(lowerText, keywords[|keywords| - 1]) then 1 else 0)
  }

  /** `/\d/.test(sentence)`. */
  predicate HasDigit(s: string) {
    exists i | 0 <= i < |s| :: IsDigit(s[i])
  }

  /** `/(?:rs|â‚¹|rupees|inr)/i.test(sentence)`. */
  predicate MentionsCurrency(s: string) {
    exists k | k in CurrencyPatterns :: ContainsFold(s, k)
  }

  /** The score of the sentence at position `index`: two points per keyword it
      contains, three for each of the first five sentences, one for a digit, two
      for a currency mention. */
  function SentenceScore(sentence: string, index: nat): int {
    2 * CountContained(Lower(sentence), SummaryKeywords)
    + (if index < 5 then 3 else 0)
    + (if HasDigit(sentence) then 1 else 0)
    + (if MentionsCurrency(sentence) then 2 else 0)
  }

  /** The loop body of `generateRuleBasedSummary` that scores one sentence. */
  method ScoreSentence(sentence: string, index: nat) returns (score: int)
    ensures score == SentenceScore(sentence, index)
  {
    score := 0;
    var lowerSentence := Lower(sentence);
    var k := 0;
    while k < |SummaryKeywords|
      invariant 0 <= k <= |SummaryKeywords|
      invariant score == 2 * CountContained(lowerSentence, SummaryKeywords[..k])
    {
      assert SummaryKeywords[..k + 1][..k] == SummaryKeywords[..k];
      if Contains(lowerSentence, SummaryKeywords[k]) {
        score := score + 2;
      }
      k := k + 1;
    }
    assert SummaryKeywords[..k] == SummaryKeywords;
    if index < 5 {
      score := score + 3;
    }
    if exists i | 0 <= i < |sentence| :: IsDigit(sentence[i]) {
      score := score + 1;
    }
    if exists c | c in CurrencyPatterns :: ContainsFold(sentence, c) {
      score := score + 2;
    }
  }

  /** Scores lie between 0 and 18. */
  lemma SentenceScoreBounds(sentence: string, index: nat)
    ensures 0 <= SentenceScore(sentence, index) <= 2 * |SummaryKeywords| + 3 + 1 + 2
  {
  }

  /** A sentence after the fifth is kept only when it contains a keyword: a digit
      and a currency mention alone reach 3, which is not above the threshold. */
  lemma LateSentenceNeedsKeyword(sentence: string, index: nat)
    requires index >= 5 && SentenceScore(sentence, index) > 3
    ensures CountContained(Lower(sentence), SummaryKeywords) >= 1
  {
  }

  /** Each of the first five sentences is kept when it contains a keyword. */
  lemma EarlyKeywordSentenceKept(sentence: string, index: nat)
    requires index < 5 && CountContained(Lower(sentence), SummaryKeywords) >= 1
    ensures SentenceScore(sentence, index) > 3
  {
  }

  /** The currency alternative `rs` also matches inside ordinary words. */
  lemma CurrencyInsideWord()
    ensures MentionsCurrency("hours")
  {
    var rs := CurrencyPatterns[0];
    assert rs == "rs" && rs in CurrencyPatterns;
    assert FoldMatchAt("hours", rs, 3) by {
      assert "hours"[3] == 'r' && "hours"[4] == 's';
    }
    assert ContainsFold("hours", rs);
  }

  /** The mis-encoded rupee sign never matches a normalised text: its middle
      character is not one the normaliser keeps. */
  lemma RupeeSignNeverMatches(s: string)
    requires forall i | 0 <= i < |s| :: CleanChar(s[i])
    ensures !ContainsFold(s, CurrencyPatterns[1])
  {
    var sign := CurrencyPatterns[1];
    forall i | 0 <= i <= |s| - |sign| ensures !FoldMatchAt(s, sign, i) {
      assert CleanChar(s[i + 1]);
      assert FoldChar(s[i + 1]) != FoldChar(sign[1]);
    }
  }

  /** A sentence kept for the overview, with its score and position. */
  datatype ScoredSentence = ScoredSentence(sentence: string, score: int, index: nat)

  function ScoreOf(x: ScoredSentence): int { x.score }

  function IndexOf(x: ScoredSentence): int { x.index }

  function SentenceOf(x: ScoredSentence): string { x.sentence }

  predicate IsImportant(x: ScoredSentence) { x.score > 3 }

  /** Every sentence with its score and position. */
  function Scored(sentences: seq<string>): (r: seq<ScoredSentence>)
    ensures |r| == |sentences|
  {
    seq(|sentences|, i requires 0 <= i < |sentences| => ScoredSentence(sentences[i], SentenceScore(sentences[i], i), i))
  }

  /** `importantSentences` after the loop: the sentences scoring above 3, in document order. */
  function Important(sentences: seq<string>): seq<ScoredSentence> {
    Filter(Scored(sentences), IsImportant)
  }

  /** `importantSentences` after `sort((a, b) => b.score - a.score)`. */
  function Ranked(sentences: seq<string>): seq<ScoredSentence> {
    Sorting.SortByKeyDesc(Important(sentences), ScoreOf)
  }

  /** The three sentences the overview is made of. */
  function TopSentences(sentences: seq<string>): seq<ScoredSentence> {
    Take(Ranked(sentences), 3)
  }

  /** The `overview` of `generateRuleBasedSummary`. */
  function RuleBasedOverview(sentences: seq<string>): string {
    Join(Map(TopSentences(sentences), SentenceOf), " ")
  }

  /** `generateRuleBasedSummary`: score every sentence, keep those above 3, sort
      them by score, join the first three, and describe the scope. */
  method GenerateRuleBasedSummary(sentences: seq<string>, info: ExtractedInfo) returns (overview: string, scope: string)
    ensures overview == RuleBasedOverview(sentences)
    ensures scope == ScopeDescription(info)
  {
    var importantSentences: seq<ScoredSentence> := [];
    var index := 0;
    while index < |sentences|
      invariant 0 <= index <= |sentences|
      invariant importantSentences == Filter(Scored(sentences)[..index], IsImportant)
    {
      var sentence := sentences[index];
      var score := ScoreSentence(sentence, index);
      var item := ScoredSentence(sentence, score, index);
      assert Scored(sentences)[..index + 1] == Scored(sentences)[..index] + [item];
      FilterSnoc(Scored(sentences)[..index], item, IsImportant);
      if score > 3 {
        importantSentences := importantSentences + [item];
      }
      index := index + 1;
    }
    assert Scored(sentences)[..index] == Scored(sentences);
    importantSentences := Sorting.SortByKeyDesc(importantSentences, ScoreOf);
    overview := Join(Map(Take(importantSentences, 3), SentenceOf), " ");
    scope := ScopeDescription(info);
  }

  /** An entry of the scored list describes the sentence at its own position. */
  lemma ScoredEntry(sentences: seq<string>, x: ScoredSentence)
    requires x in Scored(sentences)
    ensures x.index < |sentences| && x.sentence == sentences[x.index]
    ensures x.score == SentenceScore(x.sentence, x.index)
  {
    var i :| 0 <= i < |Scored(sentences)| && Scored(sentences)[i] == x;
  }

  /** The ranked list is the important sentences, reordered. */
  lemma RankedMembers(sentences: seq<string>, x: ScoredSentence)
    requires x in Ranked(sentences)
    ensures x in Important(sentences)
  {
    assert x in multiset(Ranked(sentences));
  }

  /** At most three sentences, each above the threshold and scored by the
      formula at its position in the document. */
  lemma TopSentencesScored(sentences: seq<string>)
    ensures |TopSentences(sentences)| <= 3
    ensures forall x | x in TopSentences(sentences) ::
      x.index < |sentences| && x.sentence == sentences[x.index]
      && x.score == SentenceScore(x.sentence, x.index) && x.score > 3
  {
    var top := TopSentences(sentences);
    var ranked := Ranked(sentences);
    forall x | x in top
      ensures x.index < |sentences| && x.sentence == sentences[x.index]
      ensures x.score == SentenceScore(x.sentence, x.index) && x.score > 3
    {
      assert x in ranked;
      RankedMembers(sentences, x);
      FilterMembers(Scored(sentences), IsImportant);
      ScoredEntry(sentences, x);
    }
  }

  /** The chosen sentences come in non-increasing score order, and sentences
      with equal scores keep their document order. */
  lemma TopSentencesOrdered(sentences: seq<string>)
    ensures Sorting.SortedDesc(TopSentences(sentences), ScoreOf)
    ensures Sorting.TiesOrdered(TopSentences(sentences), ScoreOf, IndexOf)
  {
    var all := Scored(sentences);
    forall i, j | 0 <= i < j < |all| ensures IndexOf(all[i]) < IndexOf(all[j]) { }
    FilterKeepsIncreasing(all, IsImportant, IndexOf);
    Sorting.SortByKeyDescSorted(Important(sentences), ScoreOf);
    Sorting.SortByKeyDescStable(Important(sentences), ScoreOf, IndexOf);
    var ranked := Ranked(sentences);
    var top := TopSentences(sentences);
    forall i | 0 <= i < |top| ensures top[i] == ranked[i] { }
  }

  /** No sentence left out scores above a chosen one: a kept sentence missing
      from the overview means three were chosen, none scoring below it. */
  lemma TopSentencesMaximal(sentences: seq<string>, x: ScoredSentence)
    requires x in Important(sentences) && x !in TopSentences(sentences)
    ensures |TopSentences(sentences)| == 3 && x.score <= TopSentences(sentences)[2].score
  {
    var ranked := Ranked(sentences);
    var top := TopSentences(sentences);
    assert x in multiset(Important(sentences));
    assert x in ranked;
    var k :| 0 <= k < |ranked| && ranked[k] == x;
    assert k >= |top|;
    Sorting.SortByKeyDescSorted(Important(sentences), ScoreOf);
    assert top[2] == ranked[2];
  }

  // ---------------------------------------------------------------------------
  // Field derivations of generateSummary

  /** `s.charAt(0).toUpperCase() + s.slice(1)`. */
  function Capitalize(s: string): (r: string)
    ensures |r| == |s|
  {
    if s == [] then [] else [UpperChar(s[0])] + s[1..]
  }

  /** `determineWorkType`: the first project type, capitalised, or "General Work". */
  function DetermineWorkType(info: ExtractedInfo): string {
    if |info.projectTypes| > 0 then Capitalize(info.projectTypes[0]) else "General Work"
  }

  /** `extractEstimatedValue` and `extractLocation`: the first item, or "Not specified". */
  function FirstOrNotSpecified(items: seq<string>): (r: string)
    ensures items != [] ==> r == items[0]
    ensures items == [] ==> r == "Not specified"
  {
    if |items| > 0 then items[0] else "Not specified"
  }

  function ExtractEstimatedValue(info: ExtractedInfo): string {
    FirstOrNotSpecified(info.money)
  }

  function ExtractLocation(info: ExtractedInfo): string {
    FirstOrNotSpecified(info.places)
  }

  const TimelineKeywords: seq<string> := ["days", "weeks", "months", "completion", "duration"]

  /** A value that names a duration. */
  predicate IsTimelineNumber(num: string) {
    exists k | k in TimelineKeywords :: Contains(Lower(num), k)
  }

  /** `extractTimeline`: the first value naming a duration, else the first date
      as a target, else "Not specified". */
  function ExtractTimeline(info: ExtractedInfo): string {
    var relevantNumbers := Filter(info.numbers, IsTimelineNumber);
    if |relevantNumbers| > 0 then relevantNumbers[0]
    else if |info.dates| > 0 then "Target completion: " + info.dates[0]
    else "Not specified"
  }

  /** `generateScopeDescription`. */
  function ScopeDescription(info: ExtractedInfo): string {
    if |info.workDescription| > 0 then Join(Take(info.workDescription, 2), " ")
    else if |info.projectTypes| > 0 then Join(info.projectTypes, ", ") + " project"
    else "Project scope not clearly specified in document"
  }

  /** The type names start with letters other than 'g', so a capitalised one
      is never "General Work". */
  lemma TypeNameInitials(i: nat)
    requires i < |TypeNames|
    ensures |TypeNames[i]| > 0 && UpperChar(TypeNames[i][0]) != 'G'
  {
  }

  /** The work type of a document is "General Work" exactly when no project type
      was detected; otherwise it is the first type detected, capitalised. */
  lemma WorkTypeSpec(text: string, info: ExtractedInfo)
    requires info.projectTypes == ProjectTypesOf(text)
    ensures DetermineWorkType(info) == "General Work" <==> info.projectTypes == []
    ensures info.projectTypes != [] ==> DetermineWorkType(info) == Capitalize(info.projectTypes[0])
  {
    var types := info.projectTypes;
    if types != [] {
      ProjectTypesSpec(text);
      assert types[0] in types;
      var i :| 0 <= i < |TypeNames| && TypeNames[i] == types[0];
      TypeNameInitials(i);
      assert DetermineWorkType(info)[0] != "General Work"[0];
    }
  }

  /** The timeline is the first value naming a duration when there is one;
      without one, it is built from the first date, or is "Not specified". */
  lemma TimelineSpec(info: ExtractedInfo)
    ensures (exists i | 0 <= i < |info.numbers| :: IsTimelineNumber(info.numbers[i])) ==>
      exists i | 0 <= i < |info.numbers| ::
        ExtractTimeline(info) == info.numbers[i] && IsTimelineNumber(info.numbers[i])
        && forall j | 0 <= j < i :: !IsTimelineNumber(info.numbers[j])
    ensures (forall i | 0 <= i < |info.numbers| :: !IsTimelineNumber(info.numbers[i])) ==>
      ExtractTimeline(info) == (if |info.dates| > 0 then "Target completion: " + info.dates[0] else "Not specified")
  {
    var relevant := Filter(info.numbers, IsTimelineNumber);
    FilterMembers(info.numbers, IsTimelineNumber);
    if relevant != [] {
      FilterHead(info.numbers, IsTimelineNumber);
    } else {
      forall i | 0 <= i < |info.numbers| ensures !IsTimelineNumber(info.numbers[i]) {
        assert info.numbers[i] in info.numbers;
      }
    }
  }

  /** The scope is the first two work sentences, else the project types, else a fixed notice. */
  lemma ScopeSpec(info: ExtractedInfo)
    ensures info.workDescription != [] ==> ScopeDescription(info) == Join(Take(info.workDescription, 2), " ")
    ensures info.workDescription == [] && info.projectTypes != [] ==>
      ScopeDescription(info) == Join(info.projectTypes, ", ") + " project"
    ensures info.workDescription == [] && info.projectTypes == [] ==>
      ScopeDescription(info) == "Project scope not clearly specified in document"
  {
  }

  // ---------------------------------------------------------------------------
  // calculateConfidence

  /** The confidence score: points for a long text, more for a very long one,
      and points for each kind of information found, at most 100. */
  function ConfidenceOf(textLength: nat, info: ExtractedInfo): int {
    var raw :=
      (if textLength > 1000 then 20 else 0)
      + (if textLength > 5000 then 20 else 0)
      + (if |info.organizations| > 0 then 15 else 0)
      + (if |info.money| > 0 then 15 else 0)
      + (if |info.places| > 0 then 10 else 0)
      + (if |info.projectTypes| > 0 then 15 else 0)
      + (if |info.requirements| > 0 then 5 else 0);
    if raw < 100 then raw else 100
  }

  method CalculateConfidence(text: string, info: ExtractedInfo) returns (confidence: int)
    ensures confidence == ConfidenceOf(|text|, info)
  {
    confidence := 0;
    if |text| > 1000 { confidence := confidence + 20; }
    if |text| > 5000 { confidence := confidence + 20; }
    if |info.organizations| > 0 { confidence := confidence + 15; }
    if |info.money| > 0 { confidence := confidence + 15; }
    if |info.places| > 0 { confidence := confidence + 10; }
    if |info.projectTypes| > 0 { confidence := confidence + 15; }
    if |info.requirements| > 0 { confidence := confidence + 5; }
    confidence := if confidence < 100 then confidence else 100;
  }

  /** The score is between 0 and 100, and 100 only when every point was earned:
      the points add up to 100, so the cap never cuts. */
  lemma ConfidenceBounds(textLength: nat, info: ExtractedInfo)
    ensures 0 <= ConfidenceOf(textLength, info) <= 100
    ensures ConfidenceOf(textLength, info) == 100 <==>
      textLength > 5000 && info.organizations != [] && info.money != [] && info.places != []
      && info.projectTypes != [] && info.requirements != []
  {
  }

  /** The score is 0 exactly when the text has at most 1000 characters and none
      of the five lists has an item. */
  lemma ConfidenceZero(textLength: nat, info: ExtractedInfo)
    ensures ConfidenceOf(textLength, info) == 0 <==>
      textLength <= 1000 && info.organizations == [] && info.money == [] && info.places == []
      && info.projectTypes == [] && info.requirements == []
  {
  }

  /** A longer text, or a list that gains an item, never lowers the score. */
  lemma ConfidenceMonotone(len1: nat, info1: ExtractedInfo, len2: nat, info2: ExtractedInfo)
    requires len1 <= len2
    requires info1.organizations != [] ==> info2.organizations != []
    requires info1.money != [] ==> info2.money != []
    requires info1.places != [] ==> info2.places != []
    requires info1.projectTypes != [] ==> info2.projectTypes != []
    requires info1.requirements != [] ==> info2.requirements != []
    ensures ConfidenceOf(len1, info1) <= ConfidenceOf(len2, info2)
  {
  }

  // ---------------------------------------------------------------------------
  // generateAISummary and generateSummary

  const MaxAiInput: nat := 4000

  /** The text handed to the summarisation model: at most 4000 characters, with
      "..." appended when it was cut. */
  function AiInput(text: string): (r: string)
    ensures |text| <= MaxAiInput ==> r == text
    ensures |text| > MaxAiInput ==> r == text[..MaxAiInput] + "..."
  {
    if |text| > MaxAiInput then text[..MaxAiInput] + "..." else text
  }

  /** The truncated input is never longer than 4003 characters and always
      starts with the text's first 4000 characters. */
  lemma AiInputBounds(text: string)
    ensures |AiInput(text)| <= MaxAiInput + 3
    ensures var n := if |text| < MaxAiInput then |text| else MaxAiInput;
      AiInput(text)[..n] == text[..n]
  {
  }

  /** `aiSummary || ruleBased.overview`: a missing or empty model summary falls
      back to the rule-based overview. */
  function ChooseOverview(aiSummary: Option<string>, ruleBased: string): (r: string)
    ensures aiSummary.Some? && aiSummary.value != "" ==> r == aiSummary.value
    ensures aiSummary.None? || aiSummary.value == "" ==> r == ruleBased
  {
    if aiSummary.Some? && aiSummary.value != "" then aiSummary.value else ruleBased
  }

  /** `generateSummary` on the cleaned text, its extracted information and its
      sentences. `hasToken` says whether an API token is configured; `ai` is the
      remote model applied to its input, `None` when the call fails or returns
      nothing. */
  function GenerateSummary(text: string, info: ExtractedInfo, sentences: seq<string>,
                           hasToken: bool, ai: string -> Option<string>): Summary
  {
    var aiSummary := if hasToken then ai(AiInput(text)) else None;
    Summary(
      ChooseOverview(aiSummary, RuleBasedOverview(sentences)),
      DetermineWorkType(info),
      ExtractEstimatedValue(info),
      ExtractLocation(info),
      Take(info.requirements, 3),
      ExtractTimeline(info),
      ScopeDescription(info),
      ConfidenceOf(|text|, info))
  }

  /** What the summary record holds: the model is only consulted with a token,
      and on the truncated text; at most three key requirements, the first ones
      found; a confidence between 0 and 100. */
  lemma GenerateSummarySpec(text: string, info: ExtractedInfo, sentences: seq<string>,
                            hasToken: bool, ai: string -> Option<string>)
    ensures var s := GenerateSummary(text, info, sentences, hasToken, ai);
      && (!hasToken ==> s.overview == RuleBasedOverview(sentences))
      && (hasToken && ai(AiInput(text)).Some? && ai(AiInput(text)).value != "" ==>
            s.overview == ai(AiInput(text)).value)
      && (hasToken && (ai(AiInput(text)).None? || ai(AiInput(text)).value == "") ==>
            s.overview == RuleBasedOverview(sentences))
      && |s.keyRequirements| <= 3
      && s.keyRequirements == info.requirements[..|s.keyRequirements|]
      && 0 <= s.confidence <= 100
  {
    ConfidenceBounds(|text|, info);
  }

  // ---------------------------------------------------------------------------
  // extractKeyInformation and processDocument

  /** `extractKeyInformation`: the toolkit's entity lists for the text, and the
      project types, work sentences and requirement clauses found in it. */
  function ExtractKeyInformation(text: string, entities: Entities): ExtractedInfo {
    ExtractedInfo(
      entities.organizations, entities.places, entities.money, entities.dates, entities.numbers,
      ProjectTypesOf(text), WorkDescriptionOf(entities.sentences), RequirementsOf(text))
  }

  /** The result of `processDocument`; the metadata holds the text length and
      the confidence. */
  datatype ProcessedDocument = ProcessedDocument(
    originalText: string,
    cleanText: string,
    extractedInfo: ExtractedInfo,
    summary: Summary,
    textLength: nat,
    confidence: int)

  /** `processDocument`: extract the text, clean it, analyse the cleaned text
      (`nlp` stands for the language toolkit), summarise it. An extraction
      failure is passed on. */
  function ProcessDocument(mimeType: string, read: Extractor -> Result<string, string>,
                           nlp: string -> Entities, hasToken: bool,
                           ai: string -> Option<string>): Result<ProcessedDocument, string>
  {
    match ExtractText(mimeType, read)
    case Failure(e) => Failure(e)
    case Success(rawText) =>
      var cleanText := PreprocessText(rawText);
      var entities := nlp(cleanText);
      var info := ExtractKeyInformation(cleanText, entities);
      var summary := GenerateSummary(cleanText, info, entities.sentences, hasToken, ai);
      Success(ProcessedDocument(rawText, cleanText, info, summary, |cleanText|, summary.confidence))
  }

  /** A document of an unsupported type fails with the dispatch error; otherwise
      processing fails exactly when reading fails. A processed document's clean
      text is the normalised original, made of clean characters only; its
      recorded length and confidence are those of the clean text and the summary. */
  lemma ProcessDocumentSpec(mimeType: string, read: Extractor -> Result<string, string>,
                            nlp: string -> Entities, hasToken: bool, ai: string -> Option<string>)
    ensures mimeType !in SupportedTypes ==>
      ProcessDocument(mimeType, read, nlp, hasToken, ai) == Failure("Unsupported file type: " + mimeType)
    ensures ProcessDocument(mimeType, read, nlp, hasToken, ai).Success? <==> ExtractText(mimeType, read).Success?
    ensures var r := ProcessDocument(mimeType, read, nlp, hasToken, ai);
      r.Success? ==>
        && r.value.originalText == ExtractText(mimeType, read).value
        && r.value.cleanText == PreprocessText(r.value.originalText)
        && |r.value.cleanText| <= |r.value.originalText|
        && (forall i | 0 <= i < |r.value.cleanText| :: CleanChar(r.value.cleanText[i]))
        && r.value.textLength == |r.value.cleanText|
        && r.value.confidence == r.value.summary.confidence
        && 0 <= r.value.confidence <= 100
        && r.value.extractedInfo.projectTypes == ProjectTypesOf(r.value.cleanText)
        && r.value.extractedInfo.requirements == RequirementsOf(r.value.cleanText)
  {
    var r := ProcessDocument(mimeType, read, nlp, hasToken, ai);
    if r.Success? {
      ConfidenceBounds(|r.value.cleanText|, r.value.extractedInfo);
    }
  }

  /** A work sentence is never empty: it contains a keyword. */
  lemma WorkSentenceNotEmpty(sentence: string)
    requires IsWorkSentence(sentence)
    ensures sentence != ""
  {
    var k :| k in WorkKeywords && Contains(Lower(sentence), k);
    var i :| 0 <= i <= |Lower(sentence)| - |k| && SubstringAt(Lower(sentence), k, i);
  }

  lemma JoinNotShorter(parts: seq<string>, sep: string)
    requires parts != []
    ensures |Join(parts, sep)| >= |parts[0]|
  {
  }

  /** The work type is never empty. */
  lemma WorkTypePresent(text: string, info: ExtractedInfo)
    requires info.projectTypes == ProjectTypesOf(text)
    ensures DetermineWorkType(info) != ""
  {
    if info.projectTypes != [] {
      ProjectTypesSpec(text);
      assert info.projectTypes[0] in info.projectTypes;
      var i :| 0 <= i < |TypeNames| && TypeNames[i] == info.projectTypes[0];
      TypeNameInitials(i);
    }
  }

  /** The scope description is never empty. */
  lemma ScopePresent(info: ExtractedInfo, sentences: seq<string>)
    requires info.workDescription == WorkDescriptionOf(sentences)
    ensures ScopeDescription(info) != ""
  {
    if info.workDescription != [] {
      WorkDescriptionSpec(sentences);
      WorkSentenceNotEmpty(info.workDescription[0]);
      JoinNotShorter(Take(info.workDescription, 2), " ");
    }
  }

  /** A processed document's summary carries a non-empty work type and scope
      description, which the record schema requires. */
  lemma ProcessedSummaryComplete(mimeType: string, read: Extractor -> Result<string, string>,
                                 nlp: string -> Entities, hasToken: bool, ai: string -> Option<string>)
    ensures var r := ProcessDocument(mimeType, read, nlp, hasToken, ai);
      r.Success? ==> r.value.summary.workType != "" && r.value.summary.projectScope != ""
  {
    var r := ProcessDocument(mimeType, read, nlp, hasToken, ai);
    if r.Success? {
      var text := PreprocessText(ExtractText(mimeType, read).value);
      var entities := nlp(text);
      var info := ExtractKeyInformation(text, entities);
      WorkTypePresent(text, info);
      ScopePresent(info, entities.sentences);
    }
  }
}
