/**
  The tender-summary record (backend/models/TenderSummary.js): the result of
  processing one tender document as it is stored, the schema's checks and
  defaults, the pre-save hook that derives the category and the search
  keywords, the two instance methods that change a record and save it, the
  public projection, and the static queries. The database is a store holding
  the saved records in insertion order.
 */
module TenderSummaries {
  import opened Wrappers
  import opened Js
  import Sorting
  import opened DocumentProcessor

  datatype Status = Processing | Completed | Failed | Archived

  /** One entry of `errorLog`. */
  datatype ErrorEntry = ErrorEntry(timestamp: int, error: string, stack: Option<string>)

  /** What `addError` may be handed: an `Error` object or a bare string. */
  datatype Thrown =
    | ErrorObject(name: string, message: string, errorStack: Option<string>)
    | Text(text: string)

  /** `error.message || error` stored in a string field: an empty message falls
      back on the error itself, which an `Error` object renders as its name. */
  function ErrorText(e: Thrown): string {
    match e
    case ErrorObject(name, message, _) => if message != "" then message else name
    case Text(t) => t
  }

  /** `stack || error.stack`: a missing or empty stack falls back on the error's
      own, which a bare string does not have. */
  function ErrorStack(stack: Option<string>, e: Thrown): Option<string> {
    if stack.Some? && stack.value != "" then stack
    else if e.ErrorObject? then e.errorStack
    else None
  }

  /** The fields a record is created with, which no later operation changes. */
  datatype RecordContent = RecordContent(
    tenderAddress: string,
    tenderId: string,
    fileName: string,
    filePath: string,
    fileSize: int,
    mimeType: string,
    ipfsHash: Option<string>,
    originalText: string,
    cleanText: string,
    extractedInfo: ExtractedInfo,
    summary: Summary,
    uploadedBy: string,
    processedAt: int,
    textLength: Option<int>,
    processingDuration: int,
    isPublic: bool)

  /** A saved record. */
  datatype Record = Record(
    id: nat,
    content: RecordContent,
    status: Status,
    category: string,
    searchKeywords: seq<string>,
    validationScore: int,
    reviewedBy: Option<string>,
    reviewedAt: Option<int>,
    errorLog: seq<ErrorEntry>)

  const ValidationFailed := "TenderSummary validation failed"
  const NotFound := "No document found for query"

  /** The schema's checks: every required string is present and non-empty, the
      required text length is present, and the bounded numbers lie in 0..100. */
  predicate PassesValidation(c: RecordContent, validationScore: int) {
    && c.tenderAddress != "" && c.tenderId != "" && c.fileName != "" && c.filePath != ""
    && c.mimeType != "" && c.originalText != "" && c.cleanText != "" && c.uploadedBy != ""
    && c.textLength.Some?
    && c.summary.overview != "" && c.summary.workType != "" && c.summary.projectScope != ""
    && 0 <= c.summary.confidence <= 100
    && 0 <= validationScore <= 100
  }

  // ---------------------------------------------------------------------------
  // The pre-save hook's keywords

  /** `if (s) keywords.add(s.toLowerCase())`. */
  function AddIfPresent(keys: seq<string>, s: string): seq<string> {
    if s != "" then AddUnique(keys, Lower(s)) else keys
  }

  /** The keyword set the hook builds, in insertion order: the work type, the
      location, then the project types, organisations and places, lowercased. */
  function SearchKeywordsOf(summary: Summary, info: ExtractedInfo): seq<string> {
    var fromSummary := AddIfPresent(AddIfPresent([], summary.workType), summary.location);
    AddAll(AddAll(AddAll(fromSummary, Map(info.projectTypes, Lower)), Map(info.organizations, Lower)),
           Map(info.places, Lower))
  }

  /** `forEach(x => keywords.add(x.toLowerCase()))`. */
  method AddLowered(keys: seq<string>, items: seq<string>) returns (r: seq<string>)
    ensures r == AddAll(keys, Map(items, Lower))
  {
    r := keys;
    for k := 0 to |items|
      invariant r == AddAll(keys, Map(items[..k], Lower))
    {
      assert Map(items[..k + 1], Lower)[..k] == Map(items[..k], Lower);
      r := AddUnique(r, Lower(items[k]));
    }
    assert items[..|items|] == items;
  }

  lemma LowerIdempotent(s: string)
    ensures Lower(Lower(s)) == Lower(s)
  {
  }

  /** The keywords hold no duplicates, are all lowercase, and are exactly the
      lowercased non-empty work type and location and the lowercased project
      types, organisations and places. */
  lemma SearchKeywordsSpec(summary: Summary, info: ExtractedInfo)
    ensures Distinct(SearchKeywordsOf(summary, info))
    ensures forall k :: k in SearchKeywordsOf(summary, info) <==>
      || (summary.workType != "" && k == Lower(summary.workType))
      || (summary.location != "" && k == Lower(summary.location))
      || k in Map(info.projectTypes, Lower)
      || k in Map(info.organizations, Lower)
      || k in Map(info.places, Lower)
    ensures forall k | k in SearchKeywordsOf(summary, info) :: Lower(k) == k
  {
    var a := AddIfPresent([], summary.workType);
    var b := AddIfPresent(a, summary.location);
    var c := AddAll(b, Map(info.projectTypes, Lower));
    var d := AddAll(c, Map(info.organizations, Lower));
    assert Distinct(b) by {
      if summary.location != "" && Lower(summary.location) !in a {
        AddUniqueDistinct(a, Lower(summary.location));
      }
    }
    AddAllDistinct(b, Map(info.projectTypes, Lower));
    AddAllDistinct(c, Map(info.organizations, Lower));
    AddAllDistinct(d, Map(info.places, Lower));
    AddAllMembers(b, Map(info.projectTypes, Lower));
    AddAllMembers(c, Map(info.organizations, Lower));
    AddAllMembers(d, Map(info.places, Lower));
    LowerIdempotent(summary.workType);
    LowerIdempotent(summary.location);
    forall s | s in info.projectTypes + info.organizations + info.places ensures Lower(Lower(s)) == Lower(s) {
      LowerIdempotent(s);
    }
  }

  // ---------------------------------------------------------------------------
  // A record in memory

  /** A record as a document: built by `new TenderSummary(fields)`, changed in
      place, and written by `save()`. */
  class SummaryDocument {
    var id: Option<nat>
    var content: RecordContent
    var status: Status
    var category: string
    var searchKeywords: seq<string>
    var validationScore: int
    var reviewedBy: Option<string>
    var reviewedAt: Option<int>
    var errorLog: seq<ErrorEntry>
    /** `isModified('summary') || isModified('extractedInfo')`: true for a new
        document, false after a save. */
    var contentModified: bool

    /** A new document holds the given fields and the schema's defaults. */
    constructor(c: RecordContent)
      ensures id == None && content == c
      ensures status == Completed && category == "general" && searchKeywords == []
      ensures validationScore == 0 && reviewedBy == None && reviewedAt == None && errorLog == []
      ensures contentModified
    {
      id := None;
      content := c;
      status := Completed;
      category := "general";
      searchKeywords := [];
      validationScore := 0;
      reviewedBy := None;
      reviewedAt := None;
      errorLog := [];
      contentModified := true;
    }

    /** The record the document is saved as. */
    function Snapshot(recordId: nat): Record
      reads this
    {
      Record(recordId, content, status, category, searchKeywords, validationScore,
             reviewedBy, reviewedAt, errorLog)
    }

    /** The pre-save hook: when the summary or the extracted information changed,
        the category becomes the lowercased work type and the keywords are
        derived anew; otherwise both stay as they were. */
    method PreSave()
      modifies this
      ensures old(contentModified) ==>
        && category == Lower(content.summary.workType)
        && searchKeywords == SearchKeywordsOf(content.summary, content.extractedInfo)
      ensures !old(contentModified) ==> category == old(category) && searchKeywords == old(searchKeywords)
      ensures id == old(id) && content == old(content) && status == old(status)
      ensures validationScore == old(validationScore) && reviewedBy == old(reviewedBy)
      ensures reviewedAt == old(reviewedAt) && errorLog == old(errorLog)
      ensures contentModified == old(contentModified)
    {
      if contentModified {
        var summary := content.summary;
        var info := content.extractedInfo;
        var keywords := AddIfPresent([], summary.workType);
        keywords := AddIfPresent(keywords, summary.location);
        keywords := AddLowered(keywords, info.projectTypes);
        keywords := AddLowered(keywords, info.organizations);
        keywords := AddLowered(keywords, info.places);
        category := Lower(summary.workType);
        searchKeywords := keywords;
      }
    }

    /** `updateValidationScore`: records the score and the reviewer, then saves.
        A score outside 0..100 fails validation and nothing is stored, though
        the document keeps the new values. */
    method UpdateValidationScore(score: int, reviewer: Option<string>, now: int, store: SummaryStore)
      returns (r: Result<nat, string>)
      requires store.Valid()
      modifies this, store
      ensures store.Valid()
      ensures validationScore == score && reviewedBy == reviewer && reviewedAt == Some(now)
      ensures content == old(content) && status == old(status) && errorLog == old(errorLog)
      ensures !old(contentModified) ==> category == old(category) && searchKeywords == old(searchKeywords)
      ensures !PassesValidation(old(content), score) ==>
        r == Failure(ValidationFailed) && store.records == old(store.records)
      ensures !(0 <= score <= 100) ==> r == Failure(ValidationFailed) && store.records == old(store.records)
      ensures PassesValidation(old(content), score) && old(id).None? ==>
        r == Success(old(store.nextId)) && store.records == old(store.records) + [Snapshot(old(store.nextId))]
      ensures PassesValidation(old(content), score) && old(id).Some? ==>
        && (IndexOfId(old(store.records), old(id).value).Some? ==>
              r == Success(old(id).value) && store.records == Replace(old(store.records), Snapshot(old(id).value)))
        && (IndexOfId(old(store.records), old(id).value).None? ==>
              r == Failure(NotFound) && store.records == old(store.records))
      ensures r.Failure? ==> store.records == old(store.records)
      ensures r.Success? ==> id == Some(r.value) && Snapshot(r.value) in store.records
    {
      validationScore := score;
      reviewedBy := reviewer;
      reviewedAt := Some(now);
      r := store.Save(this);
    }

    /** `addError`: appends one entry to the error log, marks the record failed,
        then saves. */
    method AddError(e: Thrown, stack: Option<string>, now: int, store: SummaryStore)
      returns (r: Result<nat, string>)
      requires store.Valid()
      modifies this, store
      ensures store.Valid()
      ensures errorLog == old(errorLog) + [ErrorEntry(now, ErrorText(e), ErrorStack(stack, e))]
      ensures status == Failed
      ensures content == old(content) && validationScore == old(validationScore)
      ensures reviewedBy == old(reviewedBy) && reviewedAt == old(reviewedAt)
      ensures !old(contentModified) ==> category == old(category) && searchKeywords == old(searchKeywords)
      ensures !PassesValidation(old(content), old(validationScore)) ==>
        r == Failure(ValidationFailed) && store.records == old(store.records)
      ensures PassesValidation(old(content), old(validationScore)) && old(id).None? ==>
        r == Success(old(store.nextId)) && store.records == old(store.records) + [Snapshot(old(store.nextId))]
      ensures PassesValidation(old(content), old(validationScore)) && old(id).Some? ==>
        && (IndexOfId(old(store.records), old(id).value).Some? ==>
              r == Success(old(id).value) && store.records == Replace(old(store.records), Snapshot(old(id).value)))
        && (IndexOfId(old(store.records), old(id).value).None? ==>
              r == Failure(NotFound) && store.records == old(store.records))
      ensures r.Failure? ==> store.records == old(store.records)
      ensures r.Success? ==> id == Some(r.value) && Snapshot(r.value) in store.records
    {
      errorLog := errorLog + [ErrorEntry(now, ErrorText(e), ErrorStack(stack, e))];
      status := Failed;
      r := store.Save(this);
    }
  }

  // ---------------------------------------------------------------------------
  // The store

  /** The position of the record with the given id, if one is stored. */
  function IndexOfId(records: seq<Record>, id: nat): (r: Option<nat>)
    ensures r.Some? ==> r.value < |records| && records[r.value].id == id
    ensures r.None? <==> forall i | 0 <= i < |records| :: records[i].id != id
  {
    if records == [] then None
    else if records[0].id == id then Some(0)
    else match IndexOfId(records[1..], id)
      case None => None
      case Some(i) => Some(i + 1)
  }

  /** The records with `rec`'s id replaced by `rec`. */
  function Replace(records: seq<Record>, rec: Record): (r: seq<Record>)
    ensures |r| == |records|
  {
    seq(|records|, i requires 0 <= i < |records| => if records[i].id == rec.id then rec else records[i])
  }

  /** The records without the one with the given id. */
  function RemoveId(records: seq<Record>, id: nat): (r: seq<Record>)
    ensures forall x :: x in r <==> x in records && x.id != id
    ensures IsSubsequence(r, records)
  {
    FilterMembers(records, (x: Record) => x.id != id);
    FilterIsSubsequence(records, (x: Record) => x.id != id);
    Filter(records, (x: Record) => x.id != id)
  }

  /** What the store keeps true: every record passes validation, and the ids
      increase along the store and stay below the next id to hand out. */
  ghost predicate StoreInvariant(records: seq<Record>, nextId: nat) {
    && (forall i | 0 <= i < |records| :: records[i].id < nextId)
    && (forall i | 0 <= i < |records| ::
          PassesValidation(records[i].content, records[i].validationScore))
    && (forall i, j | 0 <= i < j < |records| :: records[i].id < records[j].id)
  }

  /** Inserting a valid record under the next id keeps the invariant. */
  lemma AppendKeepsInvariant(records: seq<Record>, nextId: nat, rec: Record)
    requires StoreInvariant(records, nextId)
    requires rec.id == nextId && PassesValidation(rec.content, rec.validationScore)
    ensures StoreInvariant(records + [rec], nextId + 1)
  {
    var r := records + [rec];
    forall i, j | 0 <= i < j < |r| ensures r[i].id < r[j].id {
      if j == |records| {
        assert r[i] == records[i];
      }
    }
  }

  /** Updating a stored record with a valid one keeps the invariant, and the
      update is then in the store. */
  lemma ReplaceKeepsInvariant(records: seq<Record>, nextId: nat, rec: Record)
    requires StoreInvariant(records, nextId)
    requires IndexOfId(records, rec.id).Some? && PassesValidation(rec.content, rec.validationScore)
    ensures StoreInvariant(Replace(records, rec), nextId)
    ensures rec in Replace(records, rec)
  {
    var k := IndexOfId(records, rec.id).value;
    assert Replace(records, rec)[k] == rec;
  }

  /** Removing a record keeps the invariant. */
  lemma RemoveKeepsInvariant(records: seq<Record>, nextId: nat, id: nat)
    requires StoreInvariant(records, nextId)
    ensures StoreInvariant(RemoveId(records, id), nextId)
  {
    FilterKeepsIncreasing(records, (x: Record) => x.id != id, (x: Record) => x.id);
    var r := RemoveId(records, id);
    forall i | 0 <= i < |r|
      ensures r[i].id < nextId && PassesValidation(r[i].content, r[i].validationScore)
    {
      var k := FilterOrigin(records, (x: Record) => x.id != id, i);
    }
  }

  /** Removing a stored id removes exactly one record. */
  lemma {:induction false} RemoveOne(records: seq<Record>, nextId: nat, id: nat)
    requires StoreInvariant(records, nextId)
    requires IndexOfId(records, id).Some?
    ensures |RemoveId(records, id)| == |records| - 1
  {
    var p := (x: Record) => x.id != id;
    if records[0].id == id {
      FilterKeepsAll(records[1..], p);
    } else {
      assert StoreInvariant(records[1..], nextId);
      RemoveOne(records[1..], nextId, id);
    }
  }

  /** The saved records, in insertion order. */
  class SummaryStore {
    var records: seq<Record>
    var nextId: nat

    ghost predicate Valid()
      reads this
    {
      StoreInvariant(records, nextId)
    }

    constructor()
      ensures Valid() && records == [] && nextId == 0
    {
      records := [];
      nextId := 0;
    }

    /** `save()`: validation first, then the pre-save hook, then an insert of a
        new document under a fresh id or an update of the stored record with
        the document's id. A failed validation changes nothing. */
    method Save(doc: SummaryDocument) returns (r: Result<nat, string>)
      requires Valid()
      modifies this, doc
      ensures Valid()
      ensures !PassesValidation(old(doc.content), old(doc.validationScore)) ==>
        && r == Failure(ValidationFailed)
        && records == old(records) && nextId == old(nextId)
        && unchanged(doc)
      ensures PassesValidation(old(doc.content), old(doc.validationScore)) ==>
        && (old(doc.contentModified) ==>
              && doc.category == Lower(doc.content.summary.workType)
              && doc.searchKeywords == SearchKeywordsOf(doc.content.summary, doc.content.extractedInfo))
        && (!old(doc.contentModified) ==>
              doc.category == old(doc.category) && doc.searchKeywords == old(doc.searchKeywords))
      ensures PassesValidation(old(doc.content), old(doc.validationScore)) && old(doc.id).None? ==>
        && r == Success(old(nextId))
        && records == old(records) + [doc.Snapshot(old(nextId))]
        && nextId == old(nextId) + 1
      ensures PassesValidation(old(doc.content), old(doc.validationScore)) && old(doc.id).Some? ==>
        && nextId == old(nextId)
        && (IndexOfId(old(records), old(doc.id).value).Some? ==>
              r == Success(old(doc.id).value) && records == Replace(old(records), doc.Snapshot(r.value)))
        && (IndexOfId(old(records), old(doc.id).value).None? ==>
              r == Failure(NotFound) && records == old(records))
      ensures r.Success? ==> doc.id == Some(r.value) && doc.Snapshot(r.value) in records && !doc.contentModified
      ensures doc.content == old(doc.content) && doc.status == old(doc.status)
      ensures doc.validationScore == old(doc.validationScore) && doc.reviewedBy == old(doc.reviewedBy)
      ensures doc.reviewedAt == old(doc.reviewedAt) && doc.errorLog == old(doc.errorLog)
    {
      if !PassesValidation(doc.content, doc.validationScore) {
        return Failure(ValidationFailed);
      }
      doc.PreSave();
      match doc.id
      case None =>
        var rec := doc.Snapshot(nextId);
        AppendKeepsInvariant(records, nextId, rec);
        records := records + [rec];
        r := Success(nextId);
        doc.id := Some(nextId);
        nextId := nextId + 1;
        doc.contentModified := false;
      case Some(id) =>
        var at := IndexOfId(records, id);
        if at.None? {
          return Failure(NotFound);
        }
        var rec := doc.Snapshot(id);
        ReplaceKeepsInvariant(records, nextId, rec);
        records := Replace(records, rec);
        r := Success(id);
        doc.contentModified := false;
    }

    /** `findByIdAndDelete`: the record with that id leaves the store. */
    method Delete(id: nat)
      requires Valid()
      modifies this
      ensures Valid()
      ensures records == RemoveId(old(records), id) && nextId == old(nextId)
    {
      RemoveKeepsInvariant(records, nextId, id);
      records := RemoveId(records, id);
    }
  }

  // ---------------------------------------------------------------------------
  // Queries

  /** `findByTender`: the first completed record for the tender address. */
  function FindByTender(records: seq<Record>, tenderAddress: string): (r: Option<Record>)
    ensures r.Some? ==> r.value in records
    ensures r.Some? ==> r.value.content.tenderAddress == tenderAddress && r.value.status == Completed
    ensures r.None? <==> forall i | 0 <= i < |records| ::
      !(records[i].content.tenderAddress == tenderAddress && records[i].status == Completed)
  {
    if records == [] then None
    else if records[0].content.tenderAddress == tenderAddress && records[0].status == Completed then Some(records[0])
    else FindByTender(records[1..], tenderAddress)
  }

  /** The fields of the public projection's `summary`. */
  datatype PublicSummaryFields = PublicSummaryFields(
    overview: string,
    workType: string,
    estimatedValue: string,
    location: string,
    timeline: string,
    projectScope: string,
    confidence: int)

  /** The `publicSummary` virtual. */
  datatype PublicView = PublicView(
    tenderId: string,
    tenderAddress: string,
    fileName: string,
    summary: PublicSummaryFields,
    category: string,
    processedAt: int)

  /** `publicSummary` / `generatePublicView`. */
  function PublicViewOf(r: Record): PublicView {
    var s := r.content.summary;
    PublicView(
      r.content.tenderId, r.content.tenderAddress, r.content.fileName,
      PublicSummaryFields(s.overview, s.workType, s.estimatedValue, s.location, s.timeline,
                          s.projectScope, s.confidence),
      r.category, r.content.processedAt)
  }

  /** The public view discloses nothing of the texts, the extracted
      information, the requirements, the file path, the uploader, the review or
      the error log: records that differ only there look the same. */
  lemma PublicViewHidesPrivateFields(r: Record, r': Record)
    requires r'.content.tenderId == r.content.tenderId && r'.content.tenderAddress == r.content.tenderAddress
    requires r'.content.fileName == r.content.fileName && r'.content.processedAt == r.content.processedAt
    requires r'.category == r.category
    requires r'.content.summary == r.content.summary.(keyRequirements := r'.content.summary.keyRequirements)
    ensures PublicViewOf(r') == PublicViewOf(r)
  {
  }

  /** The optional filters of the public listing: category, work type, and the
      case-insensitive pattern on the location (taken here as a predicate). */
  datatype PublicFilters = PublicFilters(
    category: Option<string>,
    workType: Option<string>,
    location: Option<string -> bool>)

  /** The query `{ isPublic: true, status: 'completed', ...filters }`. */
  predicate Listed(f: PublicFilters, r: Record) {
    && r.content.isPublic
    && r.status == Completed
    && (f.category.Some? ==> r.category == f.category.value)
    && (f.workType.Some? ==> r.content.summary.workType == f.workType.value)
    && (f.location.Some? ==> f.location.value(r.content.summary.location))
  }

  /** The selected fields of a listed record (and its id). */
  datatype Listing = Listing(
    id: nat,
    tenderId: string,
    tenderAddress: string,
    fileName: string,
    summary: Summary,
    category: string,
    processedAt: int)

  function ListingOf(r: Record): Listing {
    Listing(r.id, r.content.tenderId, r.content.tenderAddress, r.content.fileName,
            r.content.summary, r.category, r.content.processedAt)
  }

  function ListedRecords(records: seq<Record>, f: PublicFilters): seq<Record> {
    Filter(records, (r: Record) => Listed(f, r))
  }

  function ByProcessedAt(r: Record): int {
    r.content.processedAt
  }

  /** The listed records, newest first. */
  function SortedListed(records: seq<Record>, f: PublicFilters): seq<Record> {
    Sorting.SortByKeyDesc(ListedRecords(records, f), ByProcessedAt)
  }

  /** `findPublicSummaries`: the listed records, newest first, projected. */
  function FindPublicSummaries(records: seq<Record>, f: PublicFilters): seq<Listing> {
    Map(SortedListed(records, f), ListingOf)
  }

  /** A record is in the sorted listing exactly when it is stored and listed. */
  lemma SortedListedMembers(records: seq<Record>, f: PublicFilters)
    ensures forall r :: r in SortedListed(records, f) <==> r in records && Listed(f, r)
  {
    FilterMembers(records, (r: Record) => Listed(f, r));
    Sorting.SortedMembers(ListedRecords(records, f), ByProcessedAt);
  }

  /** Every entry of the listing is a stored record that is public, completed
      and passes the filters, and there are as many entries as such records. */
  lemma FindPublicSummariesSound(records: seq<Record>, f: PublicFilters)
    ensures |FindPublicSummaries(records, f)| == |ListedRecords(records, f)|
    ensures forall i | 0 <= i < |FindPublicSummaries(records, f)| ::
      exists r | r in records :: Listed(f, r) && FindPublicSummaries(records, f)[i] == ListingOf(r)
  {
    var sorted := SortedListed(records, f);
    var out := FindPublicSummaries(records, f);
    SortedListedMembers(records, f);
    forall i | 0 <= i < |out|
      ensures exists r | r in records :: Listed(f, r) && out[i] == ListingOf(r)
    {
      assert sorted[i] in sorted;
      assert out[i] == ListingOf(sorted[i]);
    }
  }

  /** Every stored record that is public, completed and passes the filters is
      in the listing. */
  lemma FindPublicSummariesComplete(records: seq<Record>, f: PublicFilters)
    ensures forall r | r in records && Listed(f, r) :: ListingOf(r) in FindPublicSummaries(records, f)
  {
    var sorted := SortedListed(records, f);
    var out := FindPublicSummaries(records, f);
    SortedListedMembers(records, f);
    forall r | r in records && Listed(f, r) ensures ListingOf(r) in out {
      var k :| 0 <= k < |sorted| && sorted[k] == r;
      assert out[k] == ListingOf(r);
    }
  }

  /** The listing is ordered by processing time, newest first. */
  lemma FindPublicSummariesOrdered(records: seq<Record>, f: PublicFilters)
    ensures forall i, j | 0 <= i < j < |FindPublicSummaries(records, f)| ::
      FindPublicSummaries(records, f)[i].processedAt >= FindPublicSummaries(records, f)[j].processedAt
  {
    var sorted := SortedListed(records, f);
    var out := FindPublicSummaries(records, f);
    Sorting.SortByKeyDescSorted(ListedRecords(records, f), ByProcessedAt);
    forall i, j | 0 <= i < j < |out| ensures out[i].processedAt >= out[j].processedAt {
      assert ByProcessedAt(sorted[i]) >= ByProcessedAt(sorted[j]);
      assert out[i] == ListingOf(sorted[i]) && out[j] == ListingOf(sorted[j]);
    }
  }

  /** One row of `getStatistics`. */
  datatype CategoryCount = CategoryCount(category: string, count: nat)

  function IsCompleted(r: Record): bool {
    r.status == Completed
  }

  function CompletedRecords(records: seq<Record>): seq<Record> {
    Filter(records, IsCompleted)
  }

  /** The categories of the completed records, one per record. */
  function CompletedCategories(records: seq<Record>): seq<string> {
    Map(CompletedRecords(records), CategoryOf)
  }

  /** One group per category, counting its occurrences. */
  function Groups(categories: seq<string>, counts: multiset<string>): seq<CategoryCount> {
    seq(|categories|, i requires 0 <= i < |categories| => CategoryCount(categories[i], counts[categories[i]]))
  }

  function CountOf(g: CategoryCount): int {
    g.count
  }

  /** `getStatistics`, the counts: completed records grouped by category, the
      groups in order of decreasing size. */
  function GetStatistics(records: seq<Record>): seq<CategoryCount> {
    Sorting.SortByKeyDesc(UnsortedGroups(records), CountOf)
  }

  /** Over distinct categories that cover every counted one, the group sizes
      add up to the number counted. */
  lemma {:induction false} GroupsSum(categories: seq<string>, counts: multiset<string>)
    requires Distinct(categories)
    requires forall c | c in counts :: c in categories
    ensures Sorting.SumBy(Groups(categories, counts), CountOf) == |counts|
  {
    if categories == [] {
      assert counts == multiset{};
    } else {
      var c := categories[0];
      var rest := counts[c := 0];
      assert |counts| == counts[c] + |rest|;
      GroupsSum(categories[1..], rest);
      assert Groups(categories[1..], rest) == Groups(categories[1..], counts) by {
        forall i | 0 <= i < |categories| - 1 ensures categories[1..][i] != c {
          assert categories[i + 1] != categories[0];
        }
      }
      assert Groups(categories, counts)[1..] == Groups(categories[1..], counts);
    }
  }

  function CategoryOf(r: Record): string {
    r.category
  }

  /** The groups before sorting: one per distinct category, in order of first
      appearance. */
  function UnsortedGroups(records: seq<Record>): seq<CategoryCount> {
    var categories := CompletedCategories(records);
    Groups(AddAll([], categories), multiset(categories))
  }

  /** Each group counts the completed records of its category, and no group is empty. */
  lemma GetStatisticsCounts(records: seq<Record>)
    ensures forall g | g in GetStatistics(records) ::
      g.count == multiset(CompletedCategories(records))[g.category] && 0 < g.count
  {
    var categories := CompletedCategories(records);
    var cats := AddAll([], categories);
    var groups := UnsortedGroups(records);
    AddAllMembers([], categories);
    Sorting.SortedMembers(groups, CountOf);
    forall g | g in GetStatistics(records)
      ensures g.count == multiset(categories)[g.category] && 0 < g.count
    {
      var k :| 0 <= k < |groups| && groups[k] == g;
      assert cats[k] in categories;
    }
  }

  /** Every completed record's category has a group. */
  lemma GetStatisticsCovers(records: seq<Record>)
    ensures forall r | r in records && r.status == Completed ::
      exists g | g in GetStatistics(records) :: g.category == r.category
  {
    var completed := CompletedRecords(records);
    var categories := CompletedCategories(records);
    var cats := AddAll([], categories);
    var groups := UnsortedGroups(records);
    AddAllMembers([], categories);
    Sorting.SortedMembers(groups, CountOf);
    FilterMembers(records, IsCompleted);
    forall r | r in records && r.status == Completed
      ensures exists g | g in GetStatistics(records) :: g.category == r.category
    {
      assert r in completed;
      var k :| 0 <= k < |completed| && completed[k] == r;
      assert categories[k] == CategoryOf(completed[k]);
      assert r.category in categories;
      var p :| 0 <= p < |cats| && cats[p] == r.category;
      assert groups[p] in groups;
    }
  }

  /** The group counts add up to the number of completed records. */
  lemma GetStatisticsSum(records: seq<Record>)
    ensures Sorting.SumBy(GetStatistics(records), CountOf) == |CompletedRecords(records)|
  {
    var categories := CompletedCategories(records);
    var cats := AddAll([], categories);
    AddAllMembers([], categories);
    AddAllDistinct([], categories);
    Sorting.SortKeepsSum(UnsortedGroups(records), CountOf, CountOf);
    GroupsSum(cats, multiset(categories));
  }

  /** Larger groups come first. */
  lemma GetStatisticsOrdered(records: seq<Record>)
    ensures forall i, j | 0 <= i < j < |GetStatistics(records)| ::
      GetStatistics(records)[i].count >= GetStatistics(records)[j].count
  {
    var stats := GetStatistics(records);
    Sorting.SortByKeyDescSorted(UnsortedGroups(records), CountOf);
    forall i, j | 0 <= i < j < |stats| ensures stats[i].count >= stats[j].count {
      assert CountOf(stats[i]) >= CountOf(stats[j]);
    }
  }
}
