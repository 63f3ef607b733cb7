/**
  The document routes (backend/routes/fileRoutes.js): the upload filter, the
  upload handler's decisions and its removal of the uploaded file, the queue
  worker, the public listing and its pagination, the statistics response and
  the delete guards. The upload directory is a set of file paths, the database
  is the record store of the summary model, and the queue is a sequence of jobs.
 */
module FileRoutes {
  import opened Wrappers
  import opened Js
  import opened DocumentProcessor
  import opened TenderSummaries
  import Sorting

  // ---------------------------------------------------------------------------
  // What the upload middleware accepts

  const AllowedTypes: seq<string> := [
    "application/pdf",
    "application/msword",
    "application/vnd.openxmlformats-officedocument.wordprocessingml.document",
    "text/plain"]

  /** `fileFilter`: accept a listed type, refuse any other with an error. */
  function FileFilter(mimeType: string): Result<bool, string> {
    if mimeType in AllowedTypes then Success(true)
    else Failure("Unsupported file type: " + mimeType)
  }

  /** The filter accepts exactly the types the document processor can read, and
      refuses the others with the processor's own message. */
  lemma FileFilterMatchesProcessor(mimeType: string)
    ensures FileFilter(mimeType).Success? <==> ExtractorFor(mimeType).Success?
    ensures FileFilter(mimeType).Failure? ==> FileFilter(mimeType).error == ExtractorFor(mimeType).error
  {
    assert AllowedTypes == SupportedTypes;
  }

  const DefaultMaxFileSize := 10485760

  /** `parseInt(process.env.MAX_FILE_SIZE) || 10485760`, where `None` is an
      unset or unparsable setting. */
  function MaxFileSize(setting: Option<int>): (r: int)
    ensures r != 0
    ensures setting.Some? && setting.value != 0 ==> r == setting.value
    ensures setting.None? || setting.value == 0 ==> r == 10485760
  {
    if setting.Some? && setting.value != 0 then setting.value else DefaultMaxFileSize
  }

  /** A file as the upload middleware stores it under a generated path. */
  datatype IncomingFile = IncomingFile(originalName: string, path: string, size: int, mimeType: string)

  /** The middleware's verdict: the filter's error, a size over the limit, or none. */
  function UploadError(file: IncomingFile, maxSize: int): (r: Option<string>)
    ensures r.None? <==> file.mimeType in SupportedTypes && file.size <= maxSize
  {
    FileFilterMatchesProcessor(file.mimeType);
    match FileFilter(file.mimeType)
    case Failure(e) => Some(e)
    case Success(_) => if file.size > maxSize then Some("File too large") else None
  }

  // ---------------------------------------------------------------------------
  // Building the record

  /** The form fields of the upload request; an empty string is a missing field. */
  datatype UploadBody = UploadBody(
    tenderAddress: string,
    tenderId: string,
    uploaderAddress: string,
    processAsync: Option<string>)

  /** `fileInfo`, which is also a queued job's data. */
  datatype FileInfo = FileInfo(
    fileName: string,
    filePath: string,
    fileSize: int,
    mimeType: string,
    uploadedBy: string,
    tenderAddress: string,
    tenderId: string)

  function FileInfoOf(file: IncomingFile, body: UploadBody): FileInfo {
    FileInfo(file.originalName, file.path, file.size, file.mimeType, body.uploaderAddress,
             body.tenderAddress, body.tenderId)
  }

  /** The analysis services: the reader of the uploaded file's text, the
      language toolkit, whether an AI token is configured, and the AI service. */
  datatype Analysis = Analysis(
    read: Extractor -> Result<string, string>,
    nlp: string -> Entities,
    hasToken: bool,
    ai: string -> Option<string>)

  const NoSuchFile := "ENOENT: no such file or directory"

  /** Reading a file that is no longer in the upload directory fails. */
  function ReaderFor(present: bool, read: Extractor -> Result<string, string>): Extractor -> Result<string, string> {
    if present then read else (_: Extractor) => Failure(NoSuchFile)
  }

  /** `processDocument(filePath, mimeType, fileInfo)`. */
  function Process(info: FileInfo, present: bool, a: Analysis): Result<ProcessedDocument, string> {
    ProcessDocument(info.mimeType, ReaderFor(present, a.read), a.nlp, a.hasToken, a.ai)
  }

  /** Processing a file that is gone always fails. */
  lemma AbsentFileFails(info: FileInfo, a: Analysis)
    ensures Process(info, false, a).Failure?
  {
    ProcessDocumentSpec(info.mimeType, ReaderFor(false, a.read), a.nlp, a.hasToken, a.ai);
  }

  /** `new TenderSummary({ ...fileInfo, ...result, processingDuration })` as
      written: the result carries the text length only inside `metadata`, which
      is not a path of the schema and is dropped, so no text length is set. */
  function RecordAsWritten(info: FileInfo, result: ProcessedDocument, duration: int, now: int): RecordContent {
    RecordContent(
      info.tenderAddress, info.tenderId, info.fileName, info.filePath, info.fileSize, info.mimeType,
      None, result.originalText, result.cleanText, result.extractedInfo, result.summary,
      info.uploadedBy, now, None, duration, true)
  }

  /** As written, no record the routes build can ever be saved: the required
      text length is always missing. */
  lemma AsWrittenNeverSaves(info: FileInfo, result: ProcessedDocument, duration: int, now: int, score: int)
    ensures !PassesValidation(RecordAsWritten(info, result, duration, now), score)
  {
  }

  /** The record with the text length the processor measured, as the schema
      requires. */
  function RecordOf(info: FileInfo, result: ProcessedDocument, duration: int, now: int): RecordContent {
    RecordAsWritten(info, result, duration, now).(textLength := Some(result.textLength))
  }

  /** A processed document's record passes validation exactly when the request's
      fields are present and neither text nor the overview is empty: the work
      type, the scope and the confidence the processor derives always pass. */
  lemma ProcessedRecordValid(info: FileInfo, present: bool, a: Analysis, duration: int, now: int)
    requires Process(info, present, a).Success?
    ensures var r := Process(info, present, a).value;
      PassesValidation(RecordOf(info, r, duration, now), 0) <==>
        && info.tenderAddress != "" && info.tenderId != "" && info.fileName != ""
        && info.filePath != "" && info.uploadedBy != ""
        && r.originalText != "" && r.cleanText != "" && r.summary.overview != ""
  {
    var read := ReaderFor(present, a.read);
    ProcessDocumentSpec(info.mimeType, read, a.nlp, a.hasToken, a.ai);
    ProcessedSummaryComplete(info.mimeType, read, a.nlp, a.hasToken, a.ai);
  }

  // ---------------------------------------------------------------------------
  // The queue

  datatype Backoff = Exponential(delay: nat)

  /** A queued `process-document` job. */
  datatype Job = Job(data: FileInfo, attempts: nat, backoff: Backoff)

  const JobAttempts := 3
  const JobBackoffDelay := 5000

  // ---------------------------------------------------------------------------
  // The service

  /** The upload directory, the record store and the job queue. */
  class DocumentService {
    var files: set<string>
    const store: SummaryStore
    var queue: seq<Job>

    ghost predicate Valid()
      reads this, store
    {
      store.Valid()
    }

    constructor(s: SummaryStore)
      requires s.Valid()
      ensures Valid() && store == s && files == {} && queue == []
    {
      store := s;
      files := {};
      queue := [];
    }

    /** `new TenderSummary(...)` for a processed document, then `save()`. */
    method SaveProcessed(info: FileInfo, processed: ProcessedDocument, duration: int, now: int)
      returns (saved: Result<nat, string>)
      requires Valid()
      modifies store
      ensures Valid()
      ensures saved.Success? <==> PassesValidation(RecordOf(info, processed, duration, now), 0)
      ensures saved.Failure? ==> store.records == old(store.records)
      ensures saved.Success? ==>
        store.records == old(store.records) +
          [Record(saved.value, RecordOf(info, processed, duration, now), Completed,
                  Lower(processed.summary.workType),
                  SearchKeywordsOf(processed.summary, processed.extractedInfo), 0, None, None, [])]
    {
      var doc := new SummaryDocument(RecordOf(info, processed, duration, now));
      saved := store.Save(doc);
    }

    /** `POST /upload-tender-document`. The uploaded file leaves the directory
        on every outcome except a queued job; a record is stored only on 201. */
    method Upload(incoming: Option<IncomingFile>, body: UploadBody, maxSize: int, a: Analysis,
                  duration: int, now: int)
      returns (status: int, summaryId: Option<nat>)
      requires Valid()
      requires incoming.Some? ==> incoming.value.path !in files
      modifies this, store
      ensures Valid()
      ensures status in {400, 409, 202, 201, 500}
      ensures incoming.None? ==> status == 400 && files == old(files)
      ensures incoming.Some? && status != 202 ==> files == old(files) - {incoming.value.path}
      ensures status == 202 ==> incoming.Some? && files == old(files) + {incoming.value.path}
      ensures status == 202 ==>
        queue == old(queue) + [Job(FileInfoOf(incoming.value, body), JobAttempts, Exponential(JobBackoffDelay))]
      ensures status != 202 ==> queue == old(queue)
      ensures status != 201 ==> store.records == old(store.records)
      ensures status == 400 <==>
        || incoming.None?
        || (UploadError(incoming.value, maxSize).None? &&
            (body.tenderAddress == "" || body.tenderId == "" || body.uploaderAddress == ""))
      ensures status == 409 <==>
        && incoming.Some? && UploadError(incoming.value, maxSize).None?
        && body.tenderAddress != "" && body.tenderId != "" && body.uploaderAddress != ""
        && FindByTender(old(store.records), body.tenderAddress).Some?
      ensures status == 409 ==> summaryId == Some(FindByTender(old(store.records), body.tenderAddress).value.id)
      ensures status == 202 || status == 201 ==>
        && incoming.Some? && UploadError(incoming.value, maxSize).None?
        && body.tenderAddress != "" && body.tenderId != "" && body.uploaderAddress != ""
        && FindByTender(old(store.records), body.tenderAddress).None?
      ensures status == 202 ==> body.processAsync == Some("true")
      ensures (&& incoming.Some? && UploadError(incoming.value, maxSize).None?
               && body.tenderAddress != "" && body.tenderId != "" && body.uploaderAddress != ""
               && FindByTender(old(store.records), body.tenderAddress).None?
               && body.processAsync == Some("true")) ==> status == 202
      ensures incoming.Some? && UploadError(incoming.value, maxSize).Some? ==> status == 500
      ensures status == 201 ==>
        && body.processAsync != Some("true")
        && var info := FileInfoOf(incoming.value, body);
           && Process(info, true, a).Success?
           && summaryId.Some?
           && store.records == old(store.records) +
                [Record(summaryId.value, RecordOf(info, Process(info, true, a).value, duration, now),
                        Completed, Lower(Process(info, true, a).value.summary.workType),
                        SearchKeywordsOf(Process(info, true, a).value.summary,
                                         Process(info, true, a).value.extractedInfo),
                        0, None, None, [])]
      ensures (&& incoming.Some? && UploadError(incoming.value, maxSize).None?
               && body.tenderAddress != "" && body.tenderId != "" && body.uploaderAddress != ""
               && FindByTender(old(store.records), body.tenderAddress).None?
               && body.processAsync != Some("true")) ==>
        var info := FileInfoOf(incoming.value, body);
        (status == 201 <==> Process(info, true, a).Success? &&
                            PassesValidation(RecordOf(info, Process(info, true, a).value, duration, now), 0))
    {
      if incoming.None? {
        return 400, None;
      }
      var file := incoming.value;
      if UploadError(file, maxSize).Some? {
        // The middleware's error reaches the server's error handler.
        return 500, None;
      }
      files := files + {file.path};
      if body.tenderAddress == "" || body.tenderId == "" || body.uploaderAddress == "" {
        files := files - {file.path};
        return 400, None;
      }
      var info := FileInfoOf(file, body);
      var existing := FindByTender(store.records, body.tenderAddress);
      if existing.Some? {
        files := files - {file.path};
        return 409, Some(existing.value.id);
      }
      if body.processAsync == Some("true") {
        queue := queue + [Job(info, JobAttempts, Exponential(JobBackoffDelay))];
        return 202, None;
      }
      var result := Process(info, true, a);
      if result.Failure? {
        files := files - {file.path};
        return 500, None;
      }
      var saved := SaveProcessed(info, result.value, duration, now);
      if saved.Failure? {
        files := files - {file.path};
        return 500, None;
      }
      files := files - {file.path};
      return 201, Some(saved.value);
    }

    /** The queue worker for one attempt of a job. Progress is reported at 10,
        80, 95 and 100 as the steps succeed; the job's file is removed whether
        the attempt succeeds or fails, so an attempt that finds it gone fails. */
    method ProcessJob(job: Job, a: Analysis, duration: int, now: int)
      returns (result: Result<nat, string>, progress: seq<int>)
      requires Valid()
      modifies this, store
      ensures Valid()
      ensures progress == [10] || progress == [10, 80] || progress == [10, 80, 95, 100]
      ensures result.Success? <==> progress == [10, 80, 95, 100]
      ensures progress == [10] <==> Process(job.data, job.data.filePath in old(files), a).Failure?
      ensures files == old(files) - {job.data.filePath}
      ensures queue == old(queue)
      ensures result.Failure? ==> store.records == old(store.records)
      ensures job.data.filePath !in old(files) ==> result.Failure?
      ensures var processed := Process(job.data, job.data.filePath in old(files), a);
        result.Success? <==>
          processed.Success? && PassesValidation(RecordOf(job.data, processed.value, duration, now), 0)
      ensures result.Success? ==>
        var processed := Process(job.data, true, a).value;
        store.records == old(store.records) +
          [Record(result.value, RecordOf(job.data, processed, duration, now), Completed,
                  Lower(processed.summary.workType),
                  SearchKeywordsOf(processed.summary, processed.extractedInfo), 0, None, None, [])]
    {
      var path := job.data.filePath;
      var present := path in files;
      if !present {
        AbsentFileFails(job.data, a);
      }
      var processed := Process(job.data, present, a);
      if processed.Failure? {
        files := files - {path};
        return Failure(processed.error), [10];
      }
      var saved := SaveProcessed(job.data, processed.value, duration, now);
      if saved.Failure? {
        files := files - {path};
        return Failure(saved.error), [10, 80];
      }
      files := files - {path};
      return Success(saved.value), [10, 80, 95, 100];
    }

    /** `DELETE /summary/:summaryId`. `None` is an id the database cannot parse,
        whose lookup throws. */
    method DeleteSummary(summaryId: Option<nat>, adminAddress: string) returns (status: int)
      requires Valid()
      modifies store
      ensures Valid()
      ensures status == 401 <==> adminAddress == ""
      ensures adminAddress != "" && summaryId.Some? && IndexOfId(old(store.records), summaryId.value).Some? ==>
        status == 200
      ensures adminAddress != "" && summaryId.None? ==> status == 500
      ensures adminAddress != "" && summaryId.Some? ==>
        (status == 404 <==> IndexOfId(old(store.records), summaryId.value).None?)
      ensures status == 200 ==>
        && store.records == RemoveId(old(store.records), summaryId.value)
        && |store.records| == |old(store.records)| - 1
      ensures status != 200 ==> store.records == old(store.records)
      ensures status in {200, 401, 404, 500}
    {
      if adminAddress == "" {
        return 401;
      }
      if summaryId.None? {
        return 500;
      }
      var id := summaryId.value;
      if IndexOfId(store.records, id).None? {
        return 404;
      }
      RemoveOne(store.records, store.nextId, id);
      store.Delete(id);
      return 200;
    }
  }

  // ---------------------------------------------------------------------------
  // Listing, pagination and statistics

  /** The pagination fields of the listing response; `None` is `NaN`. */
  datatype Page<T> = Page(items: seq<T>, total: nat, page: Option<int>, limit: Option<int>, hasNext: bool)

  /** `skip = (page - 1) * limit`, the slice from `skip` of `limit` items, the
      unsliced count, and `hasNext = skip + limit < total`. A page or limit that
      does not parse makes every bound `NaN`: the slice is empty and there is no
      next page. */
  function Paginate<T>(all: seq<T>, page: Option<int>, limit: Option<int>): Page<T> {
    if page.Some? && limit.Some? then
      var skip := (page.value - 1) * limit.value;
      Page(Slice(all, skip, skip + limit.value), |all|, page, limit, skip + limit.value < |all|)
    else
      Page([], |all|, page, limit, false)
  }

  /** From the first page on, a page is the run of at most `limit` items that
      starts `skip` items in, and the total counts every item. */
  lemma PaginateSpec<T>(all: seq<T>, page: int, limit: int)
    requires page >= 1 && limit >= 0
    ensures var skip := (page - 1) * limit;
      && Paginate(all, Some(page), Some(limit)).items == all[Min(skip, |all|)..Min(skip + limit, |all|)]
      && |Paginate(all, Some(page), Some(limit)).items| <= limit
      && Paginate(all, Some(page), Some(limit)).total == |all|
  {
    MulNonNegative(page - 1, limit);
    SliceWindow(all, (page - 1) * limit, limit);
  }

  /** There is a next page exactly when the next page holds an item. */
  lemma HasNextIffNextPageNonEmpty<T>(all: seq<T>, page: int, limit: int)
    requires page >= 1 && limit > 0
    ensures Paginate(all, Some(page), Some(limit)).hasNext <==> Paginate(all, Some(page + 1), Some(limit)).items != []
  {
    var skip := (page - 1) * limit;
    MulNonNegative(page - 1, limit);
    assert page * limit == skip + limit;
    SliceWindow(all, skip + limit, limit);
  }

  /** Every item is on exactly the page its index says, at the place its index
      says. */
  lemma ItemOnItsPage<T>(all: seq<T>, i: nat, limit: int)
    requires i < |all| && limit > 0
    ensures var p := Paginate(all, Some(i / limit + 1), Some(limit));
      i % limit < |p.items| && p.items[i % limit] == all[i]
  {
    var skip := (i / limit) * limit;
    assert skip + i % limit == i;
    MulNonNegative(i / limit, limit);
    SliceWindow(all, skip, limit);
  }

  /** The listing's filters from the query: an empty field is no filter. */
  datatype ListingQuery = ListingQuery(
    category: string,
    workType: string,
    location: Option<string -> bool>,
    page: Option<int>,
    limit: Option<int>)

  function FiltersOf(q: ListingQuery): PublicFilters {
    PublicFilters(
      if q.category != "" then Some(q.category) else None,
      if q.workType != "" then Some(q.workType) else None,
      q.location)
  }

  /** `GET /public-summaries` without a search term. */
  function PublicSummaries(records: seq<Record>, q: ListingQuery): Page<Listing> {
    Paginate(FindPublicSummaries(records, FiltersOf(q)), q.page, q.limit)
  }

  /** The listing's total counts every public completed record that passes the
      filters, and each listed entry is one of them. */
  lemma PublicSummariesSpec(records: seq<Record>, q: ListingQuery)
    ensures PublicSummaries(records, q).total == |ListedRecords(records, FiltersOf(q))|
    ensures forall l | l in PublicSummaries(records, q).items ::
      exists r | r in records :: Listed(FiltersOf(q), r) && l == ListingOf(r)
  {
    var all := FindPublicSummaries(records, FiltersOf(q));
    FindPublicSummariesSound(records, FiltersOf(q));
    var p := PublicSummaries(records, q);
    forall l | l in p.items ensures exists r | r in records :: Listed(FiltersOf(q), r) && l == ListingOf(r) {
      SliceMembers(all, q.page, q.limit, l);
      var i :| 0 <= i < |all| && all[i] == l;
    }
  }

  /** Whatever a page holds comes from the paginated items. */
  lemma SliceMembers<T>(all: seq<T>, page: Option<int>, limit: Option<int>, x: T)
    requires x in Paginate(all, page, limit).items
    ensures x in all
  {
    if page.Some? && limit.Some? {
      var skip := (page.value - 1) * limit.value;
      var from := SliceBound(|all|, skip);
      var to := SliceBound(|all|, skip + limit.value);
      if from < to {
        var k :| 0 <= k < to - from && all[from..to][k] == x;
        assert all[from + k] == x;
      }
    }
  }

  /** The `GET /statistics` response, without its timestamp. */
  datatype StatisticsResponse = StatisticsResponse(totalSummaries: nat, categoryBreakdown: seq<CategoryCount>)

  function Statistics(records: seq<Record>): StatisticsResponse {
    StatisticsResponse(|CompletedRecords(records)|, GetStatistics(records))
  }

  /** The breakdown accounts for every completed record the total counts. */
  lemma StatisticsConsistent(records: seq<Record>)
    ensures Sorting.SumBy(Statistics(records).categoryBreakdown, CountOf) == Statistics(records).totalSummaries
  {
    GetStatisticsSum(records);
  }
}
