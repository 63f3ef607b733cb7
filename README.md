# TenderChain tender-summary pipeline, modelled in Dafny

This project models the tender-document side of TenderChain. It covers:

- the document processor, which turns an uploaded PDF, Word or text file into
  cleaned text, extracted facts and a summary;
- the Mongoose model of a stored summary, with its save hook, instance methods
  and queries;
- the upload route, the queue worker, the public listing and the admin delete
  route;
- the field validators and derived values of the contractor and user models;
- the logic of the tender-summaries dashboard in the browser.

Modules, one per file:

| file | module | models |
|---|---|---|
| `wrappers.dfy` | `Wrappers` | `Option` and `Result` |
| `js.dfy` | `Js` | the JavaScript built-ins the code relies on: `\s` and `\w`, `toLowerCase`/`toUpperCase`, `trim`, `includes`, `slice`, `join`, `filter`, `map`, a `Set` filled in insertion order |
| `sorting.dfy` | `Sorting` | the stable `Array.prototype.sort` with a descending numeric comparator |
| `patterns.dfy` | `Patterns` | anchored regular expressions of fixed length, as a sequence of character classes |
| `document_processor.dfy` | `DocumentProcessor` | `backend/services/documentProcessor.js` |
| `tender_summary.dfy` | `TenderSummaries` | `backend/models/TenderSummary.js` |
| `file_routes.dfy` | `FileRoutes` | `backend/routes/fileRoutes.js` |
| `contractor.dfy` | `Contractors` | `backend/models/Contractor.js` |
| `user.dfy` | `Users` | `backend/models/User.js` |
| `summaries_view.dfy` | `SummariesView` | the `tender-summaries` component of `frontend/examples/normal.js` |

Modelling choices:

- The outside world becomes parameters.
  - File readers: `read: Extractor -> Result<string, string>`.
  - The natural-language toolkit: `nlp`, which gives the sentence list and the entity lists.
  - The remote summarisation model: `ai`, an `Option<string>`.
  - Whether an API token is configured: `hasToken`.
  - Clocks: `now`, and the processing time `duration`.
- Code that loops and accumulates is a `method` with loop invariants. Each such method is proved equal to a specification function. Examples:
  - `ExtractProjectTypes`, `ExtractWorkDescription`, `ExtractRequirements`, `ScoreSentence`, `GenerateRuleBasedSummary` and `CalculateConfidence`;
  - `AddLowered`, the keyword `Set` of the save hook;
  - `CalculateProfileCompleteness` and `VisiblePages`.
  The properties the code promises are proved about those functions.
- Documents and components whose fields are updated in place are classes:
  - a summary document, and the collection it is saved to;
  - the upload service, with its set of uploaded files and its job queue;
  - contractor and user documents;
  - the dashboard component.
- The collection of summaries is a sequence of records. It keeps an invariant:
  - ids are below the next id and increase along the sequence;
  - every stored record passes schema validation.
- Mongoose behaviour that the code depends on is written out:
  - a required string fails on `""`;
  - validation runs before the user's `pre('save')` hook;
  - `isModified` is true for a new document;
  - paths outside the schema (such as `metadata`) are dropped;
  - `lowercase`, `uppercase` and `trim` setters rewrite a value when it is assigned.
- The model follows the code as written, including behaviour a reader may not expect. The one exception is the bug listed under "## Findings", where the model uses the corrected record. Behaviour kept as written:
  - `preprocessText` is not idempotent;
  - its URL and e-mail passes can never match;
  - the duplicate check only looks at completed summaries;
  - the delete route removes the record.

## Model

| member | source | states |
|---|---|---|
| DocumentProcessor.ExtractorFor | backend/services/documentProcessor.js:28-52 | the four supported MIME types are exactly the ones dispatched; PDF and plain text have their own reader, both Word types share one; any other type fails with "Unsupported file type: " and the type |
| DocumentProcessor.ExtractText | backend/services/documentProcessor.js:28-52 | an unsupported type fails before any file is read; a supported type returns exactly what its reader returns, failure included |
| DocumentProcessor.CollapseWhitespaceNormal | backend/services/documentProcessor.js:83 | after `replace(/\s+/g, ' ').trim()` the only white space is single plain spaces |
| DocumentProcessor.CollapseWhitespaceIdempotent | backend/services/documentProcessor.js:83 | the white-space step alone is idempotent |
| DocumentProcessor.StripSymbols | backend/services/documentProcessor.js:86 | the symbol pass never lengthens the text and leaves only word characters, white space and `. , ! ? ; : ( ) -` |
| DocumentProcessor.PreprocessText | backend/services/documentProcessor.js:81-93 | the normalised text is never longer than the input and holds only ASCII word characters, the plain space and `. , ! ? ; : ( ) -`; in particular no `@` and no `/` |
| DocumentProcessor.UrlPassNeverMatches | backend/services/documentProcessor.js:86-90 | the URL pass never changes the text, because `/` is already gone; the e-mail pass is omitted for the same reason with `@` |
| DocumentProcessor.PreprocessNotIdempotent | backend/services/documentProcessor.js:83-86 | normalising twice differs from normalising once: `"a @ b"` becomes `"a  b"`, and only a second pass gives `"a b"` |
| DocumentProcessor.ExtractProjectTypes | backend/services/documentProcessor.js:128-149 | the loop returns the triggered type names in taxonomy order |
| DocumentProcessor.ProjectTypesSpec | backend/services/documentProcessor.js:128-149 | the types found are distinct, in taxonomy order, and a type is found exactly when one of its trigger words occurs in the lower-cased text |
| DocumentProcessor.ExtractWorkDescription | backend/services/documentProcessor.js:154-169 | the loop returns the first five work sentences |
| DocumentProcessor.WorkDescriptionSpec | backend/services/documentProcessor.js:154-169 | at most five sentences, an order-preserving subsequence of the input, each containing a work keyword once lower-cased |
| DocumentProcessor.ExtractRequirements | backend/services/documentProcessor.js:174-195 | the loop returns the first ten trimmed matches, pattern by pattern |
| DocumentProcessor.RequirementsSpec | backend/services/documentProcessor.js:174-195 | at most ten clauses; each starts with its pattern's keyword in any case and holds no `.` after it; all clauses of an earlier pattern precede those of a later one |
| DocumentProcessor.KeywordsExclusive | backend/services/documentProcessor.js:176-184 | no clause starts with two different requirement keywords, so each clause belongs to one pattern |
| DocumentProcessor.ScoreSentence | backend/services/documentProcessor.js:270-287 | the loop body computes the score formula: 2 per keyword, 3 among the first five sentences, 1 for a digit, 2 for a currency mention |
| DocumentProcessor.SentenceScoreBounds | backend/services/documentProcessor.js:270-287 | a score lies between 0 and 18 |
| DocumentProcessor.LateSentenceNeedsKeyword | backend/services/documentProcessor.js:270-289 | a sentence from the sixth on is kept only if it contains a keyword |
| DocumentProcessor.EarlyKeywordSentenceKept | backend/services/documentProcessor.js:270-289 | each of the first five sentences is kept when it contains a keyword |
| DocumentProcessor.CurrencyInsideWord | backend/services/documentProcessor.js:284 | the currency test fires on `rs` inside ordinary words such as "hours" |
| DocumentProcessor.RupeeSignNeverMatches | backend/services/documentProcessor.js:284 | the mis-encoded rupee sign never matches a normalised text |
| DocumentProcessor.GenerateRuleBasedSummary | backend/services/documentProcessor.js:263-302 | the method's overview is the three best-scoring sentences after a stable sort, and its scope is the scope description |
| DocumentProcessor.TopSentencesScored | backend/services/documentProcessor.js:263-297 | at most three sentences, each scoring above 3 by the formula at its own position |
| DocumentProcessor.TopSentencesOrdered | backend/services/documentProcessor.js:289-297 | the chosen sentences are in non-increasing score order, with ties in document order |
| DocumentProcessor.TopSentencesMaximal | backend/services/documentProcessor.js:289-297 | a kept sentence left out of the overview scores no higher than the third chosen one |
| DocumentProcessor.FirstOrNotSpecified | backend/services/documentProcessor.js:317-332 | estimated value and location are the first item of their list, or "Not specified" |
| DocumentProcessor.WorkTypeSpec | backend/services/documentProcessor.js:307-312 | the work type is "General Work" exactly when no project type was found; otherwise it is the first type, capitalised |
| DocumentProcessor.TimelineSpec | backend/services/documentProcessor.js:337-352 | the timeline is the first number naming a duration; without one it is "Target completion: " and the first date; without a date it is "Not specified" |
| DocumentProcessor.ScopeSpec | backend/services/documentProcessor.js:357-369 | the scope is the first two work sentences; failing that, the project types joined with ", " and " project"; failing that, a fixed notice |
| DocumentProcessor.CalculateConfidence | backend/services/documentProcessor.js:374-389 | the accumulating method equals the confidence formula |
| DocumentProcessor.ConfidenceBounds | backend/services/documentProcessor.js:374-389 | the confidence lies in 0..100, and is 100 only when every point is earned |
| DocumentProcessor.ConfidenceZero | backend/services/documentProcessor.js:374-389 | the confidence is 0 exactly when the text has at most 1000 characters and all five lists are empty |
| DocumentProcessor.ConfidenceMonotone | backend/services/documentProcessor.js:374-389 | a longer text, or a list that becomes non-empty, never lowers the confidence |
| DocumentProcessor.AiInput | backend/services/documentProcessor.js:239-241 | text of at most 4000 characters is passed whole; longer text is cut to its first 4000 characters followed by "..." |
| DocumentProcessor.AiInputBounds | backend/services/documentProcessor.js:239-241 | the model input is at most 4003 characters and starts with the first 4000 characters of the text |
| DocumentProcessor.ChooseOverview | backend/services/documentProcessor.js:218 | a missing or empty model summary falls back to the rule-based overview |
| DocumentProcessor.GenerateSummarySpec | backend/services/documentProcessor.js:200-232 | the model is consulted only with a token, and then on the truncated text; without a token, or when its answer is missing or empty, the rule-based overview is used; at most three key requirements, the first ones found; confidence in 0..100 |
| DocumentProcessor.ProcessDocumentSpec | backend/services/documentProcessor.js:394-425 | an unsupported type fails with the dispatch error; otherwise processing fails exactly when reading fails; on success the clean text is the normalised original, and the recorded length and confidence are those of the clean text and the summary |
| DocumentProcessor.ProcessedSummaryComplete | backend/services/documentProcessor.js:394-425 | a processed document's summary has a non-empty work type and scope description |
| TenderSummaries.AddLowered | backend/models/TenderSummary.js:213-218 | the `forEach` that adds lower-cased items to the keyword set appends each new one, in insertion order |
| TenderSummaries.SearchKeywordsSpec | backend/models/TenderSummary.js:205-224 | the search keywords are distinct and lower-case; a keyword is present exactly when it is the lower-cased work type or location (when non-empty), or one of the project types, organisations or places |
| TenderSummaries.SummaryDocument.constructor | backend/models/TenderSummary.js:48-166 | a new document has the schema defaults: completed, category "general", no keywords, score 0, not reviewed, empty error log |
| TenderSummaries.SummaryDocument.PreSave | backend/models/TenderSummary.js:205-224 | when the summary or extracted info changed, category becomes the lower-cased work type and the keywords are recomputed; otherwise both are unchanged; no other field changes |
| TenderSummaries.SummaryDocument.UpdateValidationScore | backend/models/TenderSummary.js:271-276 | changes only score, reviewer and review time, then saves. A score outside 0..100, or other invalid content, fails validation and leaves the collection unchanged. Otherwise a new document is appended under the next id, and a stored one replaces its record |
| TenderSummaries.SummaryDocument.AddError | backend/models/TenderSummary.js:278-285 | appends exactly one entry (message or thrown value, stack argument or error stack) at the end of the log, keeps the earlier entries, sets status to failed, then saves: a valid new document is appended under the next id, a stored one replaces its record, and an invalid one leaves the collection unchanged |
| TenderSummaries.IndexOfId | backend/routes/fileRoutes.js:287-290 | the lookup by id finds the position of a record with the id, or reports that none has it |
| TenderSummaries.RemoveId | backend/routes/fileRoutes.js:292 | removing by id keeps exactly the other records, in order |
| TenderSummaries.AppendKeepsInvariant | backend/models/TenderSummary.js:48-166 | inserting a valid record under the next id keeps the collection invariant |
| TenderSummaries.ReplaceKeepsInvariant | backend/models/TenderSummary.js:48-166 | updating a stored record with a valid one keeps the invariant |
| TenderSummaries.RemoveKeepsInvariant | backend/routes/fileRoutes.js:292 | deleting a record keeps the invariant |
| TenderSummaries.RemoveOne | backend/routes/fileRoutes.js:292 | deleting a stored id removes exactly one record |
| TenderSummaries.SummaryStore.Save | backend/models/TenderSummary.js:48-166 | validation runs first; an invalid document is rejected and nothing changes; a valid one runs the save hook, is inserted under a fresh id or replaces its stored version, and the invariant is kept |
| TenderSummaries.SummaryStore.Delete | backend/routes/fileRoutes.js:292 | the collection loses exactly the record with the id |
| TenderSummaries.FindByTender | backend/models/TenderSummary.js:227-229 | the result is a completed record of the tender address; none is returned only when no completed record has that address |
| TenderSummaries.PublicViewHidesPrivateFields | backend/models/TenderSummary.js:185-202 | the public view depends only on the published fields: two records that agree on them give the same view, whatever their texts, key requirements and extracted info |
| TenderSummaries.FindPublicSummariesSound | backend/models/TenderSummary.js:231-236 | every listed summary comes from a public, completed record that matches the filters |
| TenderSummaries.FindPublicSummariesComplete | backend/models/TenderSummary.js:231-236 | every public, completed, matching record is listed |
| TenderSummaries.FindPublicSummariesOrdered | backend/models/TenderSummary.js:231-236 | the list is ordered by processing time, newest first |
| TenderSummaries.GetStatisticsCounts | backend/models/TenderSummary.js:251-264 | each group's count is the number of completed records in its category, and is positive |
| TenderSummaries.GetStatisticsCovers | backend/models/TenderSummary.js:251-264 | every completed record's category has a group |
| TenderSummaries.GetStatisticsSum | backend/models/TenderSummary.js:251-264 | the group counts add up to the number of completed records |
| TenderSummaries.GetStatisticsOrdered | backend/models/TenderSummary.js:251-264 | the groups are sorted by count, largest first |
| FileRoutes.FileFilterMatchesProcessor | backend/routes/fileRoutes.js:39-52 | the upload filter accepts exactly the types the processor can read, and rejects the others with the same message |
| FileRoutes.MaxFileSize | backend/routes/fileRoutes.js:58 | the size limit is the configured number when it parses to a non-zero value, and 10485760 otherwise |
| FileRoutes.UploadError | backend/routes/fileRoutes.js:39-60 | an upload is refused exactly when its type is unsupported or it exceeds the size limit |
| FileRoutes.AbsentFileFails | backend/routes/fileRoutes.js:306-348 | processing a file that is no longer there fails |
| FileRoutes.AsWrittenNeverSaves | backend/routes/fileRoutes.js:131-137 | the record as the route builds it never passes validation |
| FileRoutes.ProcessedRecordValid | backend/routes/fileRoutes.js:131-137 | with the text length filled in, a processed document's record passes validation exactly when the request fields, the texts and the overview are non-empty |
| FileRoutes.DocumentService.SaveProcessed | backend/routes/fileRoutes.js:131-137 | saving succeeds exactly when the record passes validation, and then appends exactly that record, with the hook's category and keywords |
| FileRoutes.DocumentService.Upload | backend/routes/fileRoutes.js:68-162 | outcomes are 400, 409, 202, 201 or 500. 400 exactly when there is no file or a field is missing. 409 exactly when a completed summary exists for the address, returning its id; other records do not trigger it. When every check passes and `processAsync` is "true", the answer is always 202: the file is kept and one job is enqueued with 3 attempts and exponential backoff of 5000 ms. Otherwise the file is deleted. A file refused for its type or size gives 500. 201 exactly when processing and validation succeed, with the new record appended. The collection changes only on 201 |
| FileRoutes.DocumentService.ProcessJob | backend/routes/fileRoutes.js:302-352 | progress is 10, then 80, 95 and 100 as far as the job gets; success exactly when all four are reported. The file is deleted whether the job succeeds or fails, so a retry fails. On success the record is appended |
| FileRoutes.DocumentService.DeleteSummary | backend/routes/fileRoutes.js:277-299 | 401 exactly when there is no admin address, before any lookup; 404 exactly when the id is absent; a stored id always gives 200, which removes exactly that record; otherwise nothing changes |
| FileRoutes.PaginateSpec | backend/routes/fileRoutes.js:242-251 | from page 1 on, the page is the contiguous slice that starts at (page − 1) · limit, with at most `limit` items; the total counts every item |
| FileRoutes.HasNextIffNextPageNonEmpty | backend/routes/fileRoutes.js:242-251 | `hasNext` holds exactly when the next page is non-empty |
| FileRoutes.ItemOnItsPage | backend/routes/fileRoutes.js:242-251 | every item appears on page index / limit + 1, at position index mod limit |
| FileRoutes.PublicSummariesSpec | backend/routes/fileRoutes.js:211-257 | the response total counts every public, completed, matching record; every item shown is one of them |
| FileRoutes.StatisticsConsistent | backend/routes/fileRoutes.js:260-274 | the category counts add up to the total of completed summaries |
| Contractors.PanAccepted | backend/models/Contractor.js:47-57 | a PAN as entered is accepted exactly when it is 5 letters of either case, 4 digits and 1 letter |
| Contractors.GstEmbedsPan | backend/models/Contractor.js:53-69 | an accepted GST number has 15 characters, characters 3 to 12 form an accepted PAN, and the 14th is `Z` |
| Contractors.PincodeAccepted | backend/models/Contractor.js:76-85 | a pincode is accepted exactly when it is 6 digits not starting with 0 |
| Contractors.IfscAccepted | backend/models/Contractor.js:92-102 | an IFSC as entered is accepted exactly when it is 4 letters of either case, `0`, then 6 letters or digits |
| Contractors.ContractorDocument.constructor | backend/models/Contractor.js:46-102 | the PAN, GST and IFSC setters upper-case the values; the pincode is stored as given |
| Contractors.ContractorDocument.SetPanNumber | backend/models/Contractor.js:46-57 | assigning a PAN stores it upper-cased and changes no other field |
| Contractors.ContractorDocument.SetGstNumber | backend/models/Contractor.js:58-69 | assigning a GST number stores it upper-cased and changes no other field |
| Contractors.ContractorDocument.SetIfscCode | backend/models/Contractor.js:92-102 | assigning an IFSC stores it upper-cased and changes no other field |
| Contractors.EligibleIff | backend/models/Contractor.js:244-263 | eligible exactly when not blacklisted, at or above each minimum turnover and experience that is given, and holding every required certification |
| Contractors.EligibilityMonotone | backend/models/Contractor.js:244-263 | more turnover, more years or more certifications never make an eligible contractor ineligible |
| Contractors.BankDetailsJsonMasks | backend/models/Contractor.js:205-217 | the JSON output keeps the other bank fields; the account number becomes "****" followed by its last four characters (all of it when shorter), or is dropped when it is unset or empty |
| Contractors.SuccessRateBounds | backend/models/Contractor.js:232-235 | the success rate is 0 when no bid was submitted, and a percentage in 0..100 when at most every submitted bid was won |
| Users.WalletAccepted | backend/models/User.js:5-17 | a wallet address as entered is accepted exactly when it is `0x` or `0X` followed by 40 hex digits of either case, 42 characters in all |
| Users.PhoneAccepted | backend/models/User.js:36-45 | a phone number is accepted exactly when it is 10 digits and the first is 6 to 9 |
| Users.DottedWordsShape | backend/models/User.js:31 | `\w+([.-]?\w+)*` matches exactly the non-empty strings of word characters, dots and dashes that start and end with a word character and never have a separator after another |
| Users.DomainShape | backend/models/User.js:31 | the domain pattern matches exactly a dotted name followed by one final `.` and 2 or 3 word characters |
| Users.EmailShape | backend/models/User.js:24-34 | an accepted e-mail address has exactly one `@` and ends with `.` and 2 or 3 word characters |
| Users.FullNameStable | backend/models/User.js:46-52 | an accepted name is stored trimmed, with no white space at either end, so trimming it again changes nothing and it stays accepted |
| Users.CompletenessBounds | backend/models/User.js:117-129 | the completeness score is a multiple of 20 in 0..100; it is 100 exactly when all four fields are set and KYC is approved |
| Users.UserDocument.constructor | backend/models/User.js:4-98 | wallet and e-mail are stored lower-cased and the name trimmed; KYC starts pending and the score at 0 |
| Users.UserDocument.CalculateProfileCompleteness | backend/models/User.js:117-129 | the loop returns 20 per set field among wallet, e-mail, phone and name, plus 20 for approved KYC; it stores that value in the document and changes no other field |
| Users.UserDocument.Save | backend/models/User.js:142-146 | a save that passes validation recomputes the score before storing; a failing save changes nothing |
| Users.SavedScoreInBounds | backend/models/User.js:70-75 | the recomputed score always satisfies the schema's 0..100 bounds |
| SummariesView.PageOfWindow | frontend/examples/normal.js:171-175 | from page 1 on, the page is the slice of the filtered summaries that starts at (page − 1) · 6, with at most 6 items |
| SummariesView.TotalPagesIsCeiling | frontend/examples/normal.js:176-178 | the page count is the ceiling of count / 6: the fewest pages of 6 that hold every item, 0 exactly when there are no items |
| SummariesView.ItemShown | frontend/examples/normal.js:171-178 | every filtered summary is on a page between 1 and the page count, at the position its index gives |
| SummariesView.VisiblePages | frontend/examples/normal.js:179-187 | the loop returns the ascending run from max(1, p − 2) to min(total, p + 2): at most 5 pages, all in 1..total, none when total is 0, and containing p when p is a valid page |
| SummariesView.FilteredSummariesSpec | frontend/examples/normal.js:279-310 | the filtered list is an order-preserving subsequence of the summaries and contains exactly those that pass every active filter |
| SummariesView.StepsCompose | frontend/examples/normal.js:279-310 | applying the search, work-type and location filters in turn is the same as applying their conjunction once |
| SummariesView.TenderSummariesPanel.constructor | frontend/examples/normal.js:156-169 | the component starts with empty lists, blank filters and page 1 |
| SummariesView.TenderSummariesPanel.Loaded | frontend/examples/normal.js:216-217 | loaded summaries replace both the full and the filtered list |
| SummariesView.TenderSummariesPanel.FilterSummaries | frontend/examples/normal.js:279-310 | the filtered list becomes the summaries that pass every active filter, and the page resets to 1 |
| SummariesView.TenderSummariesPanel.ChangePage | frontend/examples/normal.js:311-315 | the page changes only to a page in 1..totalPages; otherwise nothing changes |
| SummariesView.TruncateTextSpec | frontend/examples/normal.js:371-374 | an absent or empty text gives ""; a text within the limit is returned unchanged; a longer one becomes a prefix of the text followed by "...", exactly limit + 3 characters when the limit is non-negative |
| SummariesView.TruncateTextIdempotent | frontend/examples/normal.js:371-374 | truncating a truncated text again changes nothing |
| SummariesView.ConfidenceBadgeThresholds | frontend/examples/normal.js:387-391 | success at 80 and above, warning from 60 to 79, danger below 60; a higher confidence never gets a worse badge |
| SummariesView.CategoryColorSpec | frontend/examples/normal.js:375-386 | every colour is a `card-header-` class; an unknown category gets `card-header-info`; every project type the processor detects has its own entry |

## Left out

- File reading: `fs`, pdf-parse and mammoth are the `read` parameter; only the dispatch is modelled.
- The `compromise` toolkit is the `nlp` parameter, which gives the sentence and entity lists. The recogniser itself is not modelled.
- The Hugging Face call is the `ai` parameter, an `Option<string>`. Only the truncation of its input is modelled. The logger and the `natural` set-up are left out.
- Exceptions are `Result` failures.
- `toLowerCase` and `toUpperCase` are modelled on ASCII letters only. Other letters are left as they are, including those JavaScript would map to ASCII, such as `ı`, `ſ`, `ß` and ligatures.
- Strings are sequences of Unicode scalar values, not UTF-16 code units. Lengths differ for characters outside the Basic Multilingual Plane.
- The route's `metadata` spread is dropped; the schema has no such path.
- The random upload file names are left out. `FileRoutes.DocumentService.Upload` requires the new path to differ from the files currently present.
- The check-then-save race between the duplicate check and the save is left out; only single-threaded runs are modelled.
- Bull and Redis internals are left out: retry scheduling and backoff arithmetic. The job records 3 attempts and the delay, and `ProcessJob` models one attempt.
- The job-status and single-summary GET routes only read and forward; they are not modelled.
- `searchSummaries` is left out because it depends on MongoDB's `$text` relevance ranking.
- The floating-point averages of `getStatistics` are left out.
- The order of records with equal `processedAt` is left to the database and is not pinned down.
- `createdAt`/`updatedAt` timestamps and the `findOneAndUpdate` hook are left out.
- Index declarations are left out.
- FileRoutes.DocumentService.Upload: the synchronous path saves the corrected record of the finding below, which carries `textLength`. As written, every processed synchronous upload fails validation and answers 500, never 201 (see `FileRoutes.AsWrittenNeverSaves`).
- FileRoutes.DocumentService.ProcessJob: the worker saves the same corrected record. As written, every attempt that processes its document stops at progress 80 and fails, never reaching 95 or 100.
- FileRoutes.DocumentService.Upload: the 500 for a file refused by the upload filter or the size limit is assumed. That status comes from the server's error-handling middleware, and `backend/middleware/errorMiddleware.js` is not part of this model.
- Query strings: `parseInt` is modelled by the caller as `Option<int>`, with `None` for NaN. The location filter's regular expression is a predicate parameter.
- `Contractor.js`: `searchContractors` (user-built regular expressions and `populate`) and `updatePerformanceMetrics` are left out, as is everything about contractors other than the fields listed in the model.
- `User.js`: `updateLastLogin`, `findByWallet` and `findActiveByType` are left out. The fields other than wallet, e-mail, phone, name, KYC and completeness are left out too.
- `normal.js`: the Vue components for tenders and contracts, the fetch calls and mock data, the modal, date formatting, `avgConfidence` (floating point) and `mostCommonCategory` are left out.
- Contractors.SuccessRateBounds: the rate is computed in exact real arithmetic, not IEEE double precision, so rounding is not modelled.
- SummariesView.CategoryColorSpec: a category named like an inherited `Object.prototype` member (such as `constructor`) would give that member in JavaScript. Categories come from lower-cased work types, so this cannot arise, and it is not modelled.
- SummariesView.PageOfWindow: `itemsPerPage` is the constant 6, because the component never changes it.
- Users.EmailShape: the pattern is matched against the lower-cased value the setter stores. That lower-casing keeps the pattern's character classes, but no lemma states this.

## Findings

| source | as written | input that shows it | evidently intended | confidence | as-written member | corrected member |
|---|---|---|---|---|---|---|
| backend/routes/fileRoutes.js:131-137 | the synchronous upload path, and the worker at :320-326, build the summary record without the top-level `textLength` field that backend/models/TenderSummary.js:113-116 marks as required. The value exists only as `result.metadata.textLength`, and `metadata` is not a schema path | any supported document that processes successfully: validation fails on `textLength`, so the save throws and the route answers 500 (the job fails) | the record carries `textLength: result.metadata.textLength`, so a processed document with non-empty fields is saved | not executed | FileRoutes.AsWrittenNeverSaves | FileRoutes.ProcessedRecordValid |
