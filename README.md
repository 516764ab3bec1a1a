# immigrow.ai back end — a Dafny model

immigrow.ai lets a signed-in user upload an immigration document (an I-94,
I-20 or H-1B), has an extraction model analyse it in a background job, and
turns the key dates it finds into deadlines the user can list, tick off and
delete. The back end is a Convex application with two tables, `documents`
and `deadlines`, both indexed by owner. This project models that core:

- `schema.dfy` (module `Schema`): the record shapes and enumerations of the
  two tables, the literal spellings of the enumerations, and the invariants
  a document keeps: a processing document has no analysis, and a completed
  one has one.
- `store.dfy` (module `Store`): the database the handlers run against. It is
  a class `Database` with both tables as maps, one id counter, and the
  scheduler's FIFO of pending analysis jobs. The module also holds the
  newest-first `by_user` index scan.
- `deadlines.dfy` (module `Deadlines`): `getUserDeadlines` (an index scan
  followed by a stable sort on the due date), `toggleDeadlineCompletion`,
  `createDeadline` and `deleteDeadline`.
- `documents_internal.dfy` (module `DocumentsInternal`): the unchecked
  lookup, the two terminal patches (`saveAnalysisResult`,
  `markAnalysisFailed`), and the loop that fans key dates out into
  deadlines.
- `documents.dfy` (module `Documents`): the upload-URL guard,
  `createDocument` (insert, then schedule one analysis job),
  `getUserDocuments` and `getDocument`.
- `documents_actions.dfy` (module `DocumentsActions`):
  - the analysis job `analyzeDocument`;
  - its prompt selection `getAnalysisPrompt`;
  - its text handling `parseAnalysisResult`: the greedy `\{[\s\S]*\}` match, then `JSON.parse`, else the fallback record;
  - one step of the scheduler running a queued job.

Model conventions:

- **Caller.** The signed-in user is an explicit `Option<UserId>` argument.
- **Ids.** Ids come from one counter shared by both tables. A larger id is a newer record, so id order stands for `_creationTime` order.
- **Queries.** Queries are functions over a table map. They also take the counter `bound`, which every stored id is below.
- **Due dates.** Dates are compared lexicographically. For ISO `YYYY-MM-DD` dates this is the order the `Date` comparator gives.
- **Sort stability.** JavaScript's sort is stable. Deadlines with equal due dates therefore stay newest first, as the index scan returned them.
- **Falsy values.** An empty URL or an empty API key counts as absent, as JavaScript's falsy test does.

## Model

| member | source | states |
|---|---|---|
| Schema.ParseDocType | convex/schema.ts:8 | a document type is accepted exactly when it is one of "I-94", "I-20", "H-1B", and the accepted value spells back to the input |
| Schema.DocTypeRoundTrip | convex/schema.ts:8 | reading back the literal of every document type gives that type |
| Schema.ParseStatus | convex/schema.ts:12-16 | a status is accepted exactly when it is "processing", "completed" or "failed", and spells back to the input |
| Schema.StatusRoundTrip | convex/schema.ts:12-16 | reading back the literal of every status gives that status |
| Schema.ParseImportance | convex/schema.ts:24-28 | an importance is accepted exactly when it is "critical", "important" or "info" (key dates and deadlines alike), and spells back to the input |
| Schema.ImportanceRoundTrip | convex/schema.ts:46-50 | reading back the literal of every importance gives that importance |
| Schema.EvolvesTransitive | convex/schema.ts:6-36 | document histories compose: if no id is lost, no identity field changes and no status returns to processing over two steps taken one at a time, the same holds over both together |
| Store.ScanByUser | convex/deadlines.ts:34-38 | the `by_user` scan yields exactly the owner's stored records (ids below the counter), each as stored, in strictly descending id order, with its id set equal to the owner's ids |
| Store.InsertAll | convex/documentsInternal.ts:99-110 | inserting records at consecutive fresh ids from `start` gives a table whose keys are the old keys plus `start..start+n`, the i-th record at `start+i`, and every other entry unchanged |
| Store.InsertAllSize | convex/documentsInternal.ts:99-110 | when all old ids are below `start`, inserting n records grows the table by exactly n |
| Store.Database.InsertDocument | convex/documents.ts:37-44 | a well-formed document gets the next id, which was unused, and nothing else changes |
| Store.Database.InsertDeadline | convex/deadlines.ts:93-101 | a deadline gets the next id, which was unused, and nothing else changes |
| Store.Database.PatchDocument | convex/documentsInternal.ts:56-59 | an existing document is replaced and nothing else changes |
| Store.Database.PatchDeadline | convex/deadlines.ts:64-66 | an existing deadline is replaced and nothing else changes |
| Store.Database.DeleteDeadline | convex/deadlines.ts:122 | exactly that deadline disappears |
| Store.Database.RunAfter | convex/documents.ts:47-49 | the job's document id is appended to the scheduler queue and nothing else changes |
| Store.Database.TakeScheduled | convex/documents.ts:47-49 | the oldest queued job is removed and returned; an empty queue gives nothing |
| Deadlines.LexLeTotal | convex/deadlines.ts:41-43 | any two due dates are comparable |
| Deadlines.LexLeAntisymmetric | convex/deadlines.ts:41-43 | due dates that precede each other are equal |
| Deadlines.LexLeTransitive | convex/deadlines.ts:41-43 | the due-date order is transitive |
| Deadlines.InsertByDueDatePermutes | convex/deadlines.ts:41-43 | inserting into the sorted prefix neither loses nor duplicates a row |
| Deadlines.InsertByDueDateOrdered | convex/deadlines.ts:41-43 | inserting a row that is newer than every sorted row keeps the listing order |
| Deadlines.SortByDueDateOrdered | convex/deadlines.ts:41-43 | the stable sort of a newest-first scan is a permutation of it, ascending by due date and newest first among equal dates |
| Deadlines.GetUserDeadlinesSpec | convex/deadlines.ts:29-43 | with no caller, the list is empty; otherwise it has exactly the caller's deadlines, each once and as stored, sorted ascending by due date |
| Deadlines.OwnedDeadline | convex/deadlines.ts:54-62 | no caller gives "Not authenticated"; a missing deadline, or another user's, gives "Deadline not found"; success exactly when the caller is signed in and owns an existing deadline, and then the stored deadline |
| Deadlines.Toggled | convex/deadlines.ts:64-66 | the completion flag flips and no other field changes |
| Deadlines.ToggledTwice | convex/deadlines.ts:64-66 | toggling twice restores the deadline |
| Deadlines.ToggleDeadlineCompletion | convex/deadlines.ts:53-69 | fails exactly when the guard fails, with its error, and then changes nothing; otherwise it toggles the one deadline and leaves every other record, the counter and the queue alone |
| Deadlines.ToggleTwiceRestores | convex/deadlines.ts:53-69 | two toggles by the same caller leave the whole store as it was |
| Deadlines.CustomDeadline | convex/deadlines.ts:93-101 | the new deadline has the caller as owner, no document, the given title, description, due date and importance, and is neither completed nor reminded |
| Deadlines.CreateDeadline | convex/deadlines.ts:87-102 | fails exactly when nobody is signed in, changing nothing; otherwise it adds exactly one record under a fresh id and returns that id |
| Deadlines.DeleteDeadline | convex/deadlines.ts:111-124 | fails exactly when the guard fails, changing nothing; otherwise it removes exactly the target and the table shrinks by one |
| DocumentsInternal.GetDocumentInternal | convex/documentsInternal.ts:25-27 | the stored record when the id exists, else nothing, with no ownership check |
| DocumentsInternal.WithAnalysis | convex/documentsInternal.ts:56-59 | the status becomes completed and the result the given analysis; the owner, type, file name, file and upload time are kept |
| DocumentsInternal.MarkedFailed | convex/documentsInternal.ts:71-73 | the status becomes failed, the analysis (if any) is kept, and the identity fields are kept, whatever the prior status |
| DocumentsInternal.SaveAnalysisResult | convex/documentsInternal.ts:55-61 | fails on a missing id, changing nothing; otherwise it patches exactly that document to its completed form; no document returns to processing |
| DocumentsInternal.MarkAnalysisFailed | convex/documentsInternal.ts:70-75 | fails on a missing id, changing nothing; otherwise it patches exactly that document to failed, even a completed one |
| DocumentsInternal.FanOutAt | convex/documentsInternal.ts:100-109 | the i-th fanned-out deadline takes its title, due date and importance from the i-th key date, has the fixed description, is not completed or reminded, and carries the given owner and document |
| DocumentsInternal.CreateDeadlinesFromAnalysis | convex/documentsInternal.ts:98-111 | inserts one deadline per key date, in order, at consecutive fresh ids; the table grows by exactly the number of key dates and existing deadlines are untouched |
| DocumentsInternal.FanOutTwiceDuplicates | convex/documentsInternal.ts:99-110 | there is no deduplication: two runs add two deadlines per key date and keep every existing one |
| Documents.GenerateUploadUrl | convex/documents.ts:12-18 | fails with "Not authenticated" exactly when nobody is signed in; otherwise it returns the issued URL |
| Documents.NewDocument | convex/documents.ts:37-44 | the new record has the caller, type, file name and file, the clock reading as upload time, status processing and no analysis |
| Documents.CreateDocument | convex/documents.ts:31-52 | fails exactly when nobody is signed in, changing nothing; otherwise it inserts one processing document under a fresh id, queues exactly one job carrying that id, and returns the id |
| Documents.GetUserDocuments | convex/documents.ts:95-108 | empty with no caller; otherwise exactly the caller's documents, each once and as stored, newest first |
| Documents.GetDocument | convex/documents.ts:153-170 | nothing when signed out, when the id is absent, or when another user owns the record; otherwise the record, its id and its file's URL |
| Documents.GetDocumentMatchesListing | convex/documents.ts:95-170 | a document can be opened exactly when it is in the caller's own list, and it is then seen as listed |
| DocumentsActions.FirstIndexOf | convex/documentsActions.ts:152 | the first occurrence of a character: absent exactly when the character does not occur; otherwise there is no earlier occurrence |
| DocumentsActions.LastIndexOf | convex/documentsActions.ts:152 | the last occurrence of a character: absent exactly when the character does not occur; otherwise there is no later occurrence |
| DocumentsActions.JsonMatch | convex/documentsActions.ts:152 | a match exists exactly when some `{` precedes some `}`; it then runs from the first `{` to the last `}` inclusive |
| DocumentsActions.JsonMatchInProse | convex/documentsActions.ts:152-153 | for an object wrapped in prose with no `{` before it and no `}` after it, the match is exactly that object |
| DocumentsActions.Fallback | convex/documentsActions.ts:161-167 | the summary is the first min(200, length) characters of the text followed by "..."; there are no key dates, the fixed next steps and warning, and `details` holds only `rawText`, set to the text |
| DocumentsActions.ParseAnalysisResult | convex/documentsActions.ts:149-168 | with no match, the fallback; with a match, the parser's value for the matched span, or the fallback when it does not parse; never an error |
| DocumentsActions.ProseGivesFallback | convex/documentsActions.ts:152-167 | text without a `{` always yields the fallback |
| DocumentsActions.WrappedJsonParsed | convex/documentsActions.ts:152-155 | an object wrapped in prose that parses is returned exactly as parsed |
| DocumentsActions.TypeInstructions | convex/documentsActions.ts:105-142 | the type-specific part names the document type and ends with that type's details-field list |
| DocumentsActions.GetAnalysisPrompt | convex/documentsActions.ts:85-146 | every prompt starts with the JSON-envelope prompt, continues with that type's instructions, and ends with that type's details-field list |
| DocumentsActions.GetAnalysisPromptInjective | convex/documentsActions.ts:103-143 | different document types get different prompts |
| DocumentsActions.AttemptAnalysis | convex/documentsActions.ts:24-59 | the job fails upstream exactly when the file URL is missing or empty, the fetch fails, the API key is missing or empty, or the model gives no reply; otherwise the outcome is the parsed reply, rejected when the parsed value does not have the analysis-result shape |
| DocumentsActions.RequestAnalysis | convex/documentsActions.ts:22-59 | the step-by-step requests before the save reach the outcome `AttemptAnalysis` describes |
| DocumentsActions.RecordAttempt | convex/documentsActions.ts:61-78 | the tables end as `Recorded` describes. On success: save, then fan the key dates out for the document's owner; if the fan-out does not commit, the saved document is marked failed and keeps its result; on earlier failures it is only marked failed; the queue is untouched and no document returns to processing |
| DocumentsActions.AnalyzeDocument | convex/documentsActions.ts:13-81 | a missing document gives "Document not found" and no write; otherwise the job absorbs every failure, and the new documents, deadlines and counter are exactly those `Recorded` gives for the outcome of `AttemptAnalysis` and the fan-out |
| DocumentsActions.RunNextScheduled | convex/documents.ts:47-49 | an empty queue runs nothing and changes nothing. Otherwise the oldest job leaves the queue. If its document is missing, the job gives "Document not found" and both tables and the counter stay as they were. If the document exists, the job succeeds and the tables and counter end as `Recorded` gives for that document |

## Left out

- **Sign-in.** The auth provider (`getAuthUserId`) is replaced by the caller argument.
- **Storage.** Storage URL issuing and lookup are parameters: `issued` for `generateUploadUrl`, and `storageUrl` for `getDocument` and the job.
- **Clock.** `Date.now()` for `uploadedAt` is the parameter `now`.
- **Collaborators of the job.** The fetch of the file, its base64 encoding, the `GEMINI_API_KEY` lookup and the Gemini client are oracles in `DocumentsActions.Services`: each either answers or fails. The model name and the inline-data request layout are not modelled.
- **JSON parsing and the save validator.** `JSON.parse` is an oracle. Its value is seen only through whether `saveAnalysisResult`'s argument validator accepts it. `details` (`v.any()` in the schema) is a map from strings to strings.
- **Commit of the fan-out.** Whether the fan-out mutation commits is a flag of the environment. Convex runs a mutation as one transaction, so a fan-out that throws inserts nothing. The model uses that: it takes no partial fan-out.
- **Concurrency and timing.** The scheduler's delay and concurrent execution are not modelled. Jobs run one at a time from a FIFO queue, and other mutations do not interleave with a running job.
- **Date order.** `new Date(...)` parsing in the deadline comparator is replaced by lexicographic order. This agrees with chronological order for ISO `YYYY-MM-DD` dates only. Malformed dates, where the comparator returns NaN, are not modelled.
- **Record metadata.** `_creationTime` is represented by id order.
- **Index on type.** The `by_user_and_type` and `by_user_and_date` indexes are declared but never queried, so they are not modelled.
- **Return validators.** Convex checks handler return values against the declared `returns` validators; the model does not. In particular, the `returns` validator of `getDocumentInternal` (convex/documentsInternal.ts:9-24) lists neither `_creationTime` nor `analysisResult`. Its effect at run time is outside this model.
- **Text units.** `text.substring(0, 200)` counts UTF-16 code units; the model counts `char`s.
- **Unreachable branch.** The `default` branch of `getAnalysisPrompt` cannot be reached with a typed document type, so it is not modelled.
- **Logging.** `console.error` calls are not modelled.
- **Interface.** `src/App.tsx` and `src/Dashboard.tsx`, the React interface, are not part of this model.

Two behaviours of the code worth stating:

- **Failed with a result.** A failed document can carry an analysis. If the fan-out fails after `saveAnalysisResult`, the catch block marks the completed document failed. `markAnalysisFailed` checks no prior status and keeps the result. So "completed ⇒ never failed" does not hold, and `Schema.WellFormed` does not claim it.
- **Fallback summary.** The fallback summary of an empty reply is just "...".
