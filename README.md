# Batch generation and progress polling, modelled in Dafny

This project models the front end of a content-generation dashboard. It covers three things:

- the **progress tracker**. It polls `GET /batch-jobs/{id}/status` until the job is over, decides when to call `onComplete`, and picks the card to render.
- the **batch generator**. It holds the editable post rows, validates them, builds the `generate-batch` request body, and takes the job id to track from the response.
- the **campaign list**. It loads campaigns and generated posts, opens and closes the results dialog, and names the exported JSON file and the downloaded images.

Every backend request is an input to the operation that makes it: a `Response` that is either `Ok(body)` or `Failed(RequestError(detail, message))`. The tracker's `setInterval` timer becomes a sequence of ticks. Each tick is given the outcome of the one status request it issues, and it is processed atomically. The clock readings used for row ids (`Date.now()`) and for the batch name (`toLocaleString()`) are parameters too.

Files:

- `wrappers.dfy`: `Option`.
- `text.dfy`: JavaScript truthiness of strings, `String.prototype.trim`, and decimal numerals.
- `api.dfy`: request outcomes.
- `progress_tracker.dfy`: components/progress-tracker.tsx. Pure `State`, `Tick`, `Run` and `Render` functions, and the `Tracker` class whose `Step` and `Poll` methods are proved against them.
- `post_rows.dfy`: the list operations and the request body of components/batch-generator.tsx.
- `batch_generator.dfy`: the `Generator` class for that component's state.
- `campaign_list.dfy`: components/campaign-list.tsx.

Notable behaviour of the code, which the model follows:

- **Failure budget.** A failed fetch stops polling only when `pollCount > 5`, and `pollCount` counts *successful* fetches and is never reset. The comment at components/progress-tracker.tsx:59 speaks of stopping "after 5 failed attempts", which the test does not do. As a result, a job whose status fetches fail from the first one on is polled for ever and never releases its caller (`FailingFromTheStartNeverCompletes`).
- **Terminal statuses.** Only a top-level `"completed"` or `"failed"` status stops polling. Any other status, including one inside the nested `progress` record, keeps it going.
- **Sentinel record.** The `'unknown'` job gets an all-zero record with status `"processing"`.
- **No defaults in reconciliation.** The tracker stores `data.progress || data` unchanged. It fills no defaults and clamps nothing; only the display shows an absent count as 0.
- **Missing job id.** The `'unknown'` tracker never fetches and never calls `onComplete`. A submission whose `batch_job` has no truthy id therefore leaves the generator in its generating state until the user leaves the page (`AcceptedSubmissionKeepsGenerating`).
- **Row ids.** `removePost` refuses to remove the only row. It does not protect a list whose rows share an id: two rows with id `"x"` both go (`RemovePostCanEmptyWithSharedId`). "The list is never empty" is proved under the condition that ids are unique. The `Generator` class keeps unique ids as its invariant, on the stated assumption that every clock-derived id is new. The ids `addMultiplePosts` makes are pairwise different however the clock readings of one call fall, because the index after the only `_` tells them apart (`SamplePostsUnique`).
- **Posts request.** lib/api.ts as given defines no `getCampaignPosts`. In that code, every `loadGeneratedPosts` call therefore takes its failure path. The model keeps the request outcome as a parameter, as for every other request.

## Model

| member | source | states |
|---|---|---|
| `Text.TrimStart` | components/batch-generator.tsx:67 | the result is the suffix of the input after its leading whitespace (the ECMAScript WhiteSpace and LineTerminator set), and it does not start with whitespace |
| `Text.TrimEnd` | components/batch-generator.tsx:67 | the result is the prefix of the input before its trailing whitespace, and it does not end with whitespace |
| `Text.TrimEmptyIff` | components/batch-generator.tsx:67 | `s.trim()` is empty exactly when every character of `s` is whitespace |
| `Text.Truthy` | components/batch-generator.tsx:106 | no contract of its own: a string is truthy iff present and non-empty; `JobIdOf` and `ErrorText` state what follows from it |
| `Text.Trim` | components/batch-generator.tsx:67 | no contract of its own: `TrimEnd` after `TrimStart`; `TrimEmptyIff` states when it is empty |
| `Text.Decimal` | components/batch-generator.tsx:69 | the numeral of `n` is a non-empty string of digits that denotes `n` read left to right, with no leading zero, one digit exactly for n < 10 |
| `Text.DecimalInjective` | components/batch-generator.tsx:139-140 | different numbers have different numerals |
| `ProgressTracker.Reconcile` | components/progress-tracker.tsx:45 | no contract of its own: `progress || data`; `SuccessfulFetch` states that it is the stored record |
| `ProgressTracker.Effect` | components/progress-tracker.tsx:24-37 | no contract of its own: the effect's early return, storing the sentinel record for "unknown"; `UnscheduledIsFinal` and `UnknownJobNeverFetches` state its consequences |
| `ProgressTracker.Mounted` | components/progress-tracker.tsx:16-37 | no contract of its own: the initial state followed by the effect; `Tracker.constructor` and `BeforeFirstSuccess` state it |
| `ProgressTracker.Tick` | components/progress-tracker.tsx:39-65 | no contract of its own: one firing of the interval; `SuccessfulFetch`, `FailedFetch` and `UnscheduledIsFinal` state its effect case by case |
| `ProgressTracker.Run` | components/progress-tracker.tsx:39-65 | no contract of its own: the interval firing once per outcome; `RunKeepsCompletedOnceStopped` and `CompletesAtMostOnce` state its invariant |
| `ProgressTracker.Render` | components/progress-tracker.tsx:70-162 | no contract of its own: the render branches; `RenderPriority` states their order and `SuccessShowsProgress` the progress card |
| `ProgressTracker.ErrorText` | components/progress-tracker.tsx:57 | the error shown is the detail if it is non-empty, else the message if it is non-empty, else "Failed to fetch progress"; it is never empty |
| `ProgressTracker.SuccessfulFetch` | components/progress-tracker.tsx:45-53 | a successful fetch stores `progress` when present and the whole body otherwise, clears the error, adds exactly 1 to pollCount and one request; it stops polling and calls onComplete once iff the top-level status is "completed" or "failed" |
| `ProgressTracker.FailedFetch` | components/progress-tracker.tsx:54-63 | a failed fetch keeps progress and pollCount, sets a non-empty error, and stops polling with one onComplete call iff pollCount > 5 |
| `ProgressTracker.UnscheduledIsFinal` | components/progress-tracker.tsx:24-37 | once polling has stopped (or for the sentinel job) no tick changes anything: no request, no callback |
| `ProgressTracker.UnknownJobNeverFetches` | components/progress-tracker.tsx:24-37 | for job "unknown" the record is the all-zero "processing" record, no status request is ever issued, onComplete is never called and no error appears |
| `ProgressTracker.RunKeepsCompletedOnceStopped` | components/progress-tracker.tsx:49-63 | every run of ticks keeps "onComplete was called once if polling stopped, never otherwise" |
| `ProgressTracker.CompletesAtMostOnce` | components/progress-tracker.tsx:24-67 | from mounting on, whatever the responses, onComplete is called at most once, and exactly when polling has stopped |
| `ProgressTracker.FailuresBeforeSixPollsNeverStop` | components/progress-tracker.tsx:54-63 | while at most 5 polls have succeeded, any number of failures keep polling, issue one request each, keep progress and pollCount, show the last error, and never call onComplete |
| `ProgressTracker.FailingFromTheStartNeverCompletes` | components/progress-tracker.tsx:54-63 | a real job whose every fetch fails is still polled after any number of failures, with no record and no onComplete call |
| `ProgressTracker.RenderPriority` | components/progress-tracker.tsx:70-117 | the card is the error card iff there is an error; else the loading card iff there is no record; else the processing card iff the job is "unknown"; else the progress card |
| `ProgressTracker.ErrorCardFirst` | components/progress-tracker.tsx:57-85 | after a failed fetch the error card with that error is shown, whatever the record |
| `ProgressTracker.BeforeFirstSuccess` | components/progress-tracker.tsx:16-96 | until a real job's first successful fetch: the loading card before any fetch, and after one or more failed fetches the error card with the last failure's text |
| `ProgressTracker.UnknownJobShowsProcessing` | components/progress-tracker.tsx:24-115 | the "unknown" job always shows the processing card |
| `ProgressTracker.SuccessShowsProgress` | components/progress-tracker.tsx:117-162 | after a successful fetch of a real job, the progress card shows the stored record's counts and percentage, absent ones as 0, and marks the job done iff percentage is 100 |
| `ProgressTracker.TwoPollScenario` | components/progress-tracker.tsx:39-53 | a "processing" response with 1 of 3 done, then a "completed" one with 3 of 3: the tracker stores the last record, stops after 2 requests, calls onComplete once, and shows 3 of 3 at 100 % |
| `ProgressTracker.Tracker.constructor` | components/progress-tracker.tsx:16-37 | the initial state is no record, polling, no error, pollCount 0; for "unknown" the effect then stores the all-zero record |
| `ProgressTracker.Tracker.Step` | components/progress-tracker.tsx:39-65 | one tick updates the fields in place to exactly the pure `Tick` of the old state |
| `ProgressTracker.Tracker.Poll` | components/progress-tracker.tsx:39-65 | the interval firing once per outcome leaves the fields at the pure `Run` of the old state |
| `PostRows.AddPost` | components/batch-generator.tsx:44-53 | no contract of its own: the old rows plus one blank row whose id is the decimal clock reading; `AddPostKeepsRows` states it |
| `PostRows.AddPostKeepsRows` | components/batch-generator.tsx:44-53 | addPost appends one blank row with both flags on and keeps every existing row; with a new id, ids stay unique |
| `PostRows.WithoutId` | components/batch-generator.tsx:57 | the filter keeps exactly the rows with another id, and drops as many rows as have that id |
| `PostRows.WithoutIdKeepsOrder` | components/batch-generator.tsx:57 | the filter distributes over concatenation, so the kept rows stay in their order |
| `PostRows.WithoutIdKeepsUnique` | components/batch-generator.tsx:57 | filtering a list with unique ids leaves unique ids |
| `PostRows.RemovePost` | components/batch-generator.tsx:55-59 | no contract of its own: the rows unchanged when there is only one, else `WithoutId`; `RemovePostKeepsARow` and `RemovePostCanEmptyWithSharedId` state it |
| `PostRows.RemovePostKeepsARow` | components/batch-generator.tsx:55-59 | with unique ids: a single row stays unchanged; otherwise only the row with that id goes; the list stays non-empty and its ids unique |
| `PostRows.RemovePostCanEmptyWithSharedId` | components/batch-generator.tsx:55-59 | two rows sharing the removed id are both dropped, leaving no row |
| `PostRows.EditChangesOnlyItsField` | components/batch-generator.tsx:62 | an edit sets its own field to its value and leaves every other field of the row unchanged |
| `PostRows.UpdatePost` | components/batch-generator.tsx:61-63 | updatePost keeps the length; rows with the id get the edit, every other row is unchanged, and no id changes |
| `PostRows.UpdatePostKeepsIds` | components/batch-generator.tsx:61-63 | updatePost keeps the set of ids and their uniqueness |
| `PostRows.AddMultiplePosts` | components/batch-generator.tsx:137-147 | no contract of its own: the old rows followed by one sample row per clock reading; `AddMultiplePostsTitles`, `AddMultiplePostsKeepsUnique` and `SamplePostsAreValid` state it |
| `PostRows.AddMultiplePostsTitles` | components/batch-generator.tsx:137-147 | addMultiplePosts keeps the existing rows as a prefix and titles new row k "Post" followed by the number rows+k+1 |
| `PostRows.SampleIdsDistinct` | components/batch-generator.tsx:139 | a sample id `${reading}_${index}` determines both its clock reading and its index |
| `PostRows.SamplePostsUnique` | components/batch-generator.tsx:138-145 | the sample rows of one call have pairwise different ids, whatever clock reading each row gets |
| `PostRows.AddMultiplePostsKeepsUnique` | components/batch-generator.tsx:137-147 | when no existing row has one of the new ids, adding sample rows keeps ids unique |
| `PostRows.InvalidPosts` | components/batch-generator.tsx:67 | the invalid rows are exactly the rows whose title or brief trims to empty, each as often as it occurs in the list, so its length is the count the alert shows |
| `PostRows.InvalidPostsCountsBlankRows` | components/batch-generator.tsx:67-71 | no row is counted in the alert iff every row has a title and a brief that are not all whitespace |
| `PostRows.StartsWithTextNotBlank` | components/batch-generator.tsx:67 | a string starting with a non-whitespace character never trims to empty |
| `PostRows.SamplePostsAreValid` | components/batch-generator.tsx:140-142 | the generated sample rows always pass validation |
| `PostRows.ValidationAlert` | components/batch-generator.tsx:69 | no contract of its own: the count's numeral and " posts are missing title or brief"; named in `StartGeneration`'s contract |
| `PostRows.ToRequest` | components/batch-generator.tsx:80-88 | no contract of its own: one entry of the body; `BatchBodyEntries` states its fields |
| `PostRows.BatchBody` | components/batch-generator.tsx:78-95 | no contract of its own: the request body; `BatchBodyEntries` and `ValidatedBodyHasText` state it |
| `PostRows.RequestPosts` | components/batch-generator.tsx:80-88 | the body has exactly one entry per row, in row order, entry i built from row i |
| `PostRows.BatchBodyEntries` | components/batch-generator.tsx:78-95 | entry i copies row i's title, brief and flags; its topic is the row's topic, or the title when the topic is empty; brand and tone come from the campaign; the options are always 150 words, hashtags, emojis and cache on |
| `PostRows.ValidatedBodyHasText` | components/batch-generator.tsx:67-88 | the body built from validated rows has non-blank titles and briefs and non-empty topics |
| `BatchGenerator.JobIdOf` | components/batch-generator.tsx:101-112 | a job id is obtained iff the request succeeded and the body has `batch_job`; it is never empty; it is `batch_job.id` when that is truthy and "unknown" otherwise; a body without `batch_job` gives the TypeError of reading its `id`; a rejected request keeps its error |
| `BatchGenerator.FailureAlert` | components/batch-generator.tsx:125 | no contract of its own: "Batch generation failed: " and the detail when truthy, else the message; named in `Settle`'s contract |
| `BatchGenerator.AcceptedSubmissionKeepsGenerating` | components/batch-generator.tsx:104-194 | an accepted submission with `batch_job` yields a non-empty job id, so the tracker is shown; when the id was not truthy that tracker never calls onComplete |
| `BatchGenerator.Generator.constructor` | components/batch-generator.tsx:30-42 | one blank row with id "1", not generating, no result, no job |
| `BatchGenerator.Generator.AddPost` | components/batch-generator.tsx:44-53 | the rows become `AddPost` of the old rows, keeping at least one row and unique ids |
| `BatchGenerator.Generator.RemovePost` | components/batch-generator.tsx:55-59 | the rows become `RemovePost` of the old rows, keeping at least one row and unique ids |
| `BatchGenerator.Generator.UpdatePost` | components/batch-generator.tsx:61-63 | the rows become `UpdatePost` of the old rows, keeping the invariant |
| `BatchGenerator.Generator.AddMultiplePosts` | components/batch-generator.tsx:137-147 | with one clock reading per new row, the rows become `AddMultiplePosts` of the old rows, `count` longer, keeping the invariant |
| `BatchGenerator.Generator.StartGeneration` | components/batch-generator.tsx:65-129 | with n > 0 invalid rows: the only effect is the alert "n posts are missing title or brief", with no request; otherwise exactly one request with the built body, and then either generating with the job id and the response kept, or the "Batch generation failed: " alert with detail or message, not generating, no job and no result |
| `BatchGenerator.Generator.Settle` | components/batch-generator.tsx:101-128 | once the request settles: with a job id from the reply, the job id is recorded, the response data kept, generation stays as it was and no alert; on a rejected request or a reply without `batch_job`, the "Batch generation failed: " alert with detail or message, not generating and no job |
| `BatchGenerator.Generator.HandleGenerationComplete` | components/batch-generator.tsx:131-135 | not generating and no job |
| `CampaignList.ReplaceNonAlnum` | components/campaign-list.tsx:97 | each character other than an ASCII letter or digit becomes `_`, one for one |
| `CampaignList.Lower` | components/campaign-list.tsx:97 | each ASCII capital becomes its small letter, one for one |
| `CampaignList.Stem` | components/campaign-list.tsx:97 | no contract of its own: `Lower` after `ReplaceNonAlnum`; `ImageFileName` and `StemIdempotent` state it |
| `CampaignList.ImageFileName` | components/campaign-list.tsx:97 | the name is 4 longer than the title, ends in ".png", has only `[a-z0-9_]` before it, and character i is title character i lowercased or `_` |
| `CampaignList.StemFixesStemChars` | components/campaign-list.tsx:97 | a string already made of `[a-z0-9_]` is left unchanged by sanitisation |
| `CampaignList.StemIdempotent` | components/campaign-list.tsx:97 | sanitising a sanitised stem again changes nothing |
| `CampaignList.ExportFileName` | components/campaign-list.tsx:87 | no contract of its own: the campaign name and "_generated_content.json"; `Panel.ExportResults` states it |
| `CampaignList.OrEmpty` | components/campaign-list.tsx:43 | no contract of its own: `data || []` on a list; `Panel.LoadCampaigns` and `Panel.LoadGeneratedPosts` state it |
| `CampaignList.Panel.constructor` | components/campaign-list.tsx:29-33 | no campaigns and loading, nothing selected, no posts, not loading results |
| `CampaignList.Panel.LoadCampaigns` | components/campaign-list.tsx:39-50 | loading ends either way; on success the campaigns are the response's list, or empty when it has none; on failure they stay |
| `CampaignList.Panel.LoadGeneratedPosts` | components/campaign-list.tsx:52-62 | loading results ends either way; on success the posts are the response's list, or empty when it has none; on failure they stay |
| `CampaignList.Panel.HandleViewResults` | components/campaign-list.tsx:64-67 | the campaign is selected and its posts are loaded |
| `CampaignList.Panel.HandleCloseResults` | components/campaign-list.tsx:69-72 | nothing selected and no posts |
| `CampaignList.Panel.ExportResults` | components/campaign-list.tsx:74-92 | nothing is exported iff no campaign is selected or there are no posts; otherwise the export holds the campaign and its posts, in a file named after the campaign followed by "_generated_content.json" |

## Left out

- Timing is not modelled: the 2000 ms interval, `Date.now()` and `toLocaleString()`. Clock readings are parameters: one millisecond count per `addPost`, one per generated row in `addMultiplePosts`, and the batch name's date string. The export's `exported_at` timestamp is left out of `Export`. The submission's `duration` and the posts-per-minute figure are left out as floating-point display values.
- `Math.round` of the percentage is left out (floating-point rounding). Percentages and counts are integers.
- Async interleavings are left out: overlapping in-flight status fetches, a fetch resolving after unmount, and the effect re-running while a promise is pending. Each tick and each submission is one atomic step. Unmounting the tracker means that no more ticks arrive. The interval restart when the effect re-runs, and the `clearInterval` cleanup, are therefore not visible in the model.
- JSX, styling, icons, the `Blob`/DOM steps of `exportResults` and `downloadImage`, and `console` logging are left out. Only branch selection and the file names are modelled.
- lib/api.ts (base URL, 120 s timeout, bearer token from `localStorage`, 401 redirect), hooks/use-auth.ts, app/dashboard/page.tsx and components/campaign-form.tsx are not part of this model. Request outcomes are parameters.
- Response bodies are assumed to be objects. A `null` status body, which would throw when `.progress` is read, is not modelled, and neither are a non-string `detail` or a non-string job id.
- A `char` stands for one UTF-16 code unit. A character outside the Basic Multilingual Plane is two code units in JavaScript, so `downloadImage` writes two `_` for it. The model does not distinguish it.
- `CampaignList.Lower`: models `toLowerCase` only on ASCII. That is exact here, because it is applied after every other character has been replaced by `_`.
- `BatchGenerator.MissingBatchJobMessage`: the TypeError text for a body without `batch_job` is the V8 engine's for an `undefined` one. `Option.None` also stands for a `null` `batch_job`, for which V8 says "of null" instead; other engines word both differently.
- `PostRows.Edit`: only the five field edits the form makes are modelled. `updatePost` with key `id`, or with a value of the wrong type, is not.
- `BatchGenerator.Generator.AddPost` and `BatchGenerator.Generator.AddMultiplePosts` require that the clock-derived ids are new. The source does not check this: two `addPost` calls within one millisecond would repeat an id.
- The `Generator`'s `disabled={isGenerating || posts.length === 0}` guard on the Generate button is not part of `StartGeneration`, which, like the source function, does not check it.
