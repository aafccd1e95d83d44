# LinkedIn post queue: a verified model

This project models the post-queue core of a LinkedIn automation tool and
proves properties of it in Dafny. The tool keeps its posts in a spreadsheet
whose `posts` sheet has the header `id, series, topic, content, status,
scheduled_date, image_url, post_url, created_at, published_at`. Around that
sheet it has four parts:

- a background scheduler whose daily tick publishes the earliest due
  `pending` post;
- the queue actions of the web UI: add, post instantly, schedule a
  generated series, save drafts, post now, delete, rewrite the sheet;
- a resource curator that gathers PDFs per topic, scores and ranks them,
  downloads the ten best, drafts posts about them and saves them to a
  `resources` sheet;
- helpers around the language model: fence stripping, comma cleanup,
  batching a post series into groups of five, placeholders for failed
  batches, sorting by day.

Modules:

- `Wrappers`: `Option`.
- `Text`: the string operations the source relies on. These are lower-casing,
  substring tests, `strip`, `split('\n')`/`join`, `replace`, slicing and
  decimal numbers.
- `StableSort`: Python's `list.sort` as a stable insertion sort by an integer
  key. It is proved sorted, a permutation and stable.
- `PostQueue`: the post record, the sheet encoding and its read-back, the
  `len + 1` id rule, publishing and deleting by id, and the `Worksheet` class
  that the spreadsheet's rows live in.
- `Scheduler`: the `SchedulerService` class (running flag, job triggers, the
  publishing tick) and the specification functions of the tick.
- `QueueActions`: the queue logic written inline in `app.py`.
- `AiService`: reply cleaning, `enhance_content`'s result and
  `generate_post_series`.
- `CurationService`: `get_curated_pdfs`, `curate_resources_from_topics`, the
  URL title and file-name cleanup, the simple draft and `_save_to_sheets`.

External actors are passed in as function parameters:

- the browser publisher: `Publisher`, which returns a text or raises;
- the language model and the JSON decoder;
- the search methods, the scorer, the downloader and the draft writer;
- the clock: a `now` argument in whole seconds.

Timestamps are stored as decimal seconds. An empty date and the text "NaT"
read as "not a time", and any other text reads as unparsable.

Where the description of the system and the code disagree, the model follows
the code:

- A publisher that raises inside the scheduled tick aborts the tick before
  any write. The tick catches the exception, and no `failed` status is
  recorded.
- The tick marks the chosen post `published` whatever text the publisher
  returns, including "Login failed". Only the instant post classifies the
  reply. `Scheduler.TickScenario` shows this.
- Pending posts with equal dates have no defined order in the source. The
  model breaks ties by id, then by row position.
- Under the queue tab's "All" filter, the listed frame is the dashboard's
  own table, so its date conversion is written back by "Post Now" and
  "Delete": every unparsable date becomes "NaT". `QueueActions.Shown` models
  the listed frame.
- The curation job calls a method that does not exist
  (`services/scheduler_service.py:95`). It always fails, and the failure is
  swallowed.

## Model

| member | source | states |
|---|---|---|
| PostQueue.Encode | app.py:52-55 | a record becomes exactly one cell per column of the ten-column header |
| PostQueue.StampRoundTrip | services/scheduler_service.py:53 | a timestamp the model writes parses back to the same instant |
| PostQueue.CoerceStampKeepsTime | app.py:705 | a date converted with `errors='coerce'` and written back with `str` parses to the same instant when it was one and to NaT otherwise (never to a failing date), and converting twice changes nothing |
| PostQueue.DecodeEncodeRow | app.py:217-221 | decoding an encoded record gives the record back |
| PostQueue.DecodeEncodeRows | app.py:217-221 | decoding the encoded rows of a table gives the table back, in order |
| PostQueue.ReadAfterRewrite | app.py:217-221 | after `update_sheet` writes the header and then every row, the sheet reads back as exactly the table written: same count, same order |
| PostQueue.DecodeRowsAppend | app.py:206-214 | appending one encoded record to decodable rows decodes to the old records followed by it |
| PostQueue.ReadAfterAppend | app.py:206-214 | appending one row to a readable sheet reads back as the old table plus that record |
| PostQueue.DecodeRowsLength | app.py:417 | a decodable sheet has as many records as data rows |
| PostQueue.RecordCountIsTableLength | app.py:417 | the count the id rule uses (`len(posts_df)`) is the number of records read |
| PostQueue.MarkPublished | services/scheduler_service.py:72-74 | rows with the chosen id get status `published`, the post url and the publish time, with their other fields unchanged; every other row is unchanged; the length is unchanged |
| PostQueue.SetPublished | services/scheduler_service.py:72-74 | the in-place `.loc` update loop produces `MarkPublished` of the table |
| PostQueue.RemoveIdKeeps | app.py:769 | after deleting an id, a record remains exactly when it was there and has another id |
| PostQueue.RemoveIdAppend | app.py:769 | the delete filter distributes over concatenation, so it keeps the order of the remaining rows |
| PostQueue.RemoveAbsentId | app.py:769 | deleting an id that no row has leaves the table unchanged |
| PostQueue.RemoveFromNumbered | app.py:769 | in a table numbered 1..n, deleting one existing id removes exactly one row |
| PostQueue.NextIdCollidesAfterDelete | app.py:417 | after deleting any id but the last from a table numbered 1..n, the `len + 1` rule hands out the id that the last row still carries |
| PostQueue.Worksheet.AppendRow | app.py:208 | `append_row` adds one row at the end and changes nothing else |
| PostQueue.Worksheet.Clear | app.py:218 | `clear` empties the sheet |
| PostQueue.UpdateSheet | app.py:217-221 | the sheet ends up holding the header followed by every record in order |
| Scheduler.BeforeTotal | services/scheduler_service.py:54 | any two rows are ordered one way or the other by (date, id, position) |
| Scheduler.BeforeTransitive | services/scheduler_service.py:54 | the order used to pick the next post is transitive |
| Scheduler.EarliestUnique | services/scheduler_service.py:54-55 | at most one pending row is the earliest |
| Scheduler.EarliestIn | services/scheduler_service.py:49-55 | the candidate among the first `n` rows is one of those rows |
| Scheduler.EarliestInCorrect | services/scheduler_service.py:49-55 | among the first `n` rows, there is no candidate exactly when none is pending; otherwise the candidate is pending and precedes every pending row |
| Scheduler.EarliestCorrect | services/scheduler_service.py:49-55 | the selected row is `pending` and has the minimum scheduled date; nothing is selected exactly when no row is pending, so published, failed and draft rows are never dispatched |
| Scheduler.SelectNext | services/scheduler_service.py:49-55 | the selection loop returns None exactly when no row is pending, and otherwise the earliest pending row |
| Scheduler.TickIdleWithoutPending | services/scheduler_service.py:49-51 | with no pending row the tick writes nothing |
| Scheduler.TickPublishesEarliestDue | services/scheduler_service.py:49-80 | a tick that writes has published the earliest pending row, which was due, and no date failed to parse; the publisher returned; the table written is `MarkPublished` with the returned text and `now` |
| Scheduler.TickPublishesWhenEarliestDue | services/scheduler_service.py:49-80 | the converse: a readable sheet whose first pending row is due, with no pending date failing to parse and a publisher that returns, is always rewritten with that row's id marked published with the reply and `now` |
| Scheduler.TickWaitsWhenEarliestNotDue | services/scheduler_service.py:58-61 | when the earliest pending row is not yet due, no pending row is due and the tick writes nothing |
| Scheduler.DispatchedIdNotChosenAgain | services/scheduler_service.py:72-80 | after a tick that writes, the next tick never picks the same id again |
| Scheduler.TickScenario | services/scheduler_service.py:66-74 | with a publisher that returns "Login failed", the due post is still marked `published` with that text as its url, and the later post is untouched |
| Scheduler.NextFire | services/scheduler_service.py:128-131 | a daily trigger's next fire time is at or after `now`, less than a day later, and falls at the trigger's hour and minute |
| Scheduler.NextFireEarliest | services/scheduler_service.py:128-131 | no earlier instant at or after `now` has the trigger's time of day |
| Scheduler.SchedulerService.constructor | services/scheduler_service.py:11-39 | a new service is stopped and has `daily_post` at 09:00 and `daily_curation` at 08:00 |
| Scheduler.SchedulerService.Start | services/scheduler_service.py:112-116 | after `start` the service is running, whether or not it was already; the jobs are unchanged |
| Scheduler.SchedulerService.Stop | services/scheduler_service.py:118-122 | after `stop` the service is stopped, whether or not it was running; the jobs are unchanged |
| Scheduler.SchedulerService.NextRunTime | services/scheduler_service.py:128-131 | None exactly for an unknown job id; otherwise the job's next fire time |
| Scheduler.SchedulerService.UpdateSchedule | services/scheduler_service.py:133-138 | an invalid hour or minute is refused first; an unknown id is refused next; otherwise only the named job's trigger changes |
| Scheduler.SchedulerService.PublishScheduledPost | services/scheduler_service.py:41-86 | the sheet after a tick is the planned rewrite, or is unchanged when the tick is idle or swallows an error |
| Scheduler.CurationNoticeCounts | services/scheduler_service.py:88-100 | the curation job notifies exactly when the curator has `curate_resources`, and the notification names the number of resources |
| Scheduler.CurationJobNeverNotifies | services/scheduler_service.py:92-95 | the curation service does not define `curate_resources`, so the job raises, the raise is caught, and no notification is ever sent |
| Scheduler.SchedulerService.RunCuration | services/scheduler_service.py:88-100 | the job's outcome is the notice for the curation service's own methods, which is none; it modifies no worksheet |
| QueueActions.Outcome | app.py:449-453 | the outcome is always `failed` or `published` |
| QueueActions.OutcomeIgnoresCase | app.py:449 | the outcome does not depend on letter case |
| QueueActions.LoginFailedIsFailure | app.py:449-451 | the publisher's "Login failed" reply is classified `failed` |
| QueueActions.MentionsDraftIsFailure | app.py:449-451 | any reply that mentions "draft", in any letter case and wherever in the text, is classified `failed` |
| QueueActions.SavedAsDraftIsFailure | app.py:449-451 | the "saved as draft" reply is classified `failed` |
| QueueActions.PostingFailedIsFailure | app.py:449-451 | every "Posting failed - ..." reply is classified `failed` |
| QueueActions.FeedUrlIsPublished | app.py:452-453 | the feed url reply is classified `published` |
| QueueActions.InstantRecord | app.py:459-472 | the instant row has the next id, the classified status and the reply as url; `published_at` is non-empty exactly when the status is `published`, and then it is `now` |
| QueueActions.ManualRecord | app.py:417-432 | a manual row is `pending` with empty url and publish time, scheduled at the chosen instant |
| QueueActions.AppendToSheet | app.py:206-214 | a row's cells are appended; the `.iloc` indexer appends nothing and reports failure |
| QueueActions.IndexerLosesRow | app.py:206-214 | handing over the indexer leaves the stored table unchanged, while handing over the cells adds the record |
| QueueActions.AddToQueueAsWritten | app.py:414-434 | as written, "Add to Queue" leaves the sheet unchanged |
| QueueActions.AddToQueue | app.py:414-434 | as intended, the pending post is appended with id `len + 1`, or 1 for an empty sheet; nothing is appended when a field is empty |
| QueueActions.InstantPostAsWritten | app.py:439-474 | as written, "Post Instantly" publishes but leaves the sheet unchanged |
| QueueActions.InstantPost | app.py:439-474 | as intended, the classified outcome is appended with the next id unless the publisher raises |
| QueueActions.ReadAfterAppendRows | app.py:602-603 | appending the encoded rows of some records to a readable sheet reads back as the old table followed by those records |
| QueueActions.ScheduledRecords | app.py:584-600 | one row per generated post |
| QueueActions.ScheduledRecordsShape | app.py:581-600 | row `i` has id `base_id + i`, is `pending` with empty url and publish time, carries the post's content, and is scheduled on day `start + i` at the post time |
| QueueActions.DraftRecords | app.py:634-649 | row `i` has id `base_id + i`, status `draft` and an empty scheduled date |
| QueueActions.KeptRows | app.py:602-606 | no more rows are kept than were attempted |
| QueueActions.NothingKeptIffAllFailed | app.py:602-607 | nothing is appended exactly when every append raised |
| QueueActions.AllKeptWithoutFailures | app.py:602-605 | when no append raises, every row is appended in order |
| QueueActions.AppendAll | app.py:584-606 | the loop appends exactly the rows whose append did not raise, in order, and counts them |
| QueueActions.ScheduleAll | app.py:577-618 | scheduling appends the surviving series rows numbered from `len + 1`; the count is the number appended; success is reported exactly when it is positive |
| QueueActions.SaveDrafts | app.py:630-666 | saving drafts appends the surviving draft rows numbered from `len + 1`; success is reported exactly when the count is positive |
| QueueActions.ScheduledSeriesReadsBack | app.py:581-605 | after a series is scheduled without failures, the sheet reads back as the old table followed by the series, with ids `n + 1`, `n + 2`, ... |
| QueueActions.ShownKeepsTimes | app.py:700-705 | the listed frame differs from the table only in `scheduled_date`; a time stays that time and, under "All", every other date becomes NaT, so no pending row's date fails to parse |
| QueueActions.PostNowIgnoresSchedule | app.py:700-762 | post-now writes exactly for a `pending` or `draft` row whose publish returned, whatever its date; it marks that id `published`, leaves every other id as the listed frame has it (as read, unless the filter is "All"), and the written table reads back |
| QueueActions.PostNowUnderAllCoerces | app.py:700-762 | a post-now under "All" also rewrites every other date: instants are kept, unparsable dates are lost as NaT, and no pending row is left to stall the tick |
| QueueActions.PostNow | app.py:700-766 | the sheet after post-now is the planned rewrite of the listed frame, or unchanged |
| QueueActions.DeletePost | app.py:700-772 | the sheet after delete holds the header and the listed frame's records without the id, in order |
| QueueActions.DeleteReadsBack | app.py:700-772 | that sheet reads back as exactly the remaining records; a record remains exactly when it is in the listed frame and its id differs, which under any filter but "All" means a record of the table as read |
| AiService.FencedReplyBody | services/ai_service.py:41-46 | a fenced reply loses its opening and closing fence lines and keeps the body |
| AiService.CleanCommasDropsTrailing | services/ai_service.py:140 | the cleanup equals dropping every comma directly before `]` and then every comma directly before `}` |
| AiService.EnhanceContent | services/ai_service.py:36-54 | an unavailable model raises; for the stripped, unfenced reply: text that does not decode gives the reply as sent as the only version; an empty object or string gives no versions; any other non-array raises; an array gives each element's `content` in order, and raises exactly when some element has none |
| AiService.EnhanceFencedReply | services/ai_service.py:39-52 | for a reply fenced by a first and a last line, the versions are the contents of the array the text between them decodes to, in order; when that text does not decode, the whole fenced reply is the one version |
| AiService.EnhanceDecoded | services/ai_service.py:47-52 | an undecodable reply gives the raw text as the only version; an empty object or string gives no versions; any other value that is not an array raises; an array gives each element's `content` in order, and it raises exactly when some element has none |
| AiService.KeptBefore | services/ai_service.py:146-149 | validation keeps no more posts than it was given |
| AiService.KeptAreComplete | services/ai_service.py:146-149 | every kept post came from an element with `day`, `title` and `content` |
| AiService.CompleteAreKept | services/ai_service.py:146-149 | every complete element is kept when no element makes the check raise |
| AiService.Placeholders | services/ai_service.py:153-159 | a failed batch gives exactly `posts_in_batch` placeholders for the days `start_day, start_day + 1, ...` |
| AiService.PlaceholdersSplit | services/ai_service.py:153-159 | placeholders for consecutive day ranges join into the placeholders for the whole range |
| AiService.BatchesFromShape | services/ai_service.py:94-96 | from a multiple of five, the batches start five apart, have sizes 1..5, and cover the rest exactly |
| AiService.BatchesPartition | services/ai_service.py:94-96 | batches start at 0, 5, 10, ...; each has size 1..5; the sizes add up to `num_posts` (0 when it is not positive) |
| AiService.CollectStep | services/ai_service.py:94-159 | the posts collected from a batch onward are that batch's posts followed by the posts of the following batches |
| AiService.ValidateElements | services/ai_service.py:146-149 | the validation loop keeps exactly the complete elements and raises when some element is not an object |
| AiService.AppendPlaceholders | services/ai_service.py:151-159 | the placeholder loop appends exactly the batch's placeholders |
| AiService.RunBatch | services/ai_service.py:116-159 | one batch gives its validated posts, or placeholders when the model, the decoder or the validation fails |
| AiService.RunDecoded | services/ai_service.py:143-158 | after decoding, a batch gives placeholders for malformed JSON, nothing for a value that is not an array (empty or not), and otherwise the kept posts followed by placeholders when the validation raised |
| AiService.PlaceholdersByDay | services/ai_service.py:153-162 | placeholders come in increasing day order, so sorting them changes nothing |
| AiService.CollectBatches | services/ai_service.py:94-159 | the batch loop collects every batch's posts in batch order |
| AiService.GeneratePostSeries | services/ai_service.py:83-163 | the result is the collected posts, sorted by day and cut to `num_posts` |
| AiService.SeriesOrderedAndBounded | services/ai_service.py:162-163 | the series is sorted by day, has at most `num_posts` posts, all of them collected, and all collected posts when they fit |
| AiService.CollectFailed | services/ai_service.py:151-159 | when every batch fails, the collected posts are the placeholders for the remaining days |
| AiService.AllBatchesFailed | services/ai_service.py:83-163 | when the model is always unavailable, the series is exactly the placeholders for days 1..n |
| StableSort.SortSorted | services/ai_service.py:162 | the sort orders by key, keeps the length and is a permutation |
| StableSort.SortStable | services/curation_service.py:322 | among elements of equal key, the sort keeps the input order |
| StableSort.SortOfSorted | services/ai_service.py:162 | sorting an already ordered list changes nothing |
| CurationService.Tagged | services/curation_service.py:254-262 | each curated entry is tagged `PDF`, `Curated Educational Resources` and the query |
| CurationService.GetCuratedPdfs | services/curation_service.py:183-266 | the nested loop returns the curated list for the query |
| CurationService.CuratedInMatches | services/curation_service.py:250-262 | every curated result is tagged for the query and is an entry of a topic whose keyword occurs in the lower-cased query |
| CurationService.CuratedInComplete | services/curation_service.py:250-262 | conversely, every entry of every topic whose keyword occurs in the lower-cased query is among the curated results, tagged for the query |
| CurationService.CuratedForEmpty | services/curation_service.py:250-266 | the curated list is empty exactly when no keyword occurs in the lower-cased query |
| CurationService.CuratedInUnmatchedTail | services/curation_service.py:252-253 | topics whose keyword does not occur in the query add nothing |
| CurationService.PythonQuery | services/curation_service.py:189-266 | the query "Python" gets the three python entries, and no others |
| CurationService.GatherUntilPrefix | services/curation_service.py:292-296 | the early-stopping loop gathers a prefix of all the methods' results, and stops short only once it holds at least `max_per_topic` |
| CurationService.TopicResultsArePrefix | services/curation_service.py:292-298 | for a non-negative cap, a topic contributes exactly the first `max_per_topic` of all its methods' results in order, so never more than `max_per_topic` |
| CurationService.GatherTopic | services/curation_service.py:292-298 | the loop with `break` computes that contribution |
| CurationService.GatheredBound | services/curation_service.py:279-298 | for a non-negative cap, all topics together contribute at most `topics × max_per_topic` resources |
| CurationService.GatherAll | services/curation_service.py:279-298 | the topic loop gathers each topic's contribution in topic order |
| CurationService.Scores | services/curation_service.py:315-319 | each resource gets the scorer's value, or 7 when scoring raises |
| CurationService.ScoreAll | services/curation_service.py:315-319 | the scoring loop computes those scores |
| CurationService.RankedByRelevance | services/curation_service.py:322 | the ranking has every scored resource once, highest score first, with ties in found order |
| CurationService.AfterDownload | services/curation_service.py:333-342 | a resource is `success` exactly when it has a local path and `failed` exactly when it has none |
| CurationService.DownloadTop | services/curation_service.py:328-342 | only the first ten ranked resources are downloaded, in ranked order |
| CurationService.DownloadLoop | services/curation_service.py:328-342 | the download loop computes that list |
| CurationService.WithDrafts | services/curation_service.py:349-353 | the draft pass changes only each resource's draft: the model's, or the simple draft when it raises |
| CurationService.DraftLoop | services/curation_service.py:349-353 | the draft loop computes that list |
| CurationService.TopTenKept | services/curation_service.py:328-353 | the download and draft passes keep the first ten ranked resources with their scores, and tag each `success` exactly when it has a local file |
| CurationService.RankedFromGathered | services/curation_service.py:322 | every ranked resource was gathered |
| CurationService.PipelineOutcome | services/curation_service.py:322-353 | the processed list has min(n, 10) resources, all gathered, in score order, none scoring below a resource left out, each `success` exactly when downloaded |
| CurationService.CurateOutcome | services/curation_service.py:268-366 | `curate_resources_from_topics` returns that list whenever it returns |
| CurationService.CuratePipeline | services/curation_service.py:268-366 | the pipeline's steps return its result; it returns the empty list without saving when nothing was found; it saves exactly when the result is non-empty, numbering the rows on from the stored records exactly when asked to |
| CurationService.CurateResourcesFromTopics | services/curation_service.py:268-366 | as written: it returns the pipeline's result and saves exactly when that is non-empty, through `_save_to_sheets` as written, so every row saved by one run carries the id `len(existing) + 1` |
| CurationService.CurateResourcesFromTopicsIntended | services/curation_service.py:268-366 | as intended: the same result and save condition, with the saved rows numbered on from the stored records |
| CurationService.SimpleDraftMentions | services/curation_service.py:401-410 | the simple draft names the title, the query and the url, and tags the query as one hashtag word with its spaces removed |
| CurationService.SafeTitle | services/curation_service.py:379-380 | every character that is not alphanumeric, space, `-` or `_` becomes `_`, and at most 80 are kept |
| CurationService.SafeTitleIdempotent | services/curation_service.py:379-380 | a safe title is left unchanged |
| CurationService.FileNameStaysInFolder | services/curation_service.py:379-382 | with a hex digest, the file name has no `/`, ends in `.pdf` and has at most 93 characters |
| CurationService.LastSegment | services/curation_service.py:56 | the segment holds no `/`, ends the path, and follows its last `/` |
| CurationService.CollapseSpaces | services/curation_service.py:58 | no two white-space characters are left side by side; no character is added except the space; an empty input stays empty |
| CurationService.CleanTitleShape | services/curation_service.py:56-58 | a cleaned title has no `_` or `-`, no two white-space characters side by side, and no white space at either end |
| CurationService.UrlTitle | services/curation_service.py:56-64 | the stored title has at most 200 characters, and it is the cleaned segment whenever that has at least 5 |
| CurationService.FallbackTitleNamesQuery | services/curation_service.py:60-61 | the fallback title names the query |
| CurationService.FallbackNamesQuery | services/curation_service.py:60-61 | a cleaned title under five characters is replaced by a fallback that names the query when the query has at most 190 characters |
| CurationService.ResourceRow | services/curation_service.py:422-435 | one saved resource is twelve cells |
| CurationService.FreshKeeps | services/curation_service.py:417-418 | a resource is saved exactly when the sheet holds no record or its url is not stored yet |
| CurationService.SaveRowsStep | services/curation_service.py:417-435 | saving one more resource adds exactly its row at the end |
| CurationService.SaveLoop | services/curation_service.py:412-437 | the save loop appends one row per fresh resource in order, and nothing else |
| CurationService.SaveResourcesAsWritten | services/curation_service.py:412-437 | as written, every row saved in one call carries the same id, `len(existing) + 1` |
| CurationService.SharedIdAsWritten | services/curation_service.py:419 | as written, any two resources saved in one call share their id |
| CurationService.SaveResources | services/curation_service.py:412-437 | as intended, the saved rows are numbered on from the stored records |
| CurationService.NumberedIdsDistinct | services/curation_service.py:419 | the corrected rows carry the ids `first`, `first + 1`, ... in order, so no two share one |

## Left out

- Spreadsheet access, authentication and the `init_sheets` retry loop. The spreadsheet is a `Worksheet` whose rows are lists of strings.
- Streamlit rendering, session state, `st.rerun` and the image upload. The queue tabs sit after `st.rerun()` in the Cancel branch (`app.py:685`), so they are unreachable as written. Their transitions are modelled as actions a user could trigger.
- The browser automation. It is the `Publisher` parameter, with the replies the publisher is known to give.
- The Telegram notification after a tick. It is a fire-and-forget call whose failures are swallowed, so it is left out.
- The language model, JSON decoding, the search methods, HTTP downloads, the `%PDF-` check and md5. Each is a function parameter or an argument.
- APScheduler internals: the background thread, the Asia/Kolkata time zone and `replace_existing`. Next fire times are computed as for a daily cron trigger on a clock without offsets.
- Concurrency: a manual post-now racing with the scheduled tick can lose an update. The model is sequential.
- Partial failures of the rewrite after `clear()`. Each `append_row` is assumed to succeed.
- Date parsing. `pd.to_datetime` is replaced by this model's own decimal-seconds format, and of the texts pandas reads as a missing time only the empty cell and "NaT" are recognised. An unparsable date aborts the tick.
- Float relevance scores. Scores are integers, the fallback 7.0 is 7, and the saved cell is the integer's text rather than `str(7.0)`.
- Letter case, `isalnum` and `lower` are ASCII-only. Unicode case mapping and Unicode digits are not modelled. White space (`strip`, `\s`) is the full set `str.isspace` accepts.
- gspread reading numeric cells back as numbers. Cells are read back as the strings written.
- JSON elements that are strings or lists, and `day` values that are not integers, in `generate_post_series`. An element is an object with optional fields or a scalar that makes the key check raise.
- Progress callbacks, `print` and `time.sleep` in curation.
- The in-place mutation of resource dictionaries. Each pass returns new values, so aliasing between passes is not captured.
- The search methods are all evaluated before the per-topic loop starts. That eager evaluation is not captured: the `others` parameter gives each topic's results.
- `created_at` is one instant per save call rather than a fresh clock reading per row.
- The resources sheet's eight-column header differs from the twelve cells written per row. Stored urls are read from the third cell of each row. A sheet whose header has no `url` column makes the source's save fail; the model does not capture that.
- Scheduler.PlanTick: a posts sheet is readable only when its first line is the ten-column header in order, every row has exactly ten cells and every id cell is a decimal number. On a sheet edited by hand so that one of these fails, the model's tick does nothing, while the source reads the sheet by column name through `get_all_records` and would still publish its earliest due pending row. Every sheet the dashboard and the scheduler write themselves reads back, so only hand-edited sheets are affected.
- QueueActions.PostNow: requires a readable posts sheet in the sense above, so "Post Now" on a hand-edited sheet that is not readable is not modelled.
- QueueActions.DeletePost: requires a readable posts sheet in the sense above, so "Delete" on a hand-edited sheet that is not readable is not modelled.
- Scheduler.SchedulerService.NextRunTime: the job's own `next_run_time`, which APScheduler leaves unset before `start`, is replaced by the next daily fire time.

## Findings

| source | as written | input that shows it | evidently intended | confidence | as-written member | corrected member |
|---|---|---|---|---|---|---|
| app.py:434, app.py:474 | `append_to_sheet(posts_sheet, new_post.iloc)` hands over the `.iloc` indexer. It has no `values`, so the `AttributeError` is caught inside `append_to_sheet` and no row is appended. | Any manual "Add to Queue" or "Post Instantly" on a readable sheet: the sheet is unchanged afterwards. | Append the row's cells, so that the new post is stored with the next id. | not executed | QueueActions.AddToQueueAsWritten, QueueActions.InstantPostAsWritten, QueueActions.IndexerLosesRow | QueueActions.AddToQueue, QueueActions.InstantPost |
| services/curation_service.py:419 | `r['id'] = len(existing) + 1` uses the `existing` frame read once before the loop. | Two new resources saved in one call to a sheet holding three records: both rows get id 4. | Number the rows saved in one call consecutively, from the stored count plus one. | not executed | CurationService.SaveResourcesAsWritten, CurationService.SharedIdAsWritten, CurationService.CurateResourcesFromTopics | CurationService.SaveResources, CurationService.NumberedIdsDistinct, CurationService.CurateResourcesFromTopicsIntended |
