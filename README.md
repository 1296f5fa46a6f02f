# Meeting assistant core, modelled in Dafny

This project models the deterministic core of a meeting-assistant system. The system records online meetings and summarises them with a language model. It answers questions over the transcripts by retrieval, files the action items, blockers and deadlines in Jira, and mails a daily reminder. Every external effect is a parameter of the model: the language model, the embedder, Jira's REST API, SMTP, the clock and the SQL/pgvector queries. What remains is modelled and proved:

- `Wrappers` (wrappers.dfy): `Option` and `Result`.
- `Text` (text.dfy): Python's `lower`, `strip`, `split`, `" ".join`, slicing and `str(int)`, on `seq<char>`.
- `Meetings` (meetings.dfy): the records shared by the services (meetings, transcript segments, insights documents, action items, embedding rows) and Python truthiness and f-string printing of optional strings.
- `ChunkStore` (chunk_store.dfy): the chunk fingerprint's preimage, the AND-combined retrieval filter, the row-to-chunk loop of `fetch_chunks`, and `get_meeting_insights_context` (libs/shared-models/shared_models/rag.py).
- `RagAnswer` (rag_answer.dfy): the two prompt builders and the decision sequence of the `rag_query` handler (services/meeting-insights-worker/rag_api.py).
- `InsightsWorker` (insights_worker.dfy): the insights worker's `summary_state` machine over a meetings table held in the class `InsightsStore`. It also covers batching for the embedder, the numbered transcript payload, the delete-then-insert `persist_insights`, `process_meeting` and the bounded `process_batch` (services/meeting-insights-worker/main.py).
- `TeamRoster` (team_roster.dfy): the team-roster line parser and its module-level cache, the class `RosterCache` (services/jira-sync-worker/team_mapper.py).
- `JiraClient` (jira_client.dfy): the Jira sync worker's client, the class `Client`. It covers the retry loop with exponential backoff, the user-lookup cache, field assembly and dry run in `create_issue`, and `create_issues_bulk` (services/jira-sync-worker/jira_client.py).
- `JiraSync` (jira_sync.dfy): the sync worker's configuration check, priority and task-type mapping and description format. It also covers the `jira_sync_state` machine over the class `SyncStore`, the three `sync_*` loops, `sync_meeting_to_jira`, `process_batch` and `sync_meeting_by_id` (services/jira-sync-worker/main.py, config.py).
- `JiraIntegration` (jira_integration.dfy): the Jira integration service's `parse_priority`, the normalisation steps of its `create_issue` and `get_issue_url` (services/jira-integration/main.py).
- `JiraTasks` (jira_tasks.dfy): the error and success bookkeeping of `create_jira_tasks_from_llm_response`, over the class `TasksResult` (services/jira-integration/main.py).
- `EmailTemplates` (email_templates.dfy): the reminder e-mail in HTML and in plain text (services/email-notifier/templates.py).
- `MeetId` (meet_id.dfy): `parse_google_meet_id` (services/meeting-insights-ui/pages/bot_launcher.py).

Methods that grow a string, a list or a table in a loop are proved against a specification function. The properties the services promise are then proved about that function.

## Model

| member | source | states |
|---|---|---|
| ChunkStore.PreimageDetermines | libs/shared-models/shared_models/rag.py:39 | the hashed string `meeting_id:chunk_type:text` determines all three parts when the chunk type has no ':' |
| ChunkStore.Utf8 | libs/shared-models/shared_models/rag.py:40 | UTF-8 encoding takes one to four bytes per character |
| ChunkStore.HexDigest | libs/shared-models/shared_models/rag.py:40 | `hexdigest()` is two lower-case hex characters per digest byte |
| ChunkStore.HexDigestInjective | libs/shared-models/shared_models/rag.py:40 | equal hex digests come from equal digests |
| ChunkStore.ComputeChunkHash | libs/shared-models/shared_models/rag.py:37-40 | the fingerprint is 64 lower-case hex characters |
| ChunkStore.ChunkHashAgreement | libs/shared-models/shared_models/rag.py:37-40 | two fingerprints agree exactly when SHA-256 agrees on the two UTF-8 encoded preimages |
| ChunkStore.Conditions | libs/shared-models/shared_models/rag.py:70-114 | no filters (or `filters=None`) give no conditions, so no WHERE clause |
| ChunkStore.ConditionsMatch | libs/shared-models/shared_models/rag.py:81-117 | the WHERE clause holds of a row exactly when the row satisfies every supplied filter key (SQL NULL never compares true) |
| ChunkStore.Candidates | libs/shared-models/shared_models/rag.py:116-117 | every row the WHERE clause lets through satisfies all conditions |
| ChunkStore.Converted | libs/shared-models/shared_models/rag.py:126-155 | the conversion yields at most one chunk per result row, each built from some row |
| ChunkStore.FetchChunks | libs/shared-models/shared_models/rag.py:126-155 | the row loop computes the conversion; with no more rows than the limit each row becomes exactly one chunk, in order |
| ChunkStore.ConvertedWithinLimit | libs/shared-models/shared_models/rag.py:133-135 | when the rows do not exceed `limit` the meeting-dedup guard never skips a row |
| ChunkStore.ConvertedSorted | libs/shared-models/shared_models/rag.py:120-155 | rows ordered by similarity descending give chunks ordered by similarity descending |
| ChunkStore.FetchedChunksMatch | libs/shared-models/shared_models/rag.py:43-155 | for any database answer to the filtered, ordered, limited query: at most `limit` chunks, one per row in order, each from a row matching every filter, best first, and none when nothing matches |
| ChunkStore.MeetingInsightsContext | libs/shared-models/shared_models/rag.py:158-185 | a context exists exactly when the meeting exists and its `insights_ru` is a dict; the four keys are read with their defaults (`{}` for overview, `[]` for the lists) |
| RagAnswer.RecentMessages | services/meeting-insights-worker/rag_api.py:118 | `history[-RAG_MAX_HISTORY:]` is a suffix of the history: the last n messages for n > 0, all of them for n = 0, all but the first -n for n < 0 |
| RagAnswer.RoleLabel | services/meeting-insights-worker/rag_api.py:121 | the label is "Пользователь" exactly for role "user", "Ассистент" for every other role |
| RagAnswer.HistoryLines | services/meeting-insights-worker/rag_api.py:119-122 | one "label: content" line per message, in order |
| RagAnswer.BuildHistorySummary | services/meeting-insights-worker/rag_api.py:115-123 | the history loop yields the empty text without history, otherwise the recent lines joined with newlines |
| RagAnswer.GlobalContextItems | services/meeting-insights-worker/rag_api.py:102-113 | one context item per chunk, in order, with native id or "Meeting #id", "unknown" platform, "Unknown" speaker and "n/a" timestamp as the defaults |
| RagAnswer.GlobalItems | services/meeting-insights-worker/rag_api.py:103-113 | the context list has exactly one item per chunk |
| RagAnswer.SameMeeting | services/meeting-insights-worker/rag_api.py:167-171 | a chunk is kept exactly when it belongs to the requested meeting |
| RagAnswer.SameMeetingConcat | services/meeting-insights-worker/rag_api.py:167-171 | the meeting check works chunk by chunk: filtering a concatenation is concatenating the filtered parts |
| RagAnswer.ForeignChunkDropped | services/meeting-insights-worker/rag_api.py:168-171 | a chunk of another meeting anywhere in the retrieved list changes nothing in the single-meeting context |
| RagAnswer.MeetingItems | services/meeting-insights-worker/rag_api.py:172-178 | one speaker/timestamp/text item per kept chunk, in order |
| RagAnswer.MeetingContextItems | services/meeting-insights-worker/rag_api.py:165-178 | the single-meeting context loop keeps only the meeting's own chunks, in order, never more items than chunks |
| RagAnswer.BuildGlobalRagPrompt | services/meeting-insights-worker/rag_api.py:84-140 | a system message then a user message whose context holds one item per chunk |
| RagAnswer.BuildMeetingRagPrompt | services/meeting-insights-worker/rag_api.py:143-211 | a system message naming the meeting then a user message with only that meeting's chunks, and an insights section exactly when insights are given |
| RagAnswer.RequestFilters | services/meeting-insights-worker/rag_api.py:270-273 | in meeting mode the filters carry the request's meeting id; otherwise they are the request's filters or none |
| RagAnswer.ChunkResponses | services/meeting-insights-worker/rag_api.py:363-379 | one response entry per chunk, in order |
| RagAnswer.RagQuery | services/meeting-insights-worker/rag_api.py:240-394 | a 400 with the source's messages exactly for an invalid mode or a missing/zero meeting id, before any call; embedding failure gives a 500; retrieval uses the effective filters and limit; no chunks gives the fixed no-data answer; an unknown meeting gives 404; otherwise the language model gets the prompt and its empty or failed reply gives a 500, a non-empty one the answer with one chunk response per chunk |
| RagAnswer.AnswerRetrieved | services/meeting-insights-worker/rag_api.py:294-387 | in meeting mode an unknown meeting gives 404 "Meeting <id> not found" after one lookup and no model call; otherwise the model gets the meeting or global prompt, a failed or empty reply gives a 500 with the source's message, a non-empty one the answer with one chunk response per retrieved chunk; no other status is produced |
| InsightsWorker.StrippedNonEmpty | services/meeting-insights-worker/main.py:40-44 | an entry is kept exactly when it is the non-empty stripped form of some part |
| InsightsWorker.TargetStatuses | services/meeting-insights-worker/main.py:40-44 | the statuses are exactly the non-empty stripped comma-separated parts of the setting, none containing a comma |
| InsightsWorker.SingleTargetStatus | services/meeting-insights-worker/main.py:40-44 | a single status without commas or blanks, like the default "completed", yields exactly itself |
| InsightsWorker.ChunkList | services/meeting-insights-worker/main.py:51-52 | every batch is non-empty and at most the batch size, and all but the last are full |
| InsightsWorker.ChunkListFlatten | services/meeting-insights-worker/main.py:51-52 | the batches concatenate back to the items |
| InsightsWorker.ChunkListCount | services/meeting-insights-worker/main.py:51-52 | there are ceil(n / size) batches |
| InsightsWorker.EmbedAllFails | services/meeting-insights-worker/main.py:240-245 | embedding fails exactly when one batch call fails |
| InsightsWorker.EmbedAllOneToOne | services/meeting-insights-worker/main.py:240-245 | with one vector per input text, success returns one vector per text |
| InsightsWorker.EmbedAllStopsAtFailure | services/meeting-insights-worker/main.py:242-244 | once a batch fails no later batch changes the outcome |
| InsightsWorker.GenerateEmbeddings | services/meeting-insights-worker/main.py:240-245 | the loop over batches of 50 computes the batched embedding, one vector per text when the embedder answers one per input |
| InsightsWorker.SliceEnd | services/meeting-insights-worker/main.py:77 | `segments[:SEGMENT_LIMIT]` keeps min(n, limit) items for a non-negative limit, never more than n |
| InsightsWorker.PayloadLines | services/meeting-insights-worker/main.py:77-87 | one payload line per segment |
| InsightsWorker.PayloadLinesShape | services/meeting-insights-worker/main.py:77-87 | line i is numbered i+1 and carries segment i's window, its speaker or "Unknown", its stripped text, and "n/a" exactly when the meeting has no start |
| InsightsWorker.BuildTranscriptPayload | services/meeting-insights-worker/main.py:74-88 | the first SEGMENT_LIMIT segments become lines numbered from 1, each of the described shape |
| InsightsWorker.PayloadLineOfShape | services/meeting-insights-worker/main.py:78-87 | a single line has the described shape |
| InsightsWorker.TeamContext | services/meeting-insights-worker/main.py:91-100 | the roster context is the stripped file when the path is set, the file exists and it is not blank; None otherwise |
| InsightsWorker.AbsoluteAt | services/meeting-insights-worker/main.py:287-296 | an absolute highlight time exists exactly when the meeting start and the offset are both known |
| InsightsWorker.SpeakerRows | services/meeting-insights-worker/main.py:284-308 | one highlight row per highlight of a speaker |
| InsightsWorker.DigestRowsShape | services/meeting-insights-worker/main.py:282-308 | one row per highlight over all digests, all for this meeting, absolute times exactly when start and offset are known |
| InsightsWorker.DigestRowsFillNotNull | services/meeting-insights-worker/main.py:282-308 | the inserted highlight rows all fill start_time, end_time and text exactly when every highlight of the reply has a start, an end and a text |
| InsightsWorker.SpeakerRowsFillNotNull | services/meeting-insights-worker/main.py:283-308 | the same for one speaker's highlights |
| InsightsWorker.SpeakerRowsShape | services/meeting-insights-worker/main.py:283-308 | each row of a speaker carries the meeting id and that speaker's name |
| InsightsWorker.ParseDue | services/meeting-insights-worker/main.py:248-255 | a missing or empty due date gives None; otherwise the ISO parser's answer, None when it rejects the text |
| InsightsWorker.ItemRows | services/meeting-insights-worker/main.py:330-338 | one action item row per action_items entry |
| InsightsWorker.ItemRowsShape | services/meeting-insights-worker/main.py:310-338 | row i has the next consecutive id, this meeting, the entry's description (default "") and owner, and the parsed due date |
| InsightsWorker.EpicRows | services/meeting-insights-worker/main.py:343-352 | one action item row per subtask of an entry |
| InsightsWorker.EpicRowsShape | services/meeting-insights-worker/main.py:340-352 | a subtask row has status "новая", the parent's priority, the bracketed description and the dependencies as reference |
| InsightsWorker.BreakdownRowsShape | services/meeting-insights-worker/main.py:340-352 | one row per subtask over all task_breakdown entries, numbered consecutively, status "новая", priority of some entry |
| InsightsWorker.ActionItemRowsShape | services/meeting-insights-worker/main.py:330-352 | persist_insights adds one action item per entry plus one per subtask, numbered consecutively, all for this meeting |
| InsightsWorker.SegmentEmbeddingRows | services/meeting-insights-worker/main.py:354-370 | the first k (segment, vector) pairs give k rows |
| InsightsWorker.SegmentEmbeddingRowsShape | services/meeting-insights-worker/main.py:354-370 | row i pairs segment i with vector i, chunk type "transcript", no platform, language or meeting date |
| InsightsWorker.WorkerRowsInvisibleToFilters | services/meeting-insights-worker/main.py:360-370 | rows written by the worker never match a retrieval filtered on platform, language or meeting date |
| InsightsWorker.RowsOfOthers | services/meeting-insights-worker/main.py:265-267 | each of the three deletes keeps exactly the rows of other meetings, and no more rows than before |
| InsightsWorker.CollectHighlightRows | services/meeting-insights-worker/main.py:282-308 | the nested loop computes the digest rows |
| InsightsWorker.CollectItemRows | services/meeting-insights-worker/main.py:330-338 | the action item loop computes the item rows |
| InsightsWorker.CollectBreakdownRows | services/meeting-insights-worker/main.py:340-352 | the nested task_breakdown loop computes the subtask rows |
| InsightsWorker.CollectEpicRows | services/meeting-insights-worker/main.py:343-352 | the inner subtask loop computes one entry's rows |
| InsightsWorker.CollectEmbeddingRows | services/meeting-insights-worker/main.py:354-370 | `zip` stops at the shorter list: min(segments, vectors) rows |
| InsightsWorker.MeetingSegments | services/meeting-insights-worker/main.py:374-377 | the `meeting_id` filter keeps each of the meeting's rows as often as the table holds it, and no other row |
| InsightsWorker.SortByStart | services/meeting-insights-worker/main.py:378 | `order_by(start_time.asc())`: ascending start times, a permutation of its input |
| InsightsWorker.SegmentsOf | services/meeting-insights-worker/main.py:373-382 | the meeting's transcript is its own segments, each as often as stored, in ascending start time |
| InsightsWorker.Texts | services/meeting-insights-worker/main.py:396 | one text per segment, in order |
| InsightsWorker.MetadataOf | services/meeting-insights-worker/main.py:269-277 | blockers and deadlines default to [], an absent overview leaves goal, summary and sentiment empty, and the row records the model and the time |
| InsightsWorker.ProcessMeetingNoData | services/meeting-insights-worker/main.py:384-389 | a meeting ends "no_data" exactly when it has no segments, then with no external call and only the meeting row changed; otherwise the summary model is called first |
| InsightsWorker.ProcessMeetingCompletes | services/meeting-insights-worker/main.py:373-409 | a run completes exactly when there are segments, the model returns a JSON object whose highlights all have start, end and text, and every embedding batch succeeds |
| InsightsWorker.ProcessMeetingCommitFails | services/meeting-insights-worker/main.py:394-408 | with segments, a JSON object with an incomplete highlight and successful embeddings, the final commit fails exactly then; the rollback leaves the tables as the claim left them, the deletes undone |
| InsightsWorker.ProcessMeetingCompletedState | services/meeting-insights-worker/main.py:399-408 | after completion the meeting holds the reply under insights_ru, state "completed", and its roster snapshot changes only when there is roster text |
| InsightsWorker.CompletedAsWrittenKeepsOldData | services/meeting-insights-worker/main.py:401-408 | as coded, a meeting whose data was not empty keeps its old data, without the new document, while its state says "completed" |
| InsightsWorker.ProcessMeetingRaised | services/meeting-insights-worker/main.py:391-399 | a raising run changes no meeting; only a non-object reply gets as far as the deletes |
| InsightsWorker.FinishedKeepsOthers | services/meeting-insights-worker/main.py:258-370 | persisting keeps every row of other meetings and adds none for them |
| InsightsWorker.ProcessMeetingOthersUntouched | services/meeting-insights-worker/main.py:373-409 | other meetings and their rows are untouched by processing a meeting |
| InsightsWorker.ProcessMeetingStep | services/meeting-insights-worker/main.py:373-409 | only the processed meeting changes, to "no_data" or "completed", and not at all when the run raises or its commit fails |
| InsightsWorker.ActionItemsOfOthersIncreasing | services/meeting-insights-worker/main.py:266 | deleting one meeting's action items keeps ids increasing |
| InsightsWorker.ProcessMeetingKeepsValid | services/meeting-insights-worker/main.py:373-409 | processing keeps meetings keyed by id and action item ids increasing |
| InsightsWorker.PersistedKeepsValid | services/meeting-insights-worker/main.py:258-370 | the deletes and the inserts keep the tables consistent |
| InsightsWorker.OldestClaimableExists | services/meeting-insights-worker/main.py:55-71 | whenever a meeting is claimable an oldest one exists |
| InsightsWorker.InsightsStore.SelectNextMeeting | services/meeting-insights-worker/main.py:55-71 | claims an oldest meeting with a target status and state pending or error (NULL never matches), marking it "processing"; none exactly when none qualifies; nothing else changes |
| InsightsWorker.InsightsStore.PersistInsights | services/meeting-insights-worker/main.py:258-370 | succeeds exactly for a JSON-object reply, with the meeting's rows replaced; otherwise only the deletes took effect |
| InsightsWorker.InsightsStore.DeleteMeetingRows | services/meeting-insights-worker/main.py:265-267 | the tables become the deleted state, which keeps exactly the other meetings' highlights, action items and embeddings |
| InsightsWorker.InsightsStore.InsertRows | services/meeting-insights-worker/main.py:269-370 | the tables become the inserted state: the meeting's metadata, highlights, action items and embeddings added after the deletes |
| InsightsWorker.InsightsStore.InsertActionItems | services/meeting-insights-worker/main.py:330-352 | only the action item table and its serial change: the items' rows then the subtasks' rows are appended, numbered from the old serial, which advances by their count |
| InsightsWorker.InsightsStore.InsertEmbeddings | services/meeting-insights-worker/main.py:354-370 | only the embeddings table and its serial change: one row per (segment, vector) pair up to the shorter list, numbered from the old serial |
| InsightsWorker.InsightsStore.ProcessMeeting | services/meeting-insights-worker/main.py:373-409 | the tables, outcome and calls are those of the process_meeting relation; only the processed meeting changes, and nothing at all when the commit fails |
| InsightsWorker.InsightsStore.SummarizeAndPersist | services/meeting-insights-worker/main.py:394-408 | once the prompt is built: a failed summary raises with only the summary call made; a failed embedding raises with both calls made; a non-object reply raises after the deletes; a reply with an incomplete highlight is rolled back at the commit; otherwise the rows are persisted and the meeting completed; the tables stay consistent |
| InsightsWorker.InsightsStore.Commit | services/meeting-insights-worker/main.py:408 | the commit succeeds exactly when every pending highlight row fills the NOT NULL columns; a refused commit restores the tables of the previous commit |
| InsightsWorker.InsightsStore.ProcessBatch | services/meeting-insights-worker/main.py:412-426 | at most BATCH_SIZE claims; processed_any is true exactly when some run returned; a failed commit ends the batch with an exception, only as its last run, leaving that meeting "processing"; otherwise stopping early means nothing is claimable; unclaimed meetings are unchanged and the other claimed ones end completed, no_data or error |
| InsightsWorker.InsightsStore.ProcessClaimed | services/meeting-insights-worker/main.py:419-425 | only the claimed meeting changes; a raised run leaves exactly the mark "error" on it; a failed commit changes nothing, since the handler's own commit raises; otherwise it ends completed, no_data or error |
| TeamRoster.TagIndex | services/jira-sync-worker/team_mapper.py:47 | the leftmost index at or after the start where `jira_account_id:` is followed by a non-space character, or the end |
| TeamRoster.FindAccountId | services/jira-sync-worker/team_mapper.py:47-49 | the account is a non-empty run without whitespace, and there is none exactly when no tag is followed by a non-space character |
| TeamRoster.ParseRosterLine | services/jira-sync-worker/team_mapper.py:30-41 | blank lines, `#` lines and lines whose name part starts with the em dash give no entry |
| TeamRoster.ParsedEntryShape | services/jira-sync-worker/team_mapper.py:37-49 | an entry's name is non-empty, starts with a non-space and holds neither the em dash nor `\|`; a line without `\|` has no account; an account is a non-empty run without whitespace |
| TeamRoster.NameChars | services/jira-sync-worker/team_mapper.py:38-41 | the name cut before the first em dash holds neither the em dash nor `\|` |
| TeamRoster.RosterLineRoundTrip | services/jira-sync-worker/team_mapper.py:10-11 | a well-formed line `name — role \| jira_account_id:id` parses back into its name and account |
| TeamRoster.HeadName | services/jira-sync-worker/team_mapper.py:38-41 | the name part of a well-formed line yields the name |
| TeamRoster.TailAccount | services/jira-sync-worker/team_mapper.py:45-49 | the second part of a well-formed line yields the account |
| TeamRoster.SplitAt | services/jira-sync-worker/team_mapper.py:37 | splitting `head\|tail` on `\|` gives the two parts |
| TeamRoster.Entries | services/jira-sync-worker/team_mapper.py:30-51 | each line contributes its parsed entry, in order |
| TeamRoster.CollectKeys | services/jira-sync-worker/team_mapper.py:51 | a name is in the mapping exactly when some line names it |
| TeamRoster.LaterEntryWins | services/jira-sync-worker/team_mapper.py:51 | a name maps to the account of the last line naming it |
| TeamRoster.Loaded | services/jira-sync-worker/team_mapper.py:22-64 | a non-empty cache is returned as is; an unreadable file with an empty cache gives {} |
| TeamRoster.LoadedStable | services/jira-sync-worker/team_mapper.py:22-58 | loading again changes nothing |
| TeamRoster.AccountOf | services/jira-sync-worker/team_mapper.py:70 | an absent name gives None, a present one its (possibly None) account |
| TeamRoster.RosterCache.Load | services/jira-sync-worker/team_mapper.py:16-64 | the file is read exactly when the cache is empty, and the cache then holds the loaded mapping |
| TeamRoster.RosterCache.GetJiraAccountId | services/jira-sync-worker/team_mapper.py:67-70 | the account of the name in the loaded mapping |
| JiraClient.Settled | services/jira-sync-worker/jira_client.py:39-48 | a returned value or any exception but a status-less JIRAError is passed on unchanged; the loop's own "Failed after retries" never comes from an attempt |
| JiraClient.RetryWithBackoff | services/jira-sync-worker/jira_client.py:35-49 | at most JIRA_RETRY_MAX_ATTEMPTS calls; every attempt before the last one made was a server error (status 500 or more), the last made is not retryable unless it was the final allowed one; the wait after attempt k is base^k; "Failed after retries" exactly when the maximum is not positive |
| JiraClient.UserLookup | services/jira-sync-worker/jira_client.py:59-78 | dry run gives None without searching; an account exactly when the search returns users; only an exception other than JIRAError propagates |
| JiraClient.FieldsOf | services/jira-sync-worker/jira_client.py:94-111 | project, summary, description and type are always set; assignee, due date, priority and labels exactly when given and truthy |
| JiraClient.DryRunKeysDistinct | services/jira-sync-worker/jira_client.py:134-137 | the dry-run bulk entries DRY-RUN-1..n carry distinct keys |
| JiraClient.CreateReply | services/jira-sync-worker/jira_client.py:117-125 | only a non-JIRAError exception propagates; a non-positive attempt limit gives None |
| JiraClient.BulkReply | services/jira-sync-worker/jira_client.py:139-151 | only a non-JIRAError exception propagates; a JIRAError gives one error entry per issue |
| JiraClient.Client.FindUserByName | services/jira-sync-worker/jira_client.py:51-78 | a cached name is answered without a search; otherwise the lookup's answer, cached unless it raised; a cache that agrees with the search keeps agreeing |
| JiraClient.Client.CreateIssue | services/jira-sync-worker/jira_client.py:80-125 | in dry run DRY-RUN-1 without a call; otherwise the assembled fields are sent through the retry loop and a JIRAError gives None |
| JiraClient.Client.CreateIssuesBulk | services/jira-sync-worker/jira_client.py:127-151 | one result per issue: DRY-RUN-i entries in dry run, the reply or per-issue errors otherwise |
| JiraSync.Required | services/jira-sync-worker/config.py:64-73 | four settings are checked, in the order base URL, user email, API token, project key |
| JiraSync.ValidateConfig | services/jira-sync-worker/config.py:64-74 | valid exactly when base URL, user email, API token and project key are all non-empty, and an error message exactly when invalid |
| JiraSync.ValidateConfigFirstMissing | services/jira-sync-worker/config.py:66-73 | with several settings missing the message names the first in the order base URL, email, token, project key |
| JiraSync.PriorityMapping | services/jira-sync-worker/config.py:27-31 | the mapping has exactly the keys "высокий", "средний", "низкий", to the configured high, medium and low names |
| JiraSync.DryRunSetting | services/jira-sync-worker/config.py:36 | dry run exactly when the variable is set and lower-cases to "true"; unset means off |
| JiraSync.DryRunCaseInsensitive | services/jira-sync-worker/config.py:36 | the dry-run switch ignores letter case |
| JiraSync.MapPriority | services/jira-sync-worker/main.py:64-69 | a priority exactly for a non-empty value whose lower-cased form is a mapping key, and then that key's entry |
| JiraSync.MapPriorityCaseInsensitive | services/jira-sync-worker/main.py:68-69 | priorities are matched ignoring letter case |
| JiraSync.TypeOfReply | services/jira-sync-worker/main.py:158-169 | over the stripped, lower-cased reply: "epic" gives Epic; otherwise "feature" or "story" gives Feature; otherwise "bug" gives Bug; a reply with none of the four words gives Task |
| JiraSync.TypeOfReplyCaseInsensitive | services/jira-sync-worker/main.py:158 | the reply is read ignoring letter case |
| JiraSync.ClassifyTaskType | services/jira-sync-worker/main.py:85-174 | one of the four types; Task without a classifier or when the call raises |
| JiraSync.DateText | services/jira-sync-worker/main.py:56 | the date line reads "N/A" without a start time |
| JiraSync.ContextBlock | services/jira-sync-worker/main.py:58-59 | the context block is empty exactly for a falsy context |
| JiraSync.FormatJiraDescription | services/jira-sync-worker/main.py:46-61 | the description starts with the meeting block, ends with "\n---\n\n" and the text, and holds the context block right after the meeting block when the context is truthy |
| JiraSync.DescriptionIgnoresFalsyContext | services/jira-sync-worker/main.py:58 | a falsy context is the same as none |
| JiraSync.FormatDueDate | services/jira-sync-worker/main.py:72-82 | a due text exactly for a given datetime |
| JiraSync.NewestCompletedExists | services/jira-sync-worker/main.py:185-196 | whenever a meeting is completed, a newest completed one (NULL processed_at first) exists |
| JiraSync.AssigneeOf | services/jira-sync-worker/main.py:231-237 | no assignee without an owner; the roster's account when it has one; never an exception in dry run |
| JiraSync.IssueReply | services/jira-sync-worker/main.py:258-266 | in dry run create_issue answers DRY-RUN-1 |
| JiraSync.DeadlineDue | services/jira-sync-worker/main.py:355-366 | a missing or empty date gives no due date |
| JiraSync.BlockerFields | services/jira-sync-worker/main.py:316-324 | a blocker issue has priority High, the blocker type, summary "Blocker: " plus the first 100 characters, the blocker and meeting labels and no due date |
| JiraSync.DeadlineFields | services/jira-sync-worker/main.py:386-395 | a deadline issue has priority High, the deadline type, summary "Deadline: " plus the name, and the deadline and meeting labels |
| JiraSync.Recorded | services/jira-sync-worker/main.py:268-276 | an issue is recorded exactly when create_issue returned one, and of the item's kind |
| JiraSync.Step | services/jira-sync-worker/main.py:229-276 | a recorded issue has the item's kind; in dry run every item records one |
| JiraSync.Gather | services/jira-sync-worker/main.py:227-281 | a loop records at most one issue per item |
| JiraSync.GatherRaisedPrefix | services/jira-sync-worker/main.py:229-281 | once an item raises, the whole loop raises the same exception |
| JiraSync.GatherOneKind | services/jira-sync-worker/main.py:220-408 | each loop records only issues of its own kind |
| JiraSync.GatherDryRun | services/jira-sync-worker/main.py:220-408 | in dry run every item records an issue |
| JiraSync.ActionTasks | services/jira-sync-worker/main.py:229 | one task per action item |
| JiraSync.BlockerTasks | services/jira-sync-worker/main.py:292 | one task per blocker |
| JiraSync.DeadlineTasks | services/jira-sync-worker/main.py:348 | one task per deadline |
| JiraSync.SyncResultGrouped | services/jira-sync-worker/main.py:421-447 | a completed sync records action items, then blockers, then deadlines; a non-dict insights value always fails |
| JiraSync.NonDictSyncFails | services/jira-sync-worker/main.py:427-433 | insights that are not a dict always fail the sync; without action items the error is `'<type>' object has no attribute 'get'`, as `str(e)` gives it |
| JiraSync.SyncResultDryRun | services/jira-sync-worker/main.py:421-447 | in dry run every action item, blocker and deadline gets an issue |
| JiraSync.SyncMeetingStates | services/jira-sync-worker/main.py:411-462 | without insights False and no change; a client that cannot be built raises with no change; otherwise True exactly with state "success" (issues grouped) and False exactly with "failed" and an error; nothing but the sync keys changes |
| JiraSync.SyncAsWrittenStaysSelectable | services/jira-sync-worker/main.py:213-214 | as coded, neither the "processing" mark nor the "success" state and issue list reach the row, and the meeting stays selectable |
| JiraSync.SyncedNotSelectable | services/jira-sync-worker/main.py:445-448 | with the write stored, a synced meeting records its issues and is no longer selectable |
| JiraSync.RowsOf | services/jira-sync-worker/main.py:423-427 | the meeting's action items are exactly its own rows |
| JiraSync.ResolveAssignee | services/jira-sync-worker/main.py:231-237 | the roster is asked first; the Jira search runs only when the roster gives no account |
| JiraSync.SyncActionItem | services/jira-sync-worker/main.py:229-279 | one action item iteration computes the step |
| JiraSync.SyncBlocker | services/jira-sync-worker/main.py:292-335 | one blocker iteration computes the step |
| JiraSync.SyncDeadline | services/jira-sync-worker/main.py:348-406 | one deadline iteration computes the step |
| JiraSync.SyncActionItems | services/jira-sync-worker/main.py:220-281 | the loop computes the gathered action item issues |
| JiraSync.SyncBlockers | services/jira-sync-worker/main.py:284-337 | the loop computes the gathered blocker issues |
| JiraSync.SyncDeadlines | services/jira-sync-worker/main.py:340-408 | the loop computes the gathered deadline issues |
| JiraSync.SyncDoc | services/jira-sync-worker/main.py:432-442 | blockers, then critical deadlines |
| JiraSync.SyncInsights | services/jira-sync-worker/main.py:421-442 | the try body computes the sync result |
| JiraSync.SyncStore.SelectNextMeeting | services/jira-sync-worker/main.py:177-217 | only the newest completed meeting is examined; it is marked "processing" when it has insights and is not synced; otherwise nothing changes |
| JiraSync.SyncStore.SyncMeetingToJira | services/jira-sync-worker/main.py:411-462 | only this meeting changes, as the sync relation says |
| JiraSync.SyncStore.SyncPicked | services/jira-sync-worker/main.py:473-483 | returns exactly when the client can be built; the meeting ends success, failed or reset to None, with its insights and summary state kept |
| JiraSync.SyncStore.ProcessBatch | services/jira-sync-worker/main.py:465-484 | at most BATCH_SIZE picks; true exactly when some sync returned; unpicked meetings unchanged; picked ones end success, failed or None; stopping early means no selectable newest meeting |
| JiraSync.SyncStore.SelectAndSync | services/jira-sync-worker/main.py:470-483 | no pick leaves the meetings unchanged and means no selectable newest completed meeting; a pick is the newest completed meeting, the only one that changes, and it ends synced or reset with its insights kept; it returned exactly when the client can be built |
| JiraSync.SyncStore.SyncMeetingById | services/jira-sync-worker/main.py:487-501 | False for an unknown meeting, True without syncing when already "success", otherwise the sync's answer |
| JiraIntegration.ParsePriority | services/jira-integration/main.py:380-391 | None exactly for a missing or empty priority; high/высокий, medium/средний and low/низкий (any case) become the Russian word; anything else is kept |
| JiraIntegration.ParsePriorityIdempotent | services/jira-integration/main.py:380-391 | normalising a normalised priority changes nothing |
| JiraIntegration.JiraPriority | services/jira-integration/main.py:223-231 | the Jira priority is High, Medium or Low; "Medium" for a missing, empty or unknown priority |
| JiraIntegration.JiraPriorityCaseInsensitive | services/jira-integration/main.py:231 | letter case never changes the Jira priority |
| JiraIntegration.ParsePriorityKeepsJiraPriority | services/jira-integration/main.py:223-231 | normalising first, as the creation loops do, gives the same Jira priority |
| JiraIntegration.CleanSummary | services/jira-integration/main.py:233-239 | the summary is the whitespace-collapsed text when at most 255 characters, otherwise its first 252 characters and "..."; never over 255 |
| JiraIntegration.CleanSummaryCollapsed | services/jira-integration/main.py:234 | a cleaned summary holds no newline, tab or double space and neither begins nor ends with a space |
| JiraIntegration.DescriptionText | services/jira-integration/main.py:241-243 | an empty or whitespace-only description becomes "No description provided.", any other is kept |
| JiraIntegration.AssigneeOf | services/jira-integration/main.py:297-307 | no assignee exactly without a truthy value; an accountId exactly when it starts with "557058:" or is longer than 20 characters; else an emailAddress exactly when it holds '@'; else a name |
| JiraIntegration.DueDateOf | services/jira-integration/main.py:309-316 | a due date exactly when one is given: the prefix before its first 'T', the whole text when it has none |
| JiraIntegration.DueDateIdempotent | services/jira-integration/main.py:312-314 | cutting a cut date changes nothing |
| JiraIntegration.ParentOf | services/jira-integration/main.py:318-346 | a sub-task gets `parent`; an epic never gets a link; any other type with a parent key is always linked |
| JiraIntegration.MatchIssueType | services/jira-integration/main.py:204-220 | the site's spelling of a type equal ignoring case, or the requested type when the site lists none |
| JiraIntegration.TrimSlashes | services/jira-integration/main.py:117 | `rstrip("/")` removes exactly the trailing slashes |
| JiraIntegration.Connect | services/jira-integration/main.py:113-117 | the client keeps the base URL without trailing slashes |
| JiraIntegration.IssueUrl | services/jira-integration/main.py:375-377 | an issue URL is the base URL followed by "/browse/" and the key |
| JiraIntegration.IssueUrlInjective | services/jira-integration/main.py:375-377 | distinct keys give distinct URLs on one site |
| JiraIntegration.EpicNameOf | services/jira-integration/main.py:272-295 | the Epic Name field is set only for an epic created with a name |
| JiraIntegration.PayloadOf | services/jira-integration/main.py:188-346 | every payload has a summary of at most 255 characters, a non-blank description and a High/Medium/Low priority; an epic never gets a parent |
| JiraIntegration.CreateIssue | services/jira-integration/main.py:188-373 | the payload is the one built field by field, and the reply is the POST's answer for it |
| JiraTasks.Either | services/jira-integration/main.py:645 | `x or y`: x when it is truthy, y otherwise |
| JiraTasks.WithContext | services/jira-integration/main.py:536-537 | the "Контекст встречи" header and a blank line come before the text exactly when a meeting summary is truthy |
| JiraTasks.EpicRequest | services/jira-integration/main.py:531-547 | an epic is requested with the project's epic type and its name as Epic Name, without a parent |
| JiraTasks.EpicTaskRequest | services/jira-integration/main.py:562-579 | a task of an epic is requested with the project's task type under the epic's key, without an Epic Name |
| JiraTasks.SubtaskRequest | services/jira-integration/main.py:595-609 | a subtask is requested with the subtask type under its task, with a non-empty description and its task's priority |
| JiraTasks.ItemRequest | services/jira-integration/main.py:645-669 | a standalone task is requested with the project's task type and no parent |
| JiraTasks.ActionRequest | services/jira-integration/main.py:725-749 | an action item becomes a task without parent whose summary has at most 255 characters |
| JiraTasks.FaultsAppend | services/jira-integration/main.py:617-636 | one more failed call or non-object element adds exactly one to the count of errors owed |
| JiraTasks.AppendTask | services/jira-integration/main.py:624 | appending a created task keeps every response's URLs those of its keys, epics after their tasks and every key one the pass created |
| JiraTasks.AppendEpic | services/jira-integration/main.py:630 | appending an epic right after its tasks keeps the same three invariants |
| JiraTasks.WithChild | services/jira-integration/main.py:614-615 | a created child's key is appended and the response keeps one URL per key, each the site's URL of its key; nothing else in the response changes |
| JiraTasks.TasksResult.constructor | services/jira-integration/main.py:524 | a new result is successful and holds no tasks, no errors and the LLM response |
| JiraTasks.TasksResult.Create | services/jira-integration/main.py:540-556 | one create_issue call is recorded, the call made for that request with the site's reply, and its reply is returned; only a failed call adds a fault, and a returned key counts as created |
| JiraTasks.TasksResult.NoteMalformed | services/jira-integration/main.py:529-636 | `.get` on an element that is not an object raises AttributeError with its message; this adds one fault and creates nothing |
| JiraTasks.TasksResult.AddError | services/jira-integration/main.py:632-634 | an error message is appended and nothing else changes |
| JiraTasks.TasksResult.RecordTask | services/jira-integration/main.py:624 | a task's response is appended to created_tasks; the calls, the errors and success are unchanged and the invariants hold |
| JiraTasks.TasksResult.RecordEpic | services/jira-integration/main.py:631 | an epic's response is appended right after the responses of its children; the calls, the errors and success are unchanged and the invariants hold |
| JiraTasks.TasksResult.AddSubtask | services/jira-integration/main.py:593-620 | exactly the subtask's own call is made; on success its key joins the parent's children and the errors are unchanged; on failure the parent is unchanged and "Failed to create subtask '<title or unknown>': <error>" is appended |
| JiraTasks.TasksResult.AddSubtasks | services/jira-integration/main.py:592-620 | the calls are those of the subtasks in order up to the first non-object element; the parent's new children are exactly the keys of the calls that succeeded and the new errors exactly those of the calls that failed; the loop raises exactly when some element is not an object |
| JiraTasks.TasksResult.TaskSubtasks | services/jira-integration/main.py:592 | the subtask loop runs only when create_subtasks is on and the task has subtasks; it raises exactly when it runs into an element that is not an object |
| JiraTasks.TasksResult.AddEpicTask | services/jira-integration/main.py:560-629 | the task's own call under the epic's key comes first, then its subtasks' calls when subtasks are on; a failed call changes neither the epic nor created_tasks and appends "Failed to create task '<summary or unknown>': <error>"; created_tasks only grows |
| JiraTasks.TasksResult.AddEpicTasks | services/jira-integration/main.py:559-630 | the calls are those of the epic's tasks in order up to the first non-object element, which raises; the responses appended since the start are exactly the epic's children, in order |
| JiraTasks.TasksResult.AddEpics | services/jira-integration/main.py:528-636 | the calls are those of the epics in order up to the first non-object element; the loop aborts exactly when some epic is not an object; one error per fault otherwise |
| JiraTasks.TasksResult.AddEpic | services/jira-integration/main.py:530-636 | the epic's own call comes first, then its tasks' calls under the returned key; a failed epic call creates nothing and appends "Failed to create epic '<name or unknown>': <error>"; one error per fault |
| JiraTasks.TasksResult.AddStandaloneTasks | services/jira-integration/main.py:639-719 | the calls are those of the object elements of task_breakdown + standalone_tasks, in order; other elements are skipped; one error per fault |
| JiraTasks.TasksResult.AddStandaloneTask | services/jira-integration/main.py:644-719 | the task's own call comes first, then its subtasks' calls; a failed call creates nothing and appends "Failed to create task '<parent_task or summary or unknown>': <error>" |
| JiraTasks.TasksResult.AddActionItems | services/jira-integration/main.py:722-763 | up to the first non-object element, each action item makes its call; the new created_tasks are exactly the responses of the calls that succeeded and the new errors exactly those of the calls that failed, in order; the loop aborts exactly when some element is not an object |
| JiraTasks.TasksResult.AddActionItem | services/jira-integration/main.py:725-763 | exactly the item's own call is made; on success one Task response with the returned key is appended and the errors are unchanged; on failure created_tasks is unchanged and "Failed to create action item '<first 50 characters of the description>': <error>" is appended |
| JiraTasks.TasksResult.RunLists | services/jira-integration/main.py:528-763 | the epic loop, then, unless it aborted, the standalone tasks and the action items; the calls are those of the whole pass and it raises exactly when an epic or an action item is not an object |
| JiraTasks.TasksResult.Process | services/jira-integration/main.py:526-771 | the calls are those of the whole pass; it aborts exactly when an epic or an action item is not an object; success is lost exactly on abort or when there are errors and nothing was created; the abort adds "Failed to process LLM response: " and the exception |
| JiraTasks.CreateJiraTasksFromLlmResponse | services/jira-integration/main.py:516-773 | the calls made are exactly those the LLM response determines; it aborts exactly when an epic or an action item is not an object; one error per failed call or non-object element; success lost exactly on abort or on errors with nothing created; every response's URLs are those of its keys; each epic follows its tasks; every recorded key was created; no subtask call when subtasks are off |
| JiraTasks.UntilScalarAppend | services/jira-integration/main.py:529-636 | the calls of a loop over a list of objects followed by more elements are those of the list and then those of the rest |
| JiraTasks.SkipScalarsAppend | services/jira-integration/main.py:642-652 | the calls of the skipping loop over two concatenated lists are those of the first and then those of the second |
| JiraTasks.EpicCalled | services/jira-integration/main.py:529-547 | every epic before the first non-object element is posted, right after the calls made for the epics before it |
| JiraTasks.EpicTaskCalled | services/jira-integration/main.py:559-579 | when the epic is created, every one of its tasks before the first non-object element is posted under the epic's key |
| JiraTasks.StandaloneTaskCalled | services/jira-integration/main.py:642-669 | when no epic aborts the pass, every standalone task that is an object is posted |
| JiraTasks.ActionItemCalled | services/jira-integration/main.py:723-749 | when no epic aborts the pass, every action item before the first non-object element is posted |
| JiraTasks.ActionItemsAccounted | services/jira-integration/main.py:723-763 | action items that are all objects each give exactly one created task or one error |
| JiraTasks.SubtasksAccounted | services/jira-integration/main.py:593-620 | subtasks that are all objects each give their task exactly one child key or one error |
| EmailTemplates.FormatDate | services/email-notifier/templates.py:5-9 | "N/A" without a date, otherwise the "%Y-%m-%d %H:%M" stamp |
| EmailTemplates.FormatDateShort | services/email-notifier/templates.py:12-16 | "N/A" without a date, otherwise the "%Y-%m-%d" day |
| EmailTemplates.DaysUntil | services/email-notifier/templates.py:19-24 | no count exactly without a date; otherwise the whole days left, rounded down, so the due time lies in that day |
| EmailTemplates.Urgency | services/email-notifier/templates.py:131-139 | "urgent" exactly for one day or less, "warning" exactly for two or three, no class otherwise or without a date |
| EmailTemplates.UrgencyByDueTime | services/email-notifier/templates.py:131-139 | a deadline is urgent exactly when due within two days of now, a warning exactly when due between two and four days |
| EmailTemplates.DueSuffixDeterminesDays | services/email-notifier/templates.py:150-157 | no two day counts share a due-date marker |
| EmailTemplates.DaysMarker | services/email-notifier/templates.py:150-157 | " (N days)" for N other than 0 and 1 is neither "Today!" nor "Tomorrow!" and gives N back |
| EmailTemplates.DueSuffixHtmlIsBoldPlain | services/email-notifier/templates.py:279-285 | the HTML marker for today and tomorrow is the plain-text one in bold; the day count reads the same in both |
| EmailTemplates.DeadlineItemNamesIt | services/email-notifier/templates.py:141-142 | a deadline's card or bullet shows its description |
| EmailTemplates.DeadlinesListed | services/email-notifier/templates.py:129-160 | every upcoming deadline's description appears in the list |
| EmailTemplates.DeadlinesSectionLists | services/email-notifier/templates.py:128-165 | the deadlines section lists every deadline's description, or says there are none |
| EmailTemplates.EntryText | services/email-notifier/templates.py:196-197 | a string entry is shown as it is, an object by its description, else in its printed form |
| EmailTemplates.EntriesListed | services/email-notifier/templates.py:196-198 | every blocker or mentioned deadline is shown |
| EmailTemplates.EntryListShows | services/email-notifier/templates.py:193-208 | a non-empty list block shows each of its entries |
| EmailTemplates.EmojiOf | services/email-notifier/templates.py:216-221 | 📊, ✅ and 🚧 exactly for the lower-cased labels обновление, решение and блокер; 💬 exactly for any other |
| EmailTemplates.EmojiOfLowered | services/email-notifier/templates.py:221 | a label and its lower-case form get the same emoji |
| EmailTemplates.HighlightItem | services/email-notifier/templates.py:215-229 | fails with AttributeError exactly for a null label; otherwise ends with HighlightTail of its text |
| EmailTemplates.HighlightTail | services/email-notifier/templates.py:226-229 | the end of a highlight is its text cut to 200 characters, followed in HTML by "..." exactly when the text is longer and then the closing tag, in plain text (line 338) by a line break |
| EmailTemplates.TopHighlights | services/email-notifier/templates.py:215 | `highlights[:5]`: a prefix of at most five, the whole list when it is short |
| EmailTemplates.HighlightItemsFail | services/email-notifier/templates.py:215-229 | the highlight loop fails exactly when one of its highlights has a null label |
| EmailTemplates.HighlightsBlockFail | services/email-notifier/templates.py:211-230 | the highlights block fails exactly when one of the first five highlights has a null label |
| EmailTemplates.HighlightsPastFifthIgnored | services/email-notifier/templates.py:215 | nothing after the fifth highlight changes the block |
| EmailTemplates.SummaryShowsBlockers | services/email-notifier/templates.py:193-199 | every blocker of the last meeting is in the summary section |
| EmailTemplates.EmailFails | services/email-notifier/templates.py:27-249 | the e-mail fails, in either format, exactly when one of the first five highlights has a null label |
| EmailTemplates.FormatsFailTogether | services/email-notifier/templates.py:252-346 | the HTML and the plain-text e-mail succeed or fail together |
| EmailTemplates.EmailGreets | services/email-notifier/templates.py:33-122 | the e-mail holds the greeting "Hello <name>!" (name or "there") as its own `<p>` paragraph in HTML, and in plain text (lines 258-264) between blank lines |
| EmailTemplates.GreetsThere | services/email-notifier/templates.py:256 | a missing or empty name gives "Hello there!" |
| EmailTemplates.EmailListsDeadlines | services/email-notifier/templates.py:270-292 | every upcoming deadline is in the e-mail; with none, the "no upcoming deadlines" message is |
| EmailTemplates.EmailWithoutSummary | services/email-notifier/templates.py:339-340 | without a summary the e-mail renders and says no summaries are available |
| EmailTemplates.EmailListsBlockers | services/email-notifier/templates.py:312-316 | every blocker of the last meeting is in the e-mail |
| EmailTemplates.InEmail | services/email-notifier/templates.py:252-346 | the e-mail shows whatever its opening, deadlines section or summary section shows |
| EmailTemplates.FormatEmailHtml | services/email-notifier/templates.py:27-249 | `format_email_html` builds the HTML rendering of the e-mail (banner paragraph `<p>Hello <name>!</p>`, deadlines, summary, footer), or its AttributeError |
| EmailTemplates.FormatEmailText | services/email-notifier/templates.py:252-346 | `format_email_text` builds the plain-text rendering of the same e-mail |
| EmailTemplates.AppendDeadlinesSection | services/email-notifier/templates.py:128-165 | the deadlines section is appended to the e-mail built so far |
| EmailTemplates.AppendSummarySection | services/email-notifier/templates.py:168-236 | the summary section is appended, or the highlights' error is returned |
| EmailTemplates.AppendDeadlines | services/email-notifier/templates.py:129-160 | the deadline loop appends each deadline's item in order |
| EmailTemplates.AppendEntries | services/email-notifier/templates.py:195-198 | the entry loop appends each entry's item in order |
| EmailTemplates.AppendHighlights | services/email-notifier/templates.py:215-229 | the loop over the first five highlights appends their items, stopping with the error at a null label |
| EmailTemplates.HighlightItemsErrPersists | services/email-notifier/templates.py:215-229 | once a prefix of the highlights fails, the whole loop fails with that error |
| EmailTemplates.RenderSummary | services/email-notifier/templates.py:170-231 | the summary body is the head, the two lists and the highlights block, or the highlights' error |
| MeetId.Search | services/meeting-insights-ui/pages/bot_launcher.py:30-33 | `re.search`: the leftmost index at or after the start where the pattern matches, or none when it matches nowhere |
| MeetId.FirstMatch | services/meeting-insights-ui/pages/bot_launcher.py:30-33 | the group of a match of one of the patterns, tried in order |
| MeetId.ParseGoogleMeetId | services/meeting-insights-ui/pages/bot_launcher.py:19-34 | a result is an xxx-yyyy-zzz id of lower-case letters that occurs in the lower-cased link |
| MeetId.HostMatchIsCode | services/meeting-insights-ui/pages/bot_launcher.py:25-28 | an id after "meet.google.com/" also matches the bare pattern, with the same group |
| MeetId.HostFirst | services/meeting-insights-ui/pages/bot_launcher.py:25-33 | an id after the host wins: the result is the id after the leftmost host match |
| MeetId.LeftmostWindow | services/meeting-insights-ui/pages/bot_launcher.py:27-33 | without a host match, the result is the leftmost id-shaped window |
| MeetId.NoneIffNoWindow | services/meeting-insights-ui/pages/bot_launcher.py:34 | None exactly when the lower-cased link has no id-shaped window |
| MeetId.IgnoresCase | services/meeting-insights-ui/pages/bot_launcher.py:31 | links equal up to letter case give the same result |
| MeetId.ParseLowered | services/meeting-insights-ui/pages/bot_launcher.py:31 | parsing the lower-cased link gives the same result |
| MeetId.CodeIsLower | services/meeting-insights-ui/pages/bot_launcher.py:27 | an id is its own lower-case form |
| MeetId.ReparseKeepsId | services/meeting-insights-ui/pages/bot_launcher.py:19-34 | parsing a parsed id gives the id back |
| MeetId.OverlongRun | services/meeting-insights-ui/pages/bot_launcher.py:27 | the unanchored pattern takes the first 3-4-3 window inside a longer letter run |
| Meetings.PyStr | services/email-notifier/templates.py:142 | an f-string shows a present value as it is and a null one as "None" |
| Meetings.OrElse | services/email-notifier/templates.py:33 | `s or default`: the value when truthy, the default otherwise |
| Text.Lower | services/meeting-insights-ui/pages/bot_launcher.py:31 | `str.lower()` keeps the length and lower-cases each character |
| Text.LowerIdempotent | services/meeting-insights-ui/pages/bot_launcher.py:31 | lower-casing twice is lower-casing once |
| Text.StripShape | services/jira-sync-worker/team_mapper.py:31 | `strip()` leaves no whitespace at either end |
| Text.StripLower | services/jira-sync-worker/main.py:158 | stripping and lower-casing commute |
| Text.CollapseSpacesCollapsed | services/jira-integration/main.py:234 | `" ".join(s.split())` leaves only single inner spaces, none at the ends |
| Text.SplitOnJoin | services/jira-sync-worker/team_mapper.py:37 | joining the parts of `split("\|")` with the separator gives the line back |
| Text.Take | services/email-notifier/templates.py:227 | `s[:n]` is the prefix of length n, or the whole string when shorter |
| Text.ParseNatToString | services/email-notifier/templates.py:184 | the printed count reads back as the count |
| Text.IntToStringInjective | services/email-notifier/templates.py:157 | distinct integers print differently |

## Left out

- The language model, the embedder, the Jira REST API, SMTP and the SQL/pgvector queries are parameters. `call_summary_model`, `call_openai_for_jira_structure`, the OpenAI call inside `classify_task_type` and the embeddings client are not modelled; only what their callers do with an answer or an exception is.
- Cosine similarity is computed by the database. It is an opaque integer score here, and the order of rows with equal scores is left to the database, as in the source.
- Row locking (`with_for_update(skip_locked=True)`), the poll loops with `time.sleep`, the FastAPI endpoints, health checks, the scheduler and threads are concurrency or I/O; claims are modelled one at a time.
- Floating point: times and the backoff base are `real` values, exact where Python rounds; dates are integer day numbers; the two-decimal rendering of segment windows is not modelled.
- `strftime`, `isoformat` and the workers' `fromisoformat` are parameters of the model (a clock record or a parser function), not implementations of the formats.
- ChunkStore.FetchChunks: the `date_from` and `date_to` filters (libs/shared-models/shared_models/rag.py:103-113) arrive as day numbers; the `datetime.fromisoformat` parse of a string filter is not modelled, nor the ValueError of a malformed date, which `rag_query` turns into a 500.
- SHA-256 is an uninterpreted function. `compute_chunk_hash` is modelled, but no code path calls it, so no fingerprint upsert is modelled.
- `persist_insights` writes embedding rows without platform, language or meeting date; the model writes them the same way, and `WorkerRowsInvisibleToFilters` states the consequence for filtered retrieval.
- JSON values are typed records with an optional value per key: a key that is absent and a key whose value is null are not distinguished, and values of unexpected JSON types are not modelled except where the source tests for them (`isinstance(..., dict)`, a list element that is not an object).
- `Text.Lower` lower-cases ASCII and the basic Cyrillic alphabet (А–Я, Ё) only; Python's full Unicode case mapping is not modelled.
- `add_comment` (services/jira-sync-worker/jira_client.py:153-166) is never called by the worker and is not modelled.
- The sync worker's `Meeting.data.isnot(None)` filter is not distinguished from empty data; both are "no insights".
- `get_epic_name_field`, `get_project_issue_types` and the Epic Link field lookup of the Jira integration service are site data fixed when the client is built, not REST calls; a POST's reply is a function of the payload.
- The `create_epics` parameter of `create_jira_tasks_from_llm_response` is never read by the source, and the model has no counterpart for it.
- The RAG prompts are modelled as structured records (`RagAnswer.PromptContent`): which messages, context items and insights they carry. Their rendering into the chat text and the JSON dumps inside it is not modelled.
- InsightsWorker.SegmentsOf: segments with the same start time come in table order; the database leaves their order unspecified.
- `days_until` reads the clock once per deadline; the model reads one `now` for the whole e-mail.
- E-mail entries that are neither strings nor objects, and an object entry whose "description" is present but null, are not modelled.
- The Streamlit pages, the rest of bot_launcher.py, the e-mail sender and its database queries, and the alembic migrations are not part of this model.
- JiraIntegration.ParentOf: for a type other than epic or sub-task it states that a parent key always yields a link, not whether the link uses the Epic Link field or `parent`.
- JiraIntegration.EpicNameOf: states when the Epic Name field may be set, not that every named epic sets it.
- JiraSync.ClassifyTaskType: the classifier is a function from the description to a reply or an exception; the meeting context and summary that the prompt also carries are not inputs.
- JiraClient.RetryWithBackoff: the waits `base ** k` are returned as values; the sleeping itself is not modelled.
- InsightsWorker.ProcessMeetingCompletes: an action item whose "description" is present but null also makes the final commit fail (action_items.description is NOT NULL). A null and an absent key are not distinguished here, so the model stores "" for both and only the highlights decide the commit.
- InsightsWorker.InsightsStore.Commit: the serial ids that a refused flush has already drawn are not modelled; after the rollback the next ids are those before the run.
- InsightsWorker.ProcessMeetingCompletedState: states the document stored as intended; as coded, a meeting whose data was not empty keeps its old data (see Findings).
- JiraSync.SyncMeetingStates: states the sync keys stored as intended; as coded, they are lost whenever the meeting's data is not empty, which holds for every meeting the worker syncs (see Findings).
- JiraSync.SyncStore.SelectNextMeeting: the "processing" mark is modelled as stored; as coded it is lost (see Findings).
- JiraSync.SyncStore.SyncPicked: the end states success, failed and None are modelled as stored; as coded they are lost (see Findings).
- JiraSync.SyncStore.SelectAndSync: "ends synced or reset" is the intended persistence; as coded the row keeps its data (see Findings).
- JiraSync.SyncStore.ProcessBatch: the states of picked meetings are the intended ones; as coded every pick leaves the row's data unchanged, so the same meeting is picked again (see Findings).
- InsightsWorker.InsightsStore.ProcessBatch: a meeting whose run raises is marked "error" and, being claimable again, may be claimed again within the same batch; the contract allows this rather than excluding it.
- ChunkStore.FetchChunks: rows carry the columns of the alembic schema (libs/shared-models/alembic/versions/e8f9a2b4c5d6_add_rag_columns_to_transcript_embeddings.py). The ORM class `TranscriptEmbedding` (libs/shared-models/shared_models/models.py:175-186) maps none of meeting_native_id, platform, language, chunk_type, topics, chunk_hash or meeting_date. As coded, building a Chunk (rag.py:140) and the platform, language, chunk_type and date filters (rag.py:91-113) raise AttributeError; RagAnswer.RagQuery then answers 500 (services/meeting-insights-worker/rag_api.py:388-393). The model follows the schema, not the ORM mapping.
- InsightsWorker.InsightsStore.Commit: the VARCHAR widths are not modelled: meeting_metadata.sentiment 32, speaker_highlights.label 100 and speaker 255, action_items.owner 255, status 50 and priority 50 (libs/shared-models/shared_models/models.py:129-167). A longer value makes the real commit fail with a DataError; here it is stored. InsightsWorker.ProcessMeetingCompletes and InsightsWorker.ProcessMeetingCommitFails inherit this, so a summary whose sentiment is longer than 32 characters completes here but fails in the source.
- JiraSync.RowsOf: the action items of a meeting are read in table order; the query at services/jira-sync-worker/main.py:423-427 has no ORDER BY, so the database may return them in any order, and the order of the created issues follows it.
- JiraTasks.TasksResult.AddEpicTask: when the task's call succeeds, its response in created_tasks is stated through the invariants (URLs of its keys, key created, its place among the epic's children), not as an exact value.
- JiraTasks.TasksResult.AddEpic: when the epic's call succeeds, the responses it appends are stated through the invariants (epics after their tasks, every key created), not as exact values.
- JiraTasks.TasksResult.AddStandaloneTask: when the task's call succeeds, its response in created_tasks is stated through the invariants, not as an exact value.

## Findings

| source | as written | input that shows it | evidently intended | confidence | as-written member | corrected member |
|---|---|---|---|---|---|---|
| services/jira-sync-worker/main.py:213-214 | `meeting.data = meeting.data or {}` and then item writes into that same dict, on `meetings.data`, a plain JSONB column (libs/shared-models/shared_models/models.py:47); for non-empty data the session sees no change and sends no UPDATE, here and at main.py:445-448 and 458-460 | a completed meeting whose data holds insights_ru and no jira_sync_state: after a successful sync the row still has no jira_sync_state and no jira_issues, so the next poll selects it again and creates its issues again | the sync state, the created issues and the sync time are stored | not executed; follows from SQLAlchemy's change tracking of JSON columns without mutation tracking | JiraSync.SyncAsWrittenStaysSelectable | JiraSync.SyncedNotSelectable |
| services/meeting-insights-worker/main.py:401-404 | the same idiom for insights_ru and team_roster_snapshot | a meeting processed again after its state went back to pending, whose data already holds an earlier insights_ru: the new document is not stored, while summary_state becomes "completed" | the new document and roster snapshot are stored | not executed; follows from SQLAlchemy's change tracking of JSON columns without mutation tracking | InsightsWorker.CompletedAsWrittenKeepsOldData | InsightsWorker.ProcessMeetingCompletedState |
