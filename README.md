# smart_todo task service, modelled in Dafny

This project models the deterministic core of the smart_todo back end (a Django task
manager with AI-assisted prioritisation). It covers:

- the LM Studio client's retry loop (`LMStudioClient._make_request`);
- the post-processing of model replies in `AITaskManager`:
  - extracting JSON from a messy reply;
  - filling required fields with defaults;
  - clamping the priority score;
  - the safe category name;
- the two non-AI fallbacks:
  - the priority table with its deadline bonus;
  - the keyword tagger;
- the three AI operations (`analyze_context`, `prioritize_task`, `enhance_task`) with their processing-log records and the 500-character error truncation;
- the assembly done by `get_task_recommendations`;
- the rule in `Task.save` that keeps `completed_at` in step with `status`;
- tag registration in `TaskCreateSerializer.create`, and the read-only fields of `TaskSerializer`;
- the views:
  - `TaskViewSet.update` with its tag sync;
  - `statistics` and `priority_distribution`;
  - the partial-success `bulk_create`;
  - the effective (second) `TaskPrioritizationView.post`;
- the `setup_initial_data` and `process_context_entries` management commands.

The database is an in-memory `Store` class:

- tags, relations, categories and context entries are fields of type `map` and `seq`;
- a `Task` row is a class with one mutable field per column.

Everything the code cannot see is passed in as a parameter:

- The network is an attempt sequence. Each attempt is a success with content, a timeout, a connection error, another request error, a malformed reply, or an uncaught exception.
- `json.loads`, `parse_datetime` and `str()` of JSON values are function parameters (`Env`).
- Datetime formatting is a parameter (`Formats`).
- Database saves that raise are given as flags or positions.
- The clock is a single `now` per operation.

Each loop of the source that changes state or builds a result step by step is a Dafny method with a `for` or `while` loop. The counting loop of `priority_distribution` is the exception: it is the function `PriorityDistribution`. Each method is proved equal to a specification function of its inputs. The properties the code promises are then proved as lemmas about those functions:

- bounds;
- if-and-only-if characterisations;
- idempotence;
- order;
- what stays unchanged.

Modules follow the source: `JsonValues` (json.dfy), `Text` (Python string builtins),
`Models`, `LMStudio`, `ResponseHandling`, `Fallbacks`, `TaskManager`, `Serializers`,
`Views` and `Commands`.

Behaviours of the code worth knowing before reading the model:

- **Retries.** `LMStudioClient._make_request` itself makes up to three attempts (ai_service.py:54).
- **Waits between attempts.**
  - After a timeout or connection error on attempt i it waits `2 * (i + 1)` seconds, which grows linearly although the comment at ai_service.py:83 calls it exponential.
  - After any other request error it waits a constant 2 seconds.
- **Fallback score.** The score is a fixed table (low 0.3, medium 0.5, high 0.7, urgent 0.9). A deadline within a week adds a bonus, and the sum is capped at 0.8, so an urgent task with a near deadline scores lower than one without (ai_service.py:408-435).
- **Logging.** A reply in which no JSON can be found is filled with defaults and logged as a successful analysis (ai_service.py:200-225).
- **Title.** No operation rejects an empty title.
- **Circuit breaker.** It wraps only methods that already catch every exception themselves, so it never sees a failure.

## Model

Source paths are relative to the repository root.

| member | source | states |
|---|---|---|
| LMStudio.Backoff | backend/smartTodo/tasks/ai_service.py:79-95 | the table of waits: a timeout or connection error on attempt i waits 2·(i+1) seconds, any other request error waits 2 |
| LMStudio.Decisive | backend/smartTodo/tasks/ai_service.py:54-100 | the attempt that ends the loop: every earlier one was retryable, and it is either not retryable or the loop ran out of its 3 attempts |
| LMStudio.SleepsBefore | backend/smartTodo/tasks/ai_service.py:82-95 | one sleep per failed retryable attempt, none after the third |
| LMStudio.MakeRequest | backend/smartTodo/tasks/ai_service.py:29-103 | the loop returns the reply of the decisive attempt and performs exactly the sleeps before it |
| LMStudio.ReplyCharacterised | backend/smartTodo/tasks/ai_service.py:54-103 | content is returned iff some attempt reached within 3 succeeded, and then it is that attempt's stripped content; `None` iff every reached attempt failed with a handled error |
| LMStudio.SleepsBounded | backend/smartTodo/tasks/ai_service.py:79-95 | at most two sleeps, each of 2 or 4 seconds, matching the failure kind and attempt number |
| LMStudio.MalformedStops | backend/smartTodo/tasks/ai_service.py:97-100 | a parse or structure error stops the loop at once with no reply and no further sleep |
| LMStudio.DecisiveIsFirst | backend/smartTodo/tasks/ai_service.py:54-100 | the loop stops at the first non-retryable attempt |
| Text.Strip | backend/smartTodo/tasks/ai_service.py:75 | `str.strip()`: the result is a slice of the input that starts and ends with non-whitespace, and everything cut off is whitespace |
| Text.Lower | backend/smartTodo/tasks/ai_service.py:563 | `str.lower()`: same length, each character lowered |
| Text.IsSubstringAt | backend/smartTodo/tasks/ai_service.py:576 | `kw in title_lower` holds iff the keyword occurs at some position of the title |
| Text.Prefix | backend/smartTodo/tasks/ai_service.py:581 | slicing `[:n]` keeps the first min(n, len) elements |
| ResponseHandling.FindFirst | backend/smartTodo/tasks/ai_service.py:142 | `str.find`: -1 iff the character is absent, otherwise its first position |
| ResponseHandling.FindLast | backend/smartTodo/tasks/ai_service.py:143 | `str.rfind`: -1 iff the character is absent, otherwise its last position |
| ResponseHandling.Candidate | backend/smartTodo/tasks/ai_service.py:141-146 | a candidate exists iff some `{` precedes some `}`, and it runs from the first `{` through the last `}` inclusive |
| ResponseHandling.ExtractJson | backend/smartTodo/tasks/ai_service.py:130-150 | empty reply gives the "Empty response" dict; otherwise the direct parse, else the parse of the candidate, else the "Failed to parse JSON response" dict carrying the raw reply |
| ResponseHandling.FillDefaults | backend/smartTodo/tasks/ai_service.py:213-215 | the in-place fill loop yields the merged dict `Filled` |
| ResponseHandling.FilledKeys | backend/smartTodo/tasks/ai_service.py:213-215 | after filling, the keys are the reply's keys plus every required field |
| ResponseHandling.FilledOutside | backend/smartTodo/tasks/ai_service.py:213-215 | keys that are not required fields keep their values |
| ResponseHandling.FilledDefaultAt | backend/smartTodo/tasks/ai_service.py:213-215 | each required field holds its default iff it was missing or null, and the reply's value otherwise |
| ResponseHandling.FilledAt | backend/smartTodo/tasks/ai_service.py:372-374 | the three facts above together, for each fill loop |
| ResponseHandling.RequiredPresent | backend/smartTodo/tasks/ai_service.py:524-526 | every required field is present afterwards, and non-null when its default is non-null |
| ResponseHandling.FilledKeepsValues | backend/smartTodo/tasks/ai_service.py:213-215 | every non-null value the model gave survives the fill |
| ResponseHandling.FilledIdempotent | backend/smartTodo/tasks/ai_service.py:213-215 | filling a filled dict again changes nothing |
| ResponseHandling.Clamp01 | backend/smartTodo/tasks/ai_service.py:355 | `max(0, min(1, x))` lies in [0,1], is x inside it and the nearer bound outside |
| ResponseHandling.NormalizeScore | backend/smartTodo/tasks/ai_service.py:351-359 | the stored score lies in [0,1]: a number is clamped, a boolean counts as 1 or 0, anything else or a missing score gives 0.5 |
| ResponseHandling.SafeCategoryName | backend/smartTodo/tasks/ai_service.py:253-271 | the case table: a string is kept, an object or dict with a name gives that name, everything else (None included) is "uncategorized" |
| Models.PriorityNamesDistinct | backend/smartTodo/tasks/models.py:21-26 | each priority choice value names exactly one priority |
| Models.CompletedAtAfterSave | backend/smartTodo/tasks/models.py:64-68 | after save `completed_at` is null iff the status is not completed; a completed task keeps an existing stamp and gets `now` when it has none |
| Models.SaveIdempotent | backend/smartTodo/tasks/models.py:64-68 | saving again, at any time, leaves `completed_at` as the first save left it |
| Models.Task.constructor | backend/smartTodo/tasks/models.py:35-56 | a new task has the given fields, score 0.5, status pending, empty AI fields, created and updated now, no completion stamp, and is valid |
| Models.Task.Save | backend/smartTodo/tasks/models.py:64-69 | save sets `completed_at` by the completion rule and `updated_at` to now, and a task whose score lies in [0,1] is then valid |
| Fallbacks.BaseScore | backend/smartTodo/tasks/ai_service.py:408-416 | the score table: low 0.3, medium 0.5, high 0.7, urgent 0.9, any other priority 0.5 |
| Fallbacks.FallbackScore | backend/smartTodo/tasks/ai_service.py:407-435 | the step-by-step score equals `FallbackScoreOf`, the base plus the capped deadline bonus |
| Fallbacks.FallbackScoreRange | backend/smartTodo/tasks/ai_service.py:419-435 | the score lies in [0.3,0.9]; a deadline-adjusted score never exceeds 0.8; without adjustment it is the base; from a base of at most 0.5 the full bonus is added |
| Fallbacks.FallbackPrioritization | backend/smartTodo/tasks/ai_service.py:404-463 | the fallback dict, including the emergency dict when looking up the priority raises |
| Fallbacks.FallbackPrioritizationProperties | backend/smartTodo/tasks/ai_service.py:439-463 | in both branches the fallback score is a number in [0.3,0.9] |
| Fallbacks.FallbackPrioritizationMarked | backend/smartTodo/tasks/ai_service.py:439-463 | the fallback always carries `is_fallback = True` |
| Fallbacks.FallbackPrioritizationOfPriority | backend/smartTodo/tasks/ai_service.py:439-449 | the suggested priority is the task's own, and the suggested deadline is `str(deadline)` or null |
| Fallbacks.FallbackPrioritizationScore | backend/smartTodo/tasks/ai_service.py:415-440 | on the normal path the score is the computed fallback score and there is no error |
| Fallbacks.FallbackPrioritizationUnhashable | backend/smartTodo/tasks/ai_service.py:450-463 | an unhashable priority gives the emergency dict: score 0.5, medium, and the raised message |
| Fallbacks.FallbackPrioritizationFields | backend/smartTodo/tasks/ai_service.py:439-463 | every prioritisation field and the score are present |
| Fallbacks.CapLowersUrgentScore | backend/smartTodo/tasks/ai_service.py:430-435 | an urgent task with a deadline within 7 days drops from 0.9 to 0.8, because the cap applies to the base score too |
| Fallbacks.TagColumnDistinct | backend/smartTodo/tasks/ai_service.py:566-573 | the six tag names of the keyword table are distinct |
| Fallbacks.MatchingTags | backend/smartTodo/tasks/ai_service.py:575-577 | scanning n rows yields at most n tags |
| Fallbacks.MatchingTagsMembers | backend/smartTodo/tasks/ai_service.py:575-577 | a tag is suggested iff one of its keywords is a substring of the lowercased title |
| Fallbacks.MatchingInTableOrder | backend/smartTodo/tasks/ai_service.py:575-577 | the suggested tags appear in table order, each at its own row |
| Fallbacks.InTableOrderPrefix | backend/smartTodo/tasks/ai_service.py:581 | truncating keeps the table order |
| Fallbacks.FallbackTagsProperties | backend/smartTodo/tasks/ai_service.py:562-581 | at most 3 tags, in table order, without duplicates, each with a matching keyword; when at most 3 match, all of them are kept |
| Fallbacks.SuggestTags | backend/smartTodo/tasks/ai_service.py:564-577 | the append loop yields the matching tags of the whole table |
| Fallbacks.FallbackEnhancement | backend/smartTodo/tasks/ai_service.py:556-601 | the fallback enhancement dict, including the emergency dict when the title has no `lower` |
| Fallbacks.FallbackEnhancementFields | backend/smartTodo/tasks/ai_service.py:579-601 | every enhancement field is present |
| Fallbacks.FallbackEnhancementProperties | backend/smartTodo/tasks/ai_service.py:579-601 | the fallback is marked `is_fallback` and suggests the category "general" |
| Fallbacks.FallbackEnhancementFewTags | backend/smartTodo/tasks/ai_service.py:581 | at most 3 tags are suggested |
| Fallbacks.FallbackEnhancementOfTitle | backend/smartTodo/tasks/ai_service.py:559-580 | the description is kept when truthy, and otherwise becomes "Complete task: " plus the title; there is no error |
| Fallbacks.FallbackEnhancementTags | backend/smartTodo/tasks/ai_service.py:562-581 | the tags are the first three keyword matches of the lowercased title |
| Fallbacks.FallbackEnhancementNoTitle | backend/smartTodo/tasks/ai_service.py:589-601 | a title that is not a string gives the emergency dict: the title as description, no tags, and the raised message |
| TaskManager.StoredError | backend/smartTodo/tasks/ai_service.py:125 | the stored error is null iff there is no message or it is empty, and otherwise the message cut to its first 500 characters |
| TaskManager.LogProcessing | backend/smartTodo/tasks/ai_service.py:114-128 | the record is appended to the log unless its insert raises, which is swallowed |
| TaskManager.FillParsedReply | backend/smartTodo/tasks/ai_service.py:196-215 | no reply raises, a reply that is not a dict makes the membership test raise, and otherwise the reply's dict filled with defaults |
| TaskManager.FillReplyKeys | backend/smartTodo/tasks/ai_service.py:213-215 | a filled reply holds every required field |
| TaskManager.Analysis | backend/smartTodo/tasks/ai_service.py:152-251 | no entries means no log record; otherwise one `context_analysis` record with the entry count as input and the result as output, successful iff the reply could be filled |
| TaskManager.AnalyzeContext | backend/smartTodo/tasks/ai_service.py:152-251 | the method returns the result and record of `Analysis` for the loop's reply |
| TaskManager.AnalysisDefaultsDistinct | backend/smartTodo/tasks/ai_service.py:203-211 | the required analysis fields are distinct |
| TaskManager.AnalysisProperties | backend/smartTodo/tasks/ai_service.py:203-240 | with entries, every required analysis field is present and non-null, on the success and the failure path |
| TaskManager.AnalysisSucceeds | backend/smartTodo/tasks/ai_service.py:194-228 | the analysis succeeds iff the model's non-empty reply parses to a dict, and then every non-null field it gave is kept |
| TaskManager.AnalysisFails | backend/smartTodo/tasks/ai_service.py:230-251 | a failed analysis returns the failure dict and logs the truncated exception text |
| TaskManager.AnalysisOfNothing | backend/smartTodo/tasks/ai_service.py:160-169 | an empty entry list returns the "No context provided" dict at once and logs nothing |
| TaskManager.UnparseableReplyLoggedAsSuccess | backend/smartTodo/tasks/ai_service.py:200-225 | a non-empty reply with no JSON in it is logged as a success whose result carries the parse-failure error |
| TaskManager.Prioritized | backend/smartTodo/tasks/ai_service.py:273-402 | exactly one `task_prioritization` record, with the result as output, successful iff the AI path got through |
| TaskManager.PrioritizeTask | backend/smartTodo/tasks/ai_service.py:273-402 | the method returns the result and record of `Prioritized` for the loop's reply |
| TaskManager.PrioritizationDefaultsDistinct | backend/smartTodo/tasks/ai_service.py:362-370 | the prioritisation defaults have distinct keys, none of them the score |
| TaskManager.PrioritizationKeys | backend/smartTodo/tasks/ai_service.py:362-370 | the defaults cover exactly the prioritisation fields |
| TaskManager.PrioritizedProperties | backend/smartTodo/tasks/ai_service.py:351-374 | on either path the result holds a numeric score in [0,1] and every prioritisation field |
| TaskManager.PrioritizedSucceeds | backend/smartTodo/tasks/ai_service.py:349-384 | on success the score is the normalised score of the reply, and the log input is the task info |
| TaskManager.PrioritizedFallsBack | backend/smartTodo/tasks/ai_service.py:389-402 | on failure the result is the fallback prioritisation, logged with the task title and the truncated exception text |
| TaskManager.Enhanced | backend/smartTodo/tasks/ai_service.py:465-554 | exactly one `task_enhancement` record, with the task data as input and the result as output, successful iff the AI path got through |
| TaskManager.EnhanceTask | backend/smartTodo/tasks/ai_service.py:465-554 | the method returns the result and record of `Enhanced` for the loop's reply |
| TaskManager.EnhancementDefaultsDistinct | backend/smartTodo/tasks/ai_service.py:514-522 | the enhancement defaults have distinct keys |
| TaskManager.EnhancementKeys | backend/smartTodo/tasks/ai_service.py:514-522 | the defaults cover exactly the enhancement fields |
| TaskManager.EnhancedProperties | backend/smartTodo/tasks/ai_service.py:513-526 | on either path every enhancement field is present |
| TaskManager.EnhancedKeepsModelFields | backend/smartTodo/tasks/ai_service.py:524-526 | on success every non-null field of the model's reply is kept |
| TaskManager.EnhancedFallsBack | backend/smartTodo/tasks/ai_service.py:541-554 | on failure the result is the fallback enhancement, logged unsuccessful with the truncated exception text |
| TaskManager.AnalysisIfAny | backend/smartTodo/tasks/ai_service.py:615-618 | without entries there is no analysis: an empty context and no log record |
| TaskManager.GetTaskRecommendations | backend/smartTodo/tasks/ai_service.py:603-679 | the method yields the assembled recommendation and the records its sub-operations write |
| TaskManager.FalsyDeadlineKept | backend/smartTodo/tasks/ai_service.py:627-628 | a deadline that is given but falsy is not parsed: it reaches `task_info` unchanged (ai_service.py:287, 366) and gives no bonus and no suggested deadline in the fallback |
| TaskManager.AssembleProperties | backend/smartTodo/tasks/ai_service.py:654-674 | success is true; score and suggested priority come from the prioritisation; a suggested deadline is present iff the prioritisation's is truthy; an empty context reads "No context analyzed" |
| TaskManager.PrioritizedScored | backend/smartTodo/tasks/ai_service.py:351-359 | every prioritisation has a score in [0,1] and a suggested priority, and is logged |
| TaskManager.RecommendationProperties | backend/smartTodo/tasks/ai_service.py:603-679 | a recommendation succeeds with a score in [0,1] and the prioritisation's suggested priority, with a deadline iff it is truthy, and without entries reads "No context analyzed" |
| TaskManager.RecommendationLogs | backend/smartTodo/tasks/ai_service.py:615-651 | a recommendation writes 3 log records with context entries and 2 without |
| Serializers.Lowered | backend/smartTodo/tasks/serializers.py:62 | every tag name is lowercased |
| Serializers.DuplicateSticks | backend/smartTodo/tasks/serializers.py:61-63 | once a relation insert raises, the rest of the list has no effect |
| Serializers.RegisterOneFresh | backend/smartTodo/tasks/serializers.py:61-66 | a name not yet related gets a manual relation; an existing tag's count goes up by 1 and a new tag starts at 0 |
| Serializers.RegisterValid | backend/smartTodo/tasks/serializers.py:61-66 | registration keeps every relation pointing at an existing tag and every count non-negative |
| Serializers.RegisterDistinct | backend/smartTodo/tasks/serializers.py:61-66 | distinct names all register, adding exactly one relation per name |
| Serializers.RegisterNotSuggested | backend/smartTodo/tasks/serializers.py:63 | every relation created is marked `ai_suggested = False` |
| Serializers.RegisterKeepsRelations | backend/smartTodo/tasks/serializers.py:61-66 | existing relations are kept unchanged |
| Serializers.RegisterTagNames | backend/smartTodo/tasks/serializers.py:62 | the tag table gains exactly the listed names |
| Serializers.RegisterDistinctCounts | backend/smartTodo/tasks/serializers.py:64-66 | a pre-existing tag's count goes up by 1 per mention, and a newly created tag stays at 0 |
| Serializers.RegisterRepeated | backend/smartTodo/tasks/serializers.py:63 | the first name repeated after lowercasing violates the (task, tag) uniqueness at its own position |
| Serializers.RegisterSucceedsIffDistinct | backend/smartTodo/tasks/serializers.py:61-63 | registration succeeds iff the lowercased names are distinct |
| Serializers.NoTagsNoRelations | backend/smartTodo/tasks/serializers.py:57 | no tags means no relations and no count changes |
| Serializers.RegisterStep | backend/smartTodo/tasks/serializers.py:62-66 | one iteration of the loop changes the tables as `RegisterOne` says |
| Serializers.RegisterTags | backend/smartTodo/tasks/serializers.py:61-66 | the loop leaves the tables as `Register` says and reports where a duplicate stopped it |
| Serializers.CreateTask | backend/smartTodo/tasks/serializers.py:56-68 | the task is created from the validated fields without the tags, with the model defaults, and then its tags are registered |
| Serializers.UpdatedProperties | backend/smartTodo/tasks/serializers.py:30-32 | saving an update writes the writable fields given, keeps the read-only fields, stamps `updated_at`, keeps the completion rule and validity, and is idempotent |
| Serializers.SetWritable | backend/smartTodo/tasks/serializers.py:51-54 | the given writable fields are assigned and no other column changes |
| Serializers.ApplyChanges | backend/smartTodo/tasks/views.py:71 | `perform_update` leaves the task as `Updated` says |
| Views.SyncCounts | backend/smartTodo/tasks/views.py:60-69 | after the sync every listed name is a tag; an existing tag's count goes up once per mention, and a new tag's count is its mentions minus 1 |
| Views.SyncRelations | backend/smartTodo/tasks/views.py:60-66 | the sync adds a manual relation for each listed name that lacks one and leaves other relations as they were |
| Views.SyncValid | backend/smartTodo/tasks/views.py:60-69 | the sync keeps the tag tables valid |
| Views.UpdateTagRelations | backend/smartTodo/tasks/views.py:54-69 | afterwards the task is related to a name iff it is listed or had an AI-suggested relation to it; only AI-suggested relations stay AI-suggested; other tasks' relations are untouched |
| Views.ClearManualValid | backend/smartTodo/tasks/views.py:57 | deleting the manual relations keeps the tables valid |
| Views.SyncName | backend/smartTodo/tasks/views.py:61-69 | one iteration of the loop changes the tables as `SyncOne` says |
| Views.LeadingNames | backend/smartTodo/tasks/views.py:60-61 | the names the loop gets through are the leading string values, and the value after them, if any, is not a string |
| Views.TagsRaiseCharacterised | backend/smartTodo/tasks/views.py:60-61 | the loop raises iff the value is not iterable or is a list holding a non-string; a string yields one tag per character, an object one per key |
| Views.SyncTags | backend/smartTodo/tasks/views.py:60-69 | the loop syncs the lowercased names before the first value that has no `lower()`, and raises iff there is such a value |
| Views.ReplaceTags | backend/smartTodo/tasks/views.py:54-69 | manual relations are cleared and the tags synced up to the value that raises, if any; valid tables stay valid |
| Views.UpdateTask | backend/smartTodo/tasks/views.py:47-72 | invalid data gives 400 and changes nothing; a `tags` value the loop cannot get through gives 500, with manual relations cleared, the names before the bad value synced and the fields not saved; otherwise the tags are replaced when given, the fields are saved, and the response is 200 |
| Views.CompletionRate | backend/smartTodo/tasks/views.py:92 | completed/total·100 when there are tasks and 0 otherwise; within [0,100], 100 iff all are completed, 0 iff none are |
| Views.StatusCountsSum | backend/smartTodo/tasks/views.py:77-84 | the four status counts add up to the total, and overdue tasks are among the open ones |
| Views.StatisticsProperties | backend/smartTodo/tasks/views.py:74-93 | the rate lies in [0,100], is 0 without tasks and 100 iff every task is completed; the status counts do not exceed the total |
| Views.AbsentPriorityCountsNothing | backend/smartTodo/tasks/views.py:98-104 | a priority no task has counts no open task |
| Views.OpenCountsSum | backend/smartTodo/tasks/views.py:103 | the open counts per priority add up to the open tasks |
| Views.DistributionProperties | backend/smartTodo/tasks/views.py:95-106 | the distribution has a key for exactly the priorities in use, each counting its pending or in-progress tasks, summing to all open tasks |
| Views.SaveValidItems | backend/smartTodo/tasks/views.py:166-172 | every valid item is stored as a new entry in order, and every invalid one is reported with its index |
| Views.SaveInsights | backend/smartTodo/tasks/views.py:180-184 | the created entries are marked with the insights one by one, up to a save that raises |
| Views.AppendedInOrder | backend/smartTodo/tasks/models.py:93 | rows created now keep the table in creation order |
| Views.BulkAppendedNow | backend/smartTodo/tasks/views.py:169 | every appended entry is created now |
| Views.CreateAndProcess | backend/smartTodo/tasks/views.py:163-194 | the list case leaves the table and the response as `Bulk` says |
| Views.BulkCreate | backend/smartTodo/tasks/views.py:155-194 | `bulk_create` leaves the table and the response as `Bulk` says, and keeps the store valid |
| Views.ItemsPartitioned | backend/smartTodo/tasks/views.py:166-172 | each item is either created or reported |
| Views.RejectionsSound | backend/smartTodo/tasks/views.py:171-172 | each reported error names an invalid item by its index, with that item's errors |
| Views.RejectionsComplete | backend/smartTodo/tasks/views.py:171-172 | every invalid item is reported |
| Views.RejectionsOrdered | backend/smartTodo/tasks/views.py:166-172 | errors come in request order |
| Views.AcceptedExact | backend/smartTodo/tasks/views.py:166-170 | the created data are exactly those of the valid items |
| Views.BulkPartialSuccess | backend/smartTodo/tasks/views.py:155-194 | a non-list body is a 400 with no changes; a list gives 201 where `created` is the number of valid items, errors and creations cover the request, and the context is analysed iff something was created |
| Views.BulkOfList | backend/smartTodo/tasks/views.py:175-191 | the stored rows are marked up to the failing save, and the response shows them marked through it |
| Views.BulkRows | backend/smartTodo/tasks/views.py:166-170 | stored rows carry the valid data, fresh consecutive ids above every existing id, the given or current timestamp, and creation time now |
| Views.CreatedUnprocessed | backend/smartTodo/tasks/models.py:85-92 | a created entry starts unprocessed with empty insights |
| Views.BulkSameInsights | backend/smartTodo/tasks/views.py:175-184 | when no save raises, every created entry gets the same insights and a processing time |
| Views.BulkSaveFails | backend/smartTodo/tasks/views.py:180-186 | when the save at position f raises, the earlier entries are stored processed and the later ones stay unprocessed, while the response already shows the failing entry as processed |
| Views.DaysUntil | backend/smartTodo/tasks/ai_service.py:426 | `(deadline - now).days` is the whole number of days, rounded down |
| Views.MatchingIds | backend/smartTodo/tasks/views.py:324-327 | `filter(id__in=…)`: exactly the positions of the rows whose key is requested, in increasing order |
| Views.SelectTasks | backend/smartTodo/tasks/views.py:324 | exactly the tasks whose id is requested, so missing ids are skipped |
| Views.SelectEntries | backend/smartTodo/tasks/views.py:327 | exactly the context entries whose id is requested |
| Views.SelectedDistinct | backend/smartTodo/tasks/views.py:324 | the selection lists no task twice |
| Views.StoredScoreOfPrioritization | backend/smartTodo/tasks/views.py:342 | the stored score is the prioritisation's score, which lies in [0,1] |
| Views.StorePrioritization | backend/smartTodo/tasks/views.py:342-344 | the task gets its new score and suggestions and is saved |
| Views.PrioritizedValid | backend/smartTodo/tasks/views.py:342-344 | a prioritised task is valid whatever it was before |
| Views.PrioritizeStored | backend/smartTodo/tasks/views.py:339-350 | one task is prioritised, stored and reported |
| Views.PrioritizeEach | backend/smartTodo/tasks/views.py:338-350 | each selected task yields one row and one log record, and is stored with its own prioritisation |
| Views.PrioritizeAgainst | backend/smartTodo/tasks/views.py:331-350 | the context analysis, if any, is logged first and then one record per task |
| Views.PrioritizeTasks | backend/smartTodo/tasks/views.py:312-356 | an invalid request gives 400 and changes nothing; otherwise every found task is prioritised against one shared analysis, stored and reported, and the other tasks are untouched |
| Commands.CategoryRows | backend/smartTodo/tasks/management/commands/setup_initial_data.py:11-20 | the 8 default categories, each starting with usage count 0 |
| Commands.TagRows | backend/smartTodo/tasks/management/commands/setup_initial_data.py:33-38 | the 20 default tags, each starting with usage count 0 |
| Commands.GetOrCreateAllKeys | backend/smartTodo/tasks/management/commands/setup_initial_data.py:22-30 | the table afterwards holds every old and every listed name |
| Commands.GetOrCreateAllKeeps | backend/smartTodo/tasks/management/commands/setup_initial_data.py:24-27 | existing rows are left unchanged |
| Commands.GetOrCreateAllFirst | backend/smartTodo/tasks/management/commands/setup_initial_data.py:24-27 | a missing name gets the defaults of its first listing |
| Commands.CreatedFromRows | backend/smartTodo/tasks/management/commands/setup_initial_data.py:24-27 | every new row comes from a listed row |
| Commands.CreatedCountIsMissing | backend/smartTodo/tasks/management/commands/setup_initial_data.py:28-29 | the created counter counts exactly the listed names that did not exist |
| Commands.GetOrCreateAllIdempotent | backend/smartTodo/tasks/management/commands/setup_initial_data.py:22-45 | a second run changes nothing and creates nothing |
| Commands.SeedCategories | backend/smartTodo/tasks/management/commands/setup_initial_data.py:22-30 | the category loop gets or creates every default category and counts the new ones |
| Commands.SeedTags | backend/smartTodo/tasks/management/commands/setup_initial_data.py:40-45 | the tag loop gets or creates every default tag and counts the new ones |
| Commands.SetupInitialData | backend/smartTodo/tasks/management/commands/setup_initial_data.py:6-51 | both tables are seeded, the counters count the new rows, and the store stays valid |
| Commands.GetOrCreateAllProperties | backend/smartTodo/tasks/management/commands/setup_initial_data.py:22-45 | every listed name exists, existing rows are unchanged, new rows come from the list, and the counter counts the missing names |
| Commands.DefaultCategoriesPresent | backend/smartTodo/tasks/management/commands/setup_initial_data.py:11-30 | after a run, all 8 categories exist |
| Commands.SetupCategories | backend/smartTodo/tasks/management/commands/setup_initial_data.py:22-30 | existing categories are unchanged, new ones start at usage count 0, and the counter counts the missing ones |
| Commands.DefaultTagsPresent | backend/smartTodo/tasks/management/commands/setup_initial_data.py:33-45 | after a run, all 20 tags exist |
| Commands.SetupTags | backend/smartTodo/tasks/management/commands/setup_initial_data.py:40-45 | existing tags are unchanged, new ones start at usage count 0, and the counter counts the missing ones |
| Commands.CreatedCategoryColor | backend/smartTodo/tasks/management/commands/setup_initial_data.py:24-27 | a created category gets its listed color |
| Commands.SetupTwice | backend/smartTodo/tasks/management/commands/setup_initial_data.py:22-45 | a second consecutive run creates 0 categories and 0 tags and changes nothing |
| Commands.UnprocessedNewestFirst | backend/smartTodo/tasks/management/commands/process_context_entries.py:21-23 | exactly the unprocessed entries, newest first |
| Commands.SelectionProperties | backend/smartTodo/tasks/management/commands/process_context_entries.py:21-23 | at most `limit` unprocessed entries, most recently created first; with fewer than `limit` all are included, and every one left out is older than every one taken |
| Commands.ProcessOne | backend/smartTodo/tasks/management/commands/process_context_entries.py:35-52 | one entry is analysed alone; unless its save raises, it gets the insights and a processing time |
| Commands.ProcessContextEntries | backend/smartTodo/tasks/management/commands/process_context_entries.py:17-56 | a negative limit raises, an empty selection changes nothing, and otherwise each selected entry is processed and counted |
| Commands.AfterProcessingAt | backend/smartTodo/tasks/management/commands/process_context_entries.py:34-52 | a processed entry holds its own analysis and a processing time, an entry whose save raised is unchanged, and unselected entries are unchanged |
| Commands.ProcessingProperties | backend/smartTodo/tasks/management/commands/process_context_entries.py:34-52 | each entry saved gets its insights and a processing time, failures leave the entry and the loop goes on, the count never exceeds the selection, and the creation order is kept |
| Commands.SameCreation | backend/smartTodo/tasks/management/commands/process_context_entries.py:42-44 | processing never changes `created_at` |
| Commands.SavedCountCounts | backend/smartTodo/tasks/management/commands/process_context_entries.py:46 | `processed_count` is the number of entries whose save did not raise |
| Commands.OneLogPerEntry | backend/smartTodo/tasks/management/commands/process_context_entries.py:39 | each selected entry writes exactly one `context_analysis` record |

## Left out

- The circuit breaker (`pybreaker`) is left out. Its library is not part of this model, and the decorated methods catch every exception themselves.
- Network I/O is left out: `requests.post`, status and response-shape checks. Each attempt's outcome is an input.
- `time.sleep` is returned as the list of sleeps. Timing is a constant `elapsedMs`.
- Logging, prompt text and printed command messages are left out: they are output only.
- `json.loads`, `parse_datetime`, `isoformat()` and `str()` of non-string values are function parameters, not modelled.
- Floating point is left out. Scores and rates are reals, with no rounding and no `float()` overflow.
- The 500-character cut is on characters, not bytes.
- Text.Lower, Text.Strip: only ASCII case mapping and the common whitespace set are modelled. Other Unicode rules are not.
- Fallbacks.NoLowerMessage, TaskManager.FillFailure, TaskManager.ContextSummaryError, TaskManager.ScoredReply, TaskManager.ThemesJoinError: Python exception texts use `TypeName`, which calls every number `float` (Python would say `int` for integers).
- Messages of exceptions raised inside the ORM are fixed texts.
- A task's `priority` and `status` are enums. Strings outside the choices, which Django would store without validation on `save`, are not modelled.
- `task_data` that is not a dict is left out; the request data of the views is always a dict here.
  - For `get_task_recommendations` this is the only way into its `except` branch (ai_service.py:611-612, 681-697), which is therefore not modelled.
  - `enhance_task`'s `except` branch is modelled through its other causes: no reply, a failing `', '.join` and a reply that is not a dict.
- The `except` branch of `_fallback_prioritization`'s deadline block is left out. It catches a failure of `timezone` calls on a datetime, which the model does not have.
- Database enforcement is represented only by explicit outcomes:
  - unique names;
  - the (task, tag) uniqueness, as a `Duplicate` outcome;
  - save failures, as flags or positions.
  Ids are "largest existing id plus one".
- Order is simplified:
  - Query-set order of tasks is taken as given.
  - Ties in `-created_at` are resolved by position in the table.
  - `priority_distribution` is keyed by `Priority`, so the order of Python dict keys is not modelled.
  - A `tags` object in an update request is iterated over its keys in the order given as `TagObject.keys`.
- Response serializers and their formatting are left out (views.py:246-250, 352-356). The prioritisation response is the list of result rows.
- `get_object` and its 404 are left out. The update takes the task object.
- Request validation is one input: a validated change set, or an error.
- The first `TaskPrioritizationView.post` (views.py:260-307) is left out: the second one replaces it.
- `bulk_delete` is left out: it only returns an empty dict.
- `admin.py`, `urls.py` and the `recalculate_priorities` command are not part of this model.
- `ContextEntryViewSet.create` and the `popular` views are not part of this model.
- Category rows carry only color and usage count; their timestamps are left out.
- The log records of the AI operations are returned. Storing them in the log table is `TaskManager.LogProcessing`.
- Fallbacks.MatchingTags: its own contract only bounds the number of tags. Membership and order are stated by MatchingTagsMembers and MatchingInTableOrder.
- Serializers.SetWritable: it states only the writable assignment. `save` and its timestamps are stated by ApplyChanges and UpdatedProperties.
- Commands.SetupCategories: it does not state the listed color of a created category. Commands.CreatedCategoryColor states that.
