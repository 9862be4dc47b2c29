# powerflow, modelled in Dafny

powerflow copies voice recordings from the Pocket API into a Notion
database. A sync pass fetches the recordings made since the last pass (the
watermark). It asks Notion which of their deduplication keys
(`pocket:recording:<id>`) the database already holds. It creates a page for
each of the others, or only counts them on a dry run. It tallies the outcome
and advances the watermark. A background daemon repeats the pass on an
interval. The command-line front end sets up the property mapping and runs
single passes.

This project models that core in Dafny, one module per source file:

| module | file | models |
|---|---|---|
| `Sync` | `sync.dfy` | `SyncEngine.sync`, `get_pending_count` and `parse_last_sync` (`src/powerflow/sync.py`) |
| `Models` | `models.dfy` | `Recording`'s derived values, Notion properties and page body, and `SyncResult` (`src/powerflow/models.py`) |
| `MindMap` | `mindmap.dfy` | `_build_mind_map_tree` and its recursive `add_node` (`src/powerflow/models.py`) |
| `Blocks` | `blocks.dfy` | the block builders, `**bold**` scanner and markdown reader (`src/powerflow/blocks.py`) |
| `Pocket` | `pocket.dfy` | `parse_datetime`, `_parse_recording` and the `fetch_recordings` loop (`src/powerflow/pocket.py`) |
| `Notion` | `notion.dfy` | the `_request` attempt loop, pagination, the batched duplicate check, payloads, `ensure_properties_exist` and `format_databases_for_display` (`src/powerflow/notion.py`) |
| `Configuration` | `config.dfy` | `Config` with its defaults, `load`, `save` and `update_last_sync` (`src/powerflow/config.py`) |
| `Daemon` | `daemon.dfy` | `parse_interval`, `_do_sync`, the run loop's failure counter, state record and wait, and the single-instance guard (`src/powerflow/daemon.py`) |
| `Reliability` | `reliability.dfy` | retry classification, backoff, `with_retry`, `RateLimiter` and `as_tuple` (`src/powerflow/utils/reliability.py`) |
| `Cli` | `cli.dfy` | the property mapping of `setup`, the key checks, the exit code of `sync` and `main`'s dispatch (`src/powerflow/cli.py`) |
| `Text`, `Json` | `text.dfy`, `json.dfy` | the Python string operations and decoded JSON values the core relies on; they model built-ins, not repository code, and have no rows below |

The code works in three styles, and the model keeps each one.
- Code that only computes, such as the block builders, timestamp parsing and the mapping rules, becomes functions and lemmas.
- Loops become methods with loop invariants, each proved against a specification function. These include the sync loop, the fetch and pagination loops, the retry loops, the chunked wait and the property-map assembly.
- Objects whose fields change become classes. `Config` and its file are classes, and so are the `RateLimiter` bucket and the daemon.

Everything outside the process becomes a parameter:
- the Pocket and Notion services (the outcome of each call);
- the file store (missing, unparsable, or a JSON document);
- the wall clock and its ISO and `strftime` renderings;
- the monotonic clock;
- the moment a shutdown signal is seen.

Each modelled pass or loop returns the calls it made, in order. The
properties about duplicates, dry runs and retries are stated over that log.

## Model

| member | source | states |
|---|---|---|
| Sync.PocketIds | src/powerflow/sync.py:79 | one dedup key per fetched recording, in fetch order |
| Sync.Known | src/powerflow/sync.py:92-94 | no more recordings are known to Notion than were looked at |
| Sync.StepSkips | src/powerflow/sync.py:92-94 | a recording whose key Notion holds is skipped, and nothing else changes |
| Sync.StepCounts | src/powerflow/sync.py:97-103 | on a dry run a new recording is only counted as created |
| Sync.StepPageFails | src/powerflow/sync.py:97-107 | when building the page raises, the recording counts as failed with one error naming its title, and no page is created |
| Sync.StepCreates | src/powerflow/sync.py:97-107 | otherwise one `create_page` call is made with the page; the recording counts as created, or as failed with one error when the call raises |
| Sync.LoopBalanced | src/powerflow/sync.py:89-107 | after n recordings, created + skipped + failed == n, pending stays 0, skipped is the number Notion holds, and there is one error per failure |
| Sync.DryLoop | src/powerflow/sync.py:92-103 | a dry run makes no call, fails nothing, and counts as created every recording Notion does not hold |
| Sync.LoopCalls | src/powerflow/sync.py:89-103 | the calls are one `create_page` per recording Notion does not hold and whose page can be built, at most one per recording, in fetch order, and none on a dry run |
| Sync.FailurePrefix | src/powerflow/sync.py:107 | each failure message starts "Failed to sync '<display title>': " |
| Sync.LoopErrors | src/powerflow/sync.py:105-107 | the errors are in fetch order, one per failed recording, each naming its title; later recordings are still processed |
| Sync.SyncRun | src/powerflow/sync.py:39-113 | an unconfigured pass makes no call and returns one error; otherwise the first call is the fetch since the watermark; a dry run never advances the watermark |
| Sync.FetchFailure | src/powerflow/sync.py:69-73 | a fetch that raises gives exactly one "Failed to fetch from Pocket" error: no check, no page, no watermark |
| Sync.EmptyFetch | src/powerflow/sync.py:75-76 | an empty fetch leaves every count at 0 and makes no check |
| Sync.CheckFailure | src/powerflow/sync.py:80-86 | a check that raises gives exactly one "Failed to check existing items" error after the fetch and the check, and no page |
| Sync.SyncLoop | src/powerflow/sync.py:78-111 | after the fetch and the check, the calls and counts are the loop's; the watermark advances iff the run is not dry and created + skipped > 0 |
| Sync.LocalInstant | src/powerflow/config.py:80 | the local wall clock, read as UTC, lies `offset` seconds after the instant the pass ended |
| Sync.WatermarkRead | src/powerflow/sync.py:12-66 | the next pass reads the stored stamp back with `parse_last_sync` |
| Sync.NaiveReadsAsUtc | src/powerflow/sync.py:17-20 | a naive stamp reads as the instant its digits name in UTC, as does the same stamp with "Z" or "+00:00" |
| Sync.EntryDated | src/powerflow/pocket.py:241-247 | a list entry with an id is dated by its `createdAt` stamp |
| Sync.LocalWatermarkDropsWindow | src/powerflow/config.py:80 | for every positive UTC offset, the stored watermark reads back `offset` seconds after the pass ended, and every entry created in that window is dropped by the next fetch |
| Sync.LocalWatermarkDropsLaterRecording | src/powerflow/config.py:80 | the window is never empty: an entry dated at the local wall-clock reading is dropped |
| Sync.TwoHoursEast | src/powerflow/config.py:80 | a clock two hours east of UTC satisfies the window's premise: 08:30 UTC reads locally as 10:30 |
| Sync.UtcWatermarkKeepsLaterRecordings | src/powerflow/sync.py:12-23 | a watermark stamped in UTC reads back as the instant the pass ended, and every entry with an id created after it passes the next filter |
| Sync.SyncRecordings | src/powerflow/sync.py:89-107 | the loop returns the counts and `create_page` calls of the loop specification |
| Sync.BuildPage | src/powerflow/sync.py:98-101 | the page is built from the properties, the body and the icon, or fails as building any of them does |
| Sync.Pass | src/powerflow/sync.py:55-107 | the imperative pass returns the run specification on the stored watermark |
| Sync.Sync | src/powerflow/sync.py:39-113 | the result and calls of the pass; when it advances, the configuration holds the local wall-clock stamp as written and is saved; otherwise configuration and file are unchanged |
| Sync.SyncedDropsWindow | src/powerflow/sync.py:110-111 | after `Sync` advanced the watermark, every recording created in the `offset` seconds after the pass is dropped by the next fetch |
| Sync.SyncCorrected | src/powerflow/sync.py:39-113 | the same pass, stamping the UTC time of the end of the pass, marked as such |
| Sync.SyncedCorrectedKeepsLater | src/powerflow/sync.py:110-111 | after the corrected pass advanced the watermark, every recording with an id created after the pass passes the next fetch |
| Sync.SyncStamping | src/powerflow/sync.py:109-111 | the watermark and creation stamp are written only when the pass advances |
| Sync.PendingCount | src/powerflow/sync.py:115-142 | 0 when unconfigured, when the fetch raises or when it is empty; all fetched recordings when the check raises; otherwise their number minus the number of keys Notion returns |
| Sync.KnownIsOverlap | src/powerflow/sync.py:92-94 | with distinct recordings, skipped is the number of their keys that Notion holds |
| Sync.RunResult | src/powerflow/sync.py:88-113 | a pass that reaches the loop reports the loop's counts |
| Sync.PendingIsDryRunCreated | src/powerflow/sync.py:115-142 | when Notion returns only keys of the distinct fetched recordings, the pending count is what a dry run reports as created, and at most the number fetched |
| Sync.OverlapBound | src/powerflow/sync.py:142 | Notion cannot hold more of the keys than there are recordings |
| Models.PocketId | src/powerflow/models.py:80-83 | the dedup key is "pocket:recording:" followed by exactly the recording id |
| Models.PocketIdInjective | src/powerflow/models.py:80-83 | two recordings share a dedup key iff they share an id |
| Models.IsSummaryCompleteIff | src/powerflow/models.py:59-78 | a recording is complete iff its summary is non-blank, or it has an action item, or it has a mind-map node |
| Models.FirstSentence | src/powerflow/models.py:92 | the first `.`-separated piece of the summary holds no `.` |
| Models.DisplayTitleOrder | src/powerflow/models.py:85-96 | the trimmed title when it is non-blank; otherwise, with a summary, its trimmed first sentence, cut to 57 characters plus "..." when longer than 60; otherwise "Untitled Recording" |
| Models.IconIsFirstMatch | src/powerflow/models.py:98-107 | the icon is the emoji of the first tag whose trimmed lower-case form is in the emoji table, and the default microphone when there is none |
| Models.GetIcon | src/powerflow/models.py:98-107 | the tag loop returns the first-match icon |
| Models.NormalizeIsLowerStrip | src/powerflow/models.py:104-130 | tags are normalised by trimming then lower-casing |
| Models.DedupTagsCover | src/powerflow/models.py:126-133 | the kept tags' lower-case forms are exactly the non-empty normalised forms of the input tags |
| Models.DedupTagsDistinct | src/powerflow/models.py:127-133 | no two kept tags share a normalised form |
| Models.DedupTagsFirstSpelling | src/powerflow/models.py:129-133 | each kept tag is the trimmed spelling of the first input tag of its form, and the kept tags follow input order |
| Models.UniqueTagsMeaning | src/powerflow/models.py:126-133 | the de-duplicated tags cover every non-empty normalised form once, in first-occurrence order, with their first spelling |
| Models.UniqueTags | src/powerflow/models.py:127-133 | the `seen`/`unique_tags` loop returns the de-duplicated tags |
| Models.ToNotionProperties | src/powerflow/models.py:109-137 | the property-building steps produce the property specification |
| Models.PropertiesLookup | src/powerflow/models.py:109-137 | each property name maps to the tags multi-select when tags remain and are mapped, else to the URL when present and mapped, else to the Pocket id, else to the title; any other name is absent |
| Models.PropertiesAlwaysNamed | src/powerflow/models.py:113-119 | the title and Pocket id properties are always present, named "Name" and "Inbox ID" unless the map renames them |
| Models.PropertiesDefault | src/powerflow/models.py:109-119 | with the minimal map, exactly the two required properties are emitted |
| Models.TodoText | src/powerflow/models.py:241-245 | the to-do text starts with the label and is longer exactly when a priority or a due date is given |
| Models.Todos | src/powerflow/models.py:239-246 | one to-do per action item |
| Models.TranscriptPreview | src/powerflow/models.py:284-287 | at most 500 characters plus "...": short transcripts unchanged, longer ones cut to 500 characters followed by "..." |
| Models.ToNotionChildren | src/powerflow/models.py:205-298 | the section-appending method returns the page body specification |
| Models.SummaryBlocks | src/powerflow/models.py:230-234 | the summary blocks are the markdown blocks of a given summary |
| Models.ActionBlocks | src/powerflow/models.py:236-251 | an "Action Items" heading then the to-dos, only when there are action items |
| Models.MindMapToggle | src/powerflow/models.py:253-257 | a mind-map toggle only when the flattened tree is non-empty |
| Models.TodoBlocks | src/powerflow/models.py:239-246 | the to-do loop returns one unchecked to-do per item in order |
| Models.SourceDetails | src/powerflow/models.py:262-292 | duration, capture date, link and transcript children, each only when present |
| Models.SectionsNoDivider | src/powerflow/models.py:228-257 | the summary, action and mind-map sections hold no divider |
| Models.PageBodyLayout | src/powerflow/models.py:228-298 | the body is summary, action section, mind-map toggle, exactly one divider, then a source toggle only when it has children |
| Models.ActionSectionTodos | src/powerflow/models.py:246-251 | the action section opens with the level-3 heading, and its i-th to-do is the unchecked text of item i |
| Models.ReportEntries | src/powerflow/models.py:315-320 | the report has two to four entries |
| Models.Report | src/powerflow/models.py:315-321 | the report starts with "Created: " |
| Models.ReportPartsShown | src/powerflow/models.py:315-321 | created and skipped always shown first; "Pending" shown iff pending > 0, "Failed" iff failed > 0 |
| Models.EntriesCaptions | src/powerflow/models.py:316-320 | the captions are distinct by their first letter and appear under the same conditions |
| MindMap.ChildIndexStep | src/powerflow/models.py:152-163 | indexing one more node appends it to its parent's child list, in input order, and leaves every other list unchanged |
| MindMap.ChildIndexSound | src/powerflow/models.py:152-163 | each child list holds, in increasing input order, only dictionary nodes whose parent is that id and which are not roots |
| MindMap.RootIndexSound | src/powerflow/models.py:152-159 | the root list holds, in increasing input order, only dictionary nodes whose id equals their parent id |
| MindMap.NotOnChain | src/powerflow/models.py:196-198 | with distinct ids, a child of the node being visited is not already on the path from its root, so `add_node` never revisits a node |
| MindMap.ParOfChild | src/powerflow/models.py:155-163 | with distinct ids, a child's parent is the node whose id its parent id names |
| MindMap.UpRoot | src/powerflow/models.py:158-159 | climbing parents from a root stays at the root |
| MindMap.VisitFacts | src/powerflow/models.py:167-198 | the visits of `add_node` below a node are distinct dictionary nodes, each reached by climbing depth minus the node's depth parents from it |
| MindMap.VisitRootsFacts | src/powerflow/models.py:200-201 | the visits of the root loop are distinct, each lying below one of the roots |
| MindMap.MindMapEachNodeOnce | src/powerflow/models.py:139-203 | with distinct ids the flattening terminates and emits each node at most once; every emitted node is a dictionary whose ancestor at its depth is a root |
| MindMap.Indent | src/powerflow/models.py:187 | the indent is four spaces per level |
| MindMap.NodeBlock | src/powerflow/models.py:169-194 | a depth-0 node is a bold bullet of its title; a deeper node is a plain bullet of 4·(depth-1) spaces, "↳ " and its title |
| MindMap.Render | src/powerflow/models.py:165-198 | one block per visit, in visit order |
| MindMap.BuildMindMapTree | src/powerflow/models.py:139-203 | the method returns the blocks of the pre-order visit from the roots |
| MindMap.IndexNodes | src/powerflow/models.py:148-163 | the indexing loop builds exactly the child lists and the root list |
| MindMap.AddNode | src/powerflow/models.py:167-198 | the recursive `add_node` appends exactly the rendered visits below its node |
| Blocks.SliceTo | src/powerflow/blocks.py:23 | `text[:n]` is a prefix of the text, of length `n` clipped to the text for a non-negative bound |
| Blocks.SafeText | src/powerflow/blocks.py:17-23 | empty stays empty, text within the limit is unchanged, longer text is cut to `max_length - 3` characters followed by "..." and so has exactly `max_length` characters |
| Blocks.SafeTextBounded | src/powerflow/blocks.py:17-23 | no run produced with the default limit exceeds 1900 characters |
| Blocks.CreateRichText | src/powerflow/blocks.py:39-62 | the content is the truncated text; a link is attached iff one is given and non-empty; annotations are present iff bold, italic or a non-default colour is asked for, and then carry those values |
| Blocks.Plain | src/powerflow/blocks.py:39-62 | a run with default arguments has neither link nor annotations |
| Blocks.CreateCallout | src/powerflow/blocks.py:65-81 | a callout with the given icon and colour and one plain run |
| Blocks.CreateDivider | src/powerflow/blocks.py:84-86 | a divider block |
| Blocks.CreateToggle | src/powerflow/blocks.py:89-97 | a toggle with one plain title run and exactly the given children |
| Blocks.CreateBullet | src/powerflow/blocks.py:100-119 | with a non-empty prefix, a bold "prefix: " run followed by the plain text; otherwise the plain text alone |
| Blocks.CreateParagraph | src/powerflow/blocks.py:122-129 | one run carrying the colour and link |
| Blocks.CreateQuote | src/powerflow/blocks.py:132-140 | a quote with one plain run and the colour |
| Blocks.CreateToDo | src/powerflow/blocks.py:143-152 | a to-do with one plain run and the checked flag |
| Blocks.CreateHeading | src/powerflow/blocks.py:155-167 | the level is clamped into 1..3: kept inside, 1 below, 3 above |
| Blocks.FormatDuration | src/powerflow/blocks.py:26-36 | zero and negative durations read "Unknown"; a positive duration starts with a digit |
| Blocks.FormatDurationRoundTrip | src/powerflow/blocks.py:26-36 | reading the rendered "0:SS", "M:SS" or "H:MM:SS" back gives the original number of seconds |
| Blocks.FormatDurationExamples | src/powerflow/blocks.py:27 | 45 s, 125 s and 3725 s render as "0:45", "2:05" and "1:02:05"; -1 renders as "Unknown" |
| Blocks.GetPriorityStyle | src/powerflow/blocks.py:170-177 | the style is always one of the four table entries, and the no-priority entry when no priority is given |
| Blocks.PriorityStyleIgnoresCase | src/powerflow/blocks.py:173-176 | the style of a priority does not depend on its letter case |
| Blocks.NextMatchLeftmost | src/powerflow/blocks.py:190-193 | the match found is the leftmost occurrence of the bold pattern; none is skipped |
| Blocks.ParseBoldSegments | src/powerflow/blocks.py:180-216 | the scan loop returns exactly the runs the segment specification gives |
| Blocks.BoldRuns | src/powerflow/blocks.py:212-216 | the result is never empty: without any piece the whole text is one run |
| Blocks.RunsFromSegments | src/powerflow/blocks.py:193-210 | the runs are the text segments, each rendered plain or bold |
| Blocks.SegmentsReassemble | src/powerflow/blocks.py:190-210 | putting the `**` markers back around the bold segments restores the input |
| Blocks.SegmentsWellFormed | src/powerflow/blocks.py:190-210 | every segment is non-empty, and every bold one is free of `*` |
| Blocks.BoldRunsContents | src/powerflow/blocks.py:193-210 | when no piece exceeds the limit, run k holds segment k's text and is annotated iff the segment is bold |
| Blocks.BoldExample | src/powerflow/blocks.py:183-184 | "a **b** c" splits into "a ", bold "b" and " c" |
| Blocks.LineBlock | src/powerflow/blocks.py:246-283 | a line yields no block iff it is blank, and otherwise a heading, a bullet or a paragraph |
| Blocks.LineBlockKinds | src/powerflow/blocks.py:254-283 | "### " makes a level-3 heading, a "- " after indentation a bullet, anything else a paragraph of the line's bold runs |
| Blocks.LineToBlock | src/powerflow/blocks.py:246-283 | the loop body computes the block the line specification gives |
| Blocks.BlocksOfLines | src/powerflow/blocks.py:246-285 | the per-line loop returns the line blocks in line order |
| Blocks.ParseMarkdownToBlocks | src/powerflow/blocks.py:229-285 | an empty summary gives no blocks; otherwise the blocks of the stripped summary's lines |
| Blocks.LineBlocksCount | src/powerflow/blocks.py:250-251 | one block per non-blank line |
| Pocket.DaysInMonth | src/powerflow/pocket.py:55 | a month has 28 to 31 days, as the calendar validation of `fromisoformat` requires |
| Pocket.ParseDate | src/powerflow/pocket.py:55 | a parsed `YYYY-MM-DD` is a valid calendar date |
| Pocket.ParseClock | src/powerflow/pocket.py:55 | a parsed `HH:MM:SS` is a valid time of day |
| Pocket.ParseOffset | src/powerflow/pocket.py:55-58 | no offset means offset 0 (a naive time taken as UTC); a parsed offset is less than a day in magnitude |
| Pocket.ParseIso | src/powerflow/pocket.py:55 | the ISO reader rejects strings shorter than a full date and clock |
| Pocket.ParseDatetime | src/powerflow/pocket.py:48-61 | None and "" give None |
| Pocket.ParseDatetimeJson | src/powerflow/pocket.py:247-284 | a non-string JSON value gives None; a string is parsed as `parse_datetime` does |
| Pocket.ZMeansUtc | src/powerflow/pocket.py:53-55 | a trailing "Z" reads exactly as "+00:00" |
| Pocket.OffsetShifts | src/powerflow/pocket.py:55 | a stamp with an offset denotes its naive reading minus the offset |
| Pocket.NaiveMeansUtc | src/powerflow/pocket.py:53-59 | a naive stamp, the same stamp with "+00:00" and with "Z" all denote the same instant, and it parses |
| Pocket.NaiveIsPlusZero | src/powerflow/pocket.py:56-58 | a naive stamp reads as UTC |
| Pocket.ParseDatetimeExample | src/powerflow/pocket.py:48-61 | "2026-02-14T10:30:00Z" is the instant 1771065000 |
| Pocket.TagName | src/powerflow/pocket.py:297-298 | a kept tag name is non-empty; a string tag is kept iff non-empty |
| Pocket.TagNames | src/powerflow/pocket.py:294-299 | at most one name per tag entry, none of them empty |
| Pocket.DictsOnly | src/powerflow/pocket.py:327-329 | only dictionary entries remain, never more than the input |
| Pocket.MakeAction | src/powerflow/pocket.py:331-342 | the label defaults to "Untitled Action" when absent and is the given string otherwise; a priority is kept iff it is a string |
| Pocket.ActionItems | src/powerflow/pocket.py:323-343 | one action item per dictionary entry, in order |
| Pocket.ParseRecording | src/powerflow/pocket.py:276-359 | None iff the id is missing or falsy; otherwise the id is kept, the Pocket URL is the web URL, "/recordings/" and the id, and no tag is empty |
| Pocket.TitleFallback | src/powerflow/pocket.py:283 | the title is `title` when it is a non-empty string and falls back to `name` when `title` is falsy |
| Pocket.SummaryFallback | src/powerflow/pocket.py:307-325 | without `summarizations` there is no summary, no action item and no mind map; otherwise the summary is `markdown`, falling back to `summary` |
| Pocket.ActionEntries | src/powerflow/pocket.py:323-343 | the action items are one per dictionary in `actions`, in order |
| Pocket.TagsFromEntries | src/powerflow/pocket.py:293-299 | the tags are the kept names of the tag entries |
| Pocket.EntryStep | src/powerflow/pocket.py:240-266 | a non-dictionary entry stops the fetch; an ineligible entry (no id, or a parsed date at or before `since`) is passed over; the details of an eligible entry are requested, and a parsed recording is collected |
| Pocket.FetchFromSound | src/powerflow/pocket.py:217-274 | the details requested are exactly the eligible entries, in list order; on success the result is what those requests yield, at most one recording per entry |
| Pocket.FetchRecordings | src/powerflow/pocket.py:217-274 | the fetch loop makes exactly the specified requests in increasing list order, asks for every eligible entry when it succeeds, and returns the collected recordings, never more than the list |
| Pocket.FetchLoop | src/powerflow/pocket.py:240-266 | the entry loop computes the fetch specification |
| Notion.RetryAfter | src/powerflow/notion.py:108-111 | a `Retry-After` delay is taken only from a 429 HTTP error carrying a non-empty header |
| Notion.AttemptStep | src/powerflow/notion.py:89-162 | a success ends the loop with the response; without a `Retry-After`, a failure is retried iff it is retriable and attempts remain, and the retry carries that error |
| Notion.Request | src/powerflow/notion.py:84-167 | the attempt loop returns the outcome and the send/sleep trace of the request specification |
| Notion.RequestCallsBounded | src/powerflow/notion.py:84 | no more requests are sent than attempts remain |
| Notion.NotionAtMostThree | src/powerflow/notion.py:84 | `_request` sends at most three requests |
| Notion.NonRetriableRaisedAtOnce | src/powerflow/notion.py:120-146 | a non-retriable first failure is raised after one request and no sleep |
| Notion.RateLimitedThroughout | src/powerflow/notion.py:108-166 | when every attempt is a 429 with `Retry-After`, each still uses up an attempt, and the loop ends by raising the last error |
| Notion.ReadPage | src/powerflow/notion.py:183-186 | a reply page is read iff it is an object whose `results` (default empty) can be iterated as `list.extend` iterates it: a list gives its items, a string its characters, an object its keys; null, a number or a bool raise |
| Notion.Payload | src/powerflow/notion.py:177-217 | the cursor is sent iff the base already has one or the cursor is truthy |
| Notion.PagesCursors | src/powerflow/notion.py:176-186 | the first request carries the given cursor and each later one the `next_cursor` of the reply before it |
| Notion.PagesContinue | src/powerflow/notion.py:176-185 | every reply except the last one read says `has_more` |
| Notion.PagesConcatenate | src/powerflow/notion.py:176-186 | a finished pagination returns the results of the replies read, concatenated in page order, and stops at the first reply without `has_more` |
| Notion.FirstRequestHasNoCursor | src/powerflow/notion.py:174-217 | the first request is the bare base payload, with no cursor |
| Notion.QueryBase | src/powerflow/notion.py:213-215 | a query payload has the page size, and a filter iff one is truthy, and no cursor |
| Notion.SearchBase | src/powerflow/notion.py:177-179 | a search payload filters for databases and has no cursor |
| Notion.SearchDatabases | src/powerflow/notion.py:169-189 | the search loop computes the pagination specification from the search base |
| Notion.QueryDatabase | src/powerflow/notion.py:200-225 | the query loop computes the pagination specification from the query base |
| Notion.Paginate | src/powerflow/notion.py:176-222 | the `while has_more` loop computes the pagination specification |
| Notion.ConnectionOk | src/powerflow/notion.py:397-405 | the connection test is True iff the search finishes, False on a request exception, and raises any other error |
| Notion.ChunksPartition | src/powerflow/notion.py:265-268 | the ids are split in order into ⌈n/100⌉ chunks of 1 to 100 ids, all full but the last, and the chunks concatenate back to the ids |
| Notion.FilterNamesEachId | src/powerflow/notion.py:271-276 | a chunk's OR filter has one `rich_text.equals` clause on the property per id, and those ids are exactly the chunk |
| Notion.NoRichTextNoId | src/powerflow/notion.py:282-285 | a page whose property has no rich text contributes no id |
| Notion.PagesIdsMeaning | src/powerflow/notion.py:281-285 | reading the ids of the pages succeeds iff it succeeds on each page, and then yields the ids found on the pages |
| Notion.ExtractIds | src/powerflow/notion.py:281-285 | the page loop computes the ids found on the pages |
| Notion.BatchCheckExisting | src/powerflow/notion.py:241-288 | the chunk loop computes the check specification; an empty id list sends no query and returns the empty set |
| Notion.CheckChunksFilters | src/powerflow/notion.py:267-278 | the i-th query sent carries the OR filter of the i-th chunk; a successful check sends one query per chunk |
| Notion.AllFoundMembers | src/powerflow/notion.py:264-285 | an id is found iff some chunk's query finds it |
| Notion.CheckChunksFound | src/powerflow/notion.py:264-288 | a successful check returns the union of the ids found for every chunk |
| Notion.CreatePagePayload | src/powerflow/notion.py:308-315 | the payload always has the parent database and the properties; children appear iff non-empty; the icon iff given |
| Notion.PropertyConfigType | src/powerflow/notion.py:337-356 | the six known types declare themselves; any other type becomes rich text; only the select kinds carry empty options |
| Notion.PropertyPayloadShape | src/powerflow/notion.py:358-362 | the PATCH body holds exactly the one new property and its config |
| Notion.MissingMembers | src/powerflow/notion.py:387-388 | a required property is scheduled iff its name is not in the schema |
| Notion.MissingDistinct | src/powerflow/notion.py:387-388 | the scheduled properties have distinct names |
| Notion.CreateAllSends | src/powerflow/notion.py:387-390 | the i-th PATCH sent creates the i-th missing property |
| Notion.CreateAllCreates | src/powerflow/notion.py:387-395 | when every creation succeeds, the result is the names of all missing properties, in order |
| Notion.CreateMissing | src/powerflow/notion.py:385-390 | the creation loop computes the creation specification |
| Notion.EnsurePropertiesExist | src/powerflow/notion.py:368-395 | a failure to read the schema is raised with nothing sent; otherwise exactly the missing properties are created, in order |
| Notion.FormatOne | src/powerflow/notion.py:415-431 | an entry without an id raises; the id and URL are copied; an empty title becomes "Untitled"; a non-emoji icon becomes the page emoji |
| Notion.FormatDatabasesForDisplay | src/powerflow/notion.py:407-432 | one entry per database, in order, or the first entry's error |
| Configuration.DefaultsShape | src/powerflow/config.py:15-44 | a fresh configuration is not configured and has never synced; its property map sends the title to "Name", the Pocket id to "Inbox ID", and holds no tags entry |
| Configuration.DecodeOpt | src/powerflow/config.py:19-44 | a string-or-null field decodes to None exactly when it holds JSON null |
| Configuration.DecodeEncodeOpt | src/powerflow/config.py:54-76 | reading back a saved optional string gives the same value |
| Configuration.DecodeEncodeMap | src/powerflow/config.py:21-71 | reading back a saved property map gives the same map, in the same order |
| Configuration.Decode | src/powerflow/config.py:52-61 | loading crashes exactly when the document is not a JSON object, because `data.get` then raises |
| Configuration.LoadFrom | src/powerflow/config.py:47-61 | a missing or corrupt file loads as the defaults |
| Configuration.DecodeEncodeNotion | src/powerflow/config.py:55-71 | the saved Notion section reads back as the same database id, name and property map |
| Configuration.DecodeEncodePocket | src/powerflow/config.py:56-72 | the saved Pocket section reads back as the same watermark |
| Configuration.DecodeEncode | src/powerflow/config.py:47-76 | loading what `save` writes gives back the whole configuration |
| Configuration.ConfigFile.constructor | src/powerflow/config.py:12 | the configuration file starts in the given state |
| Configuration.Config.constructor | src/powerflow/config.py:38-44 | a new configuration holds the defaults |
| Configuration.Config.FromValue | src/powerflow/config.py:54-58 | the configuration built from loaded fields holds exactly those fields |
| Configuration.Config.Save | src/powerflow/config.py:63-76 | the creation stamp is set to `now` only when it is missing or empty; every other field is unchanged and the file then loads as the configuration |
| Configuration.Config.UpdateLastSync | src/powerflow/config.py:78-81 | the watermark becomes `now`, the database and property map are unchanged, an unset or empty creation stamp becomes `now` and any other is kept, and the file holds the encoded configuration, which loads back unchanged |
| Configuration.Load | src/powerflow/config.py:47-61 | `Config.load` returns a new configuration holding what the file decodes to, and fails only when the document is not an object |
| Configuration.SaveThenLoad | src/powerflow/config.py:47-76 | saving then loading preserves the database, property map and watermark |
| Daemon.IntervalUnits | src/powerflow/daemon.py:39-53 | "nh" and "nH" give n·60 minutes; "nm", "nM" and a bare "n" give n minutes |
| Daemon.SuffixedInterval | src/powerflow/daemon.py:47-50 | digits followed by an h (either case) give hours in minutes, by an m give minutes |
| Daemon.BareInterval | src/powerflow/daemon.py:51-53 | bare digits give that many minutes |
| Daemon.IntervalIgnoresCase | src/powerflow/daemon.py:45 | the interval does not depend on letter case |
| Daemon.BlankInterval | src/powerflow/daemon.py:45-53 | a blank interval is a `ValueError` |
| Daemon.UnitWithoutNumber | src/powerflow/daemon.py:47-50 | a unit with no number is a `ValueError` |
| Daemon.DoSync | src/powerflow/daemon.py:159-190 | an error summary iff a key is missing, the configuration is not configured, or the engine raises; an escaping exception iff `Config.load` crashes; otherwise the engine's counts with its first three errors |
| Daemon.SummaryJson | src/powerflow/daemon.py:170-190 | the result dict has an `error` key iff the pass failed |
| Daemon.EngineFailureIsSuccess | src/powerflow/daemon.py:181-243 | a failed fetch comes back inside the counts, so the daemon treats the pass as a success and resets its failure counter |
| Daemon.Decide | src/powerflow/daemon.py:226-258 | a failure raises the counter by one and waits 60 s while it is at most 2, else the interval with a failure notice; a success resets it, waits the interval, and notifies only when something was created |
| Daemon.Streak | src/powerflow/daemon.py:226-243 | the trailing run of failed passes |
| Daemon.CounterIsStreak | src/powerflow/daemon.py:215-243 | the failure counter after a sequence of passes is the number of trailing failed passes |
| Daemon.RetryThenBackOff | src/powerflow/daemon.py:231-241 | the first two failures in a row retry after 60 s; from the third on the daemon waits the interval and notifies |
| Daemon.RecordLookups | src/powerflow/daemon.py:261-266 | after a pass the state holds the new `last_sync`, `last_result`, `consecutive_failures` and `next_sync`, and every other key is kept |
| Daemon.AllSleeps | src/powerflow/daemon.py:269-272 | each sleep lasts more than 0 and at most 10 seconds |
| Daemon.SleepsAddUp | src/powerflow/daemon.py:269-272 | without a stop, the sleeps add up to exactly the remaining wait |
| Daemon.WaitIsPrefix | src/powerflow/daemon.py:269-272 | a stop cuts the sleeps to a prefix of the full schedule, and no sleep starts after it |
| Daemon.FullWait | src/powerflow/daemon.py:269-272 | when no stop arrives during the wait, the sleeps add up to `wait_seconds` |
| Daemon.LoadState | src/powerflow/daemon.py:79-86 | a missing or unreadable state file loads as an empty dict |
| Daemon.StoppedRunsNoPass | src/powerflow/daemon.py:218 | once stopped, no further pass starts |
| Daemon.EscapeEndsRun | src/powerflow/daemon.py:217-281 | an exception escaping a pass ends the loop |
| Daemon.RunSpecStart | src/powerflow/daemon.py:194-213 | a run first saves the running state and sends the start notice, then runs the passes |
| Daemon.RunUnfold | src/powerflow/daemon.py:218-272 | one pass: sync, decide, save the state, notify if asked, wait, and go on while running |
| Daemon.PowerFlowDaemon.Observe | src/powerflow/daemon.py:154-157 | a shutdown signal clears `running`, which never becomes true again |
| Daemon.PowerFlowDaemon.Wait | src/powerflow/daemon.py:268-272 | the wait loop sleeps the specified schedule and leaves `running` false iff a stop arrived |
| Daemon.PowerFlowDaemon.RunPass | src/powerflow/daemon.py:220-272 | one pass of the loop produces the events of the pass specification and the new counter |
| Daemon.PowerFlowDaemon.Passes | src/powerflow/daemon.py:218-272 | the `while self.running` loop produces the run specification |
| Daemon.PowerFlowDaemon.Run | src/powerflow/daemon.py:192-281 | a run produces the specified events and reports whether a pass raised, which `run()` re-raises; either way it ends with the PID file removed and the state replaced by the stopped state |
| Daemon.IsRunning | src/powerflow/daemon.py:110-128 | running iff the PID file holds an integer naming a live process; a stale or unreadable PID file is removed |
| Daemon.StartDaemon | src/powerflow/daemon.py:284-320 | 1 while another instance is alive, which keeps its PID file; otherwise a stale PID file is removed, and in the foreground the daemon runs to its end, giving 0, or no code when a pass raised; in the background 1 when the fork fails, else 0 |
| Daemon.EscapeIsLastPass | src/powerflow/daemon.py:218-281 | a run that escapes does so at the pass after its last completed one, whose sync raised |
| Daemon.NoRaiseNoEscape | src/powerflow/daemon.py:218-281 | a run none of whose syncs raises ends only on the shutdown signal |
| Reliability.DefaultRetriable | src/powerflow/utils/reliability.py:52-100 | under the default configuration an error is retried iff it is a connection error, a timeout, a broken chunked transfer, or an HTTP error whose response status is 429, 500, 502, 503 or 504 |
| Reliability.CalculateBackoff | src/powerflow/utils/reliability.py:103-120 | the delay never exceeds `max_delay` and is either `max_delay` or `base_delay * exponential_base^(attempt-1)` |
| Reliability.BackoffMonotone | src/powerflow/utils/reliability.py:119-120 | with a growth factor of at least one, a later retry never waits less than an earlier one |
| Reliability.DefaultBackoffs | src/powerflow/utils/reliability.py:55-58 | the default schedule waits 1, 2 and 4 seconds and is capped at 60 seconds |
| Reliability.WithRetry | src/powerflow/utils/reliability.py:162-208 | the wrapper loop returns the outcome and the call/hook/sleep trace the retry specification gives |
| Reliability.RetryCallsBounded | src/powerflow/utils/reliability.py:167-188 | the wrapped function is called at most `max_attempts` times |
| Reliability.NonRetriablePropagates | src/powerflow/utils/reliability.py:173-179 | a non-retriable failure of the first call is raised after that single call, with no sleep |
| Reliability.ExhaustedReraisesLast | src/powerflow/utils/reliability.py:181-188 | when every call fails retriably, exactly `max_attempts` calls are made and the last error is raised |
| Reliability.HookBeforeEachSleep | src/powerflow/utils/reliability.py:190-203 | every sleep comes right after an `on_retry(error, attempt)` call for the same attempt |
| Reliability.TruncToInt | src/powerflow/utils/reliability.py:245 | `int(x)` truncates toward zero on both signs |
| Reliability.RateLimiter.constructor | src/powerflow/utils/reliability.py:233-248 | the bucket starts full; the burst size defaults to `int(calls_per_second)` |
| Reliability.RateLimiter.Refill | src/powerflow/utils/reliability.py:250-258 | tokens grow by elapsed time times the rate, capped at the burst size, and the clock moves to `now` |
| Reliability.RateLimiter.TryAcquire | src/powerflow/utils/reliability.py:260-281 | a non-blocking acquire succeeds iff the refilled bucket holds a whole token, and then takes exactly one |
| Reliability.RateLimiter.AcquireStepAt | src/powerflow/utils/reliability.py:270-297 | one pass of the acquire loop takes a token, refuses, times out once the deadline has passed, or waits exactly `(1 - tokens) / calls_per_second`, cut to the time left before the deadline |
| Reliability.RateLimiter.AcquireBurst | src/powerflow/utils/reliability.py:276-281 | at one instant the i-th non-blocking acquire succeeds iff at least i+1 tokens were available |
| Reliability.FreshBurst | src/powerflow/utils/reliability.py:233-281 | a fresh limiter grants exactly `burst_size` immediate requests and refuses the next |
| Reliability.AsTuple | src/powerflow/utils/reliability.py:370-376 | the read timeout is the full duration; the connect timeout is the smaller of 10 seconds and the duration |
| Cli.FirstOfTypeFinds | src/powerflow/cli.py:321-371 | a candidate search returns nothing exactly when no candidate has the wanted type in the schema, and otherwise the first candidate that has it |
| Cli.FindField | src/powerflow/cli.py:321-333 | the `for name in …: if …: break` loop returns what the candidate search specifies |
| Cli.PlanMapping | src/powerflow/cli.py:310-371 | the built `existing_mappings` and `to_create` lists are exactly the title entry, the Priority entry when Priority is a select, then one entry per search that found a field, and one creation per failed pocket_id, context, source or tags search, in source order |
| Cli.AssignAll | src/powerflow/cli.py:422-429 | the assignment loop leaves the map every `field_mapping` entry produces in turn |
| Cli.BuildPropertyMap | src/powerflow/cli.py:410-433 | the saved map starts from title → "Name", applies the existing then the created entries, and adds the pocket_id fallback only when no entry set it |
| Cli.DeriveSetup | src/powerflow/cli.py:306-433 | setup's to-create list and property map are those the schema determines |
| Cli.LookupAssign | src/powerflow/cli.py:422-429 | after the assignments a key holds the field of the last entry mapped to it, or its earlier value when no entry maps to it |
| Cli.LastForExisting | src/powerflow/cli.py:314-368 | the existing entries set priority only when Priority is a select, and every other searched key to exactly what its search found |
| Cli.LastForCreated | src/powerflow/cli.py:335-371 | the created entries set pocket_id, context, source_url and tags to "Inbox ID", "Action Context", "Source" and "Tags" exactly when their search failed, and nothing else |
| Cli.ExpectedSplit | src/powerflow/cli.py:410-429 | each key's final value comes from a creation, else from a found field, else (title only) from the starting map, and never from two of them |
| Cli.AssignedLookup | src/powerflow/cli.py:410-429 | before the fallback, the map holds for each key exactly the expected property |
| Cli.MappingRules | src/powerflow/cli.py:306-433 | title maps to "Name"; pocket_id, context, source_url and tags always map, to the first candidate of the exact type or else to the created default; priority and due_date map exactly when a field of their type exists; no other key is written |
| Cli.ExpectedKeys | src/powerflow/cli.py:313-371 | a key is mapped exactly when it is one of the seven configuration keys, with priority and due_date only when their field was found |
| Cli.PocketIdFallbackUnused | src/powerflow/cli.py:432-433 | pocket_id is always set before the fallback check, so the fallback never fires |
| Cli.CreationRules | src/powerflow/cli.py:335-371 | a key is scheduled for creation exactly when it is pocket_id, context, source_url or tags and its search failed, and a scheduled key was never also found |
| Cli.TypeAfterCreate | src/powerflow/cli.py:398-404 | after `create_property` runs for each entry, a property has the type of its last creation, or its old type |
| Cli.CreatedTypes | src/powerflow/cli.py:335-404 | setup only ever creates "Inbox ID", "Action Context", "Source" and "Tags", each with the type its search required |
| Cli.SearchFindsCreated | src/powerflow/cli.py:329-371 | when a search failed and its default is its first candidate, the search finds the created default on the next run |
| Cli.SearchKeepsFound | src/powerflow/cli.py:329-371 | when a search succeeded, the creations change no candidate's type, so it finds the same field on the next run |
| Cli.PriorityAfter | src/powerflow/cli.py:317 | the creations never change whether Priority is a select |
| Cli.DueAfter | src/powerflow/cli.py:321-324 | the creations never change what the due-date search finds |
| Cli.ContextAfter | src/powerflow/cli.py:341-349 | the creations never change what the context search finds, because "Action Context" is not among its candidates |
| Cli.PocketIdAfter | src/powerflow/cli.py:329-337 | on the next run the pocket_id search finds the field it found, or the created "Inbox ID" |
| Cli.SourceAfter | src/powerflow/cli.py:353-360 | on the next run the source search finds the field it found, or the created "Source" |
| Cli.TagsAfter | src/powerflow/cli.py:364-371 | on the next run the tags search finds the field it found, or the created "Tags" |
| Cli.SetupIdempotent | src/powerflow/cli.py:306-433 | running setup again on the database it completed saves the same property map key by key, and only the context property can be scheduled for creation again |
| Cli.Classify | src/powerflow/cli.py:146-155 | "401"/"Unauthorized" means an invalid key; otherwise "403"/"Forbidden" means no permission; otherwise "connection"/"resolve" in lower case means no connection; otherwise an API error carrying the error text |
| Cli.MessageMark | src/powerflow/cli.py:148-155 | every message has more than four characters, and its first and fifth characters identify the kind of failure |
| Cli.MessageHead | src/powerflow/cli.py:148-155 | a message is an API-error message exactly when it starts with the "API e" marks |
| Cli.ApiErrorDetail | src/powerflow/cli.py:155 | an API-error message carries the full error text after its 11-character prefix |
| Cli.MessageDeterminesProblem | src/powerflow/cli.py:146-178 | two equal messages for the same service come from the same failure kind and the same error text |
| Cli.VerifyKey | src/powerflow/cli.py:142-155 | the key is accepted with an empty message exactly when the probe returned; otherwise the non-empty message of the classified error |
| Cli.VerifyNotionKey | src/powerflow/cli.py:158-178 | the Notion key is accepted exactly when `search_databases` returns; otherwise the message classifies its error |
| Cli.VerifyPocketKeyAsWritten | src/powerflow/cli.py:135-155 | as written, the Pocket key check is never accepted |
| Cli.PocketCheckAlwaysFails | src/powerflow/cli.py:144 | even when listing recordings would succeed, the check as written fails while the corrected check accepts the key |
| Cli.VerifyPocketKey | src/powerflow/cli.py:135-155 | corrected: the Pocket key is accepted exactly when listing recordings returns; otherwise the message classifies its error |
| Cli.CmdSync | src/powerflow/cli.py:451-524 | the command raises exactly when both keys are set and loading the configuration raises; otherwise it returns 0 or 1, and 0 exactly when both keys are set, the configuration is configured, the pass returns and no item failed |
| Cli.SyncExitAgreesWithDaemon | src/powerflow/cli.py:451-524 | `sync` exits 0 exactly when a daemon pass on the same inputs records counts with no failed item |
| Cli.FetchFailureExitsZero | src/powerflow/cli.py:502-524 | a Pocket fetch that raises inside the pass counts no failed item, so `sync` exits 0 |
| Cli.Dispatch | src/powerflow/cli.py:683-717 | no argument shows the usage; the command is matched lower-cased; sync is a dry run exactly when "--dry-run" or "-n" is among the arguments; config's action defaults to "show"; daemon gets the remaining arguments; an unknown command keeps its lower-cased name |
| Cli.DispatchIgnoresCase | src/powerflow/cli.py:692 | lower-casing the command name does not change the command chosen |
| Cli.MainExit | src/powerflow/cli.py:683-725 | an unknown command returns 1; no argument, help and version return 0; a sync that raises returns 1; otherwise the sync command's own code |
| Cli.MainSyncExit | src/powerflow/cli.py:692-725 | `main` on a sync command returns 0 or 1, and 0 exactly when both keys are set, the configuration loads and is configured, the pass returns and no item failed |
| Cli.ShortDryRunFlag | src/powerflow/cli.py:697-699 | "SYNC -n" runs a dry-run sync |

## Left out

Where the code and the design description of the system disagree, the model follows the code:
- The sync pass applies no completeness filter. `is_summary_complete` is never called from `src/powerflow/sync.py`, so `pending` stays 0. The design counts incomplete recordings as pending.
- The watermark is the naive local `datetime.now()` taken after the pass (`src/powerflow/config.py:80`). Configuration.Config.UpdateLastSync gives the watermark and a first `created_at` the same `now`, where `save` reads `datetime.now()` a second time (`src/powerflow/config.py:68`), a few microseconds later. It advances only when `created + skipped > 0` and the run is not dry. The design wants the UTC time taken before the listing, advanced after every pass that is not dry. See "## Findings".
- A Pocket fetch that raises gives one error and leaves `failed` at 0, so `powerflow sync` exits 0 (`Cli.FetchFailureExitsZero`). The design counts it as one failure.
- A failed detail fetch drops that recording without an error or a count (`src/powerflow/pocket.py:253-274`).
- Neither the configuration nor the daemon state is written atomically. The file store is one abstract value that a save replaces.

Case mapping, whitespace and parsing:
- Text.Lower, Text.Title: only ASCII letters change case. Python's `str.lower()` and `str.title()` apply full Unicode case mapping. The members that lower-case or title-case inherit this: Models.UniqueTags and Models.LowerSet ("É" and "é" stay distinct tags), Models.GetIcon (a tag such as "WORK", with a Kelvin sign, does not match "work"), Daemon.ParseInterval, Cli.Dispatch, Cli.Classify and Blocks.GetPriorityStyle.
- Decode: a field the dataclass would accept with a non-string value makes the whole configuration load as the defaults. Examples are `"database_id": 123`, a `null` entry of `property_map` and `"created_at": 5`. Python keeps such values; with `database_id = 123` the configuration even counts as configured. Configuration values are strings or null in this model.
- ParseIso: only `YYYY-MM-DD?HH:MM:SS` followed by an optional fraction and an optional `±HH:MM` offset is read. Python 3.11's `fromisoformat` also accepts a date alone ("2024-05-01"), an `HH:MM` clock, an `HH` clock and offsets without a colon ("+0200"). The model treats these as unparsable (None), so such a `createdAt` never filters a recording out.
- JSON numbers are integers, and `str()` of a list or dictionary used as a tag is a simplified rendering.
- Pocket.MakeAction: a `label` of null becomes the text "None"; Python keeps None, so the to-do text is `safe_text(None)`, which is "", and with a priority or due date `None += " [..]"` raises `TypeError`, which fails that recording. A non-string `priority` such as 1 is dropped; Python prints " [1]".
- Pocket.ParseRecording: a truthy non-string `title`, `name`, `markdown` or `summary` becomes None, so the recording syncs under a fallback title; Python keeps the value, `display_title` raises on `.strip()`, and the handler's own f-string raises again, so the exception escapes `sync()`. A `nodes` value that is a number or a bool becomes no nodes; Python's `for node in self.mind_map` raises and the recording is counted as failed. A transcript `text` that is not a string (a number, a list, an object) becomes None, so the page is created without a transcript; Python keeps the value, `self.transcript[:500]` raises at `src/powerflow/models.py:285` for a number or an object, and the recording is counted as failed. A short list slices without error and reaches the page as a raw list.
- Pocket.TagName: a dictionary tag whose truthy `name` or `label` is not a string (`{"name": 5}`) becomes the text "5". Python appends the raw value (`src/powerflow/pocket.py:297`), and `tag.strip()` in `get_icon` or `to_notion_properties` (`src/powerflow/models.py:104`, `:130`) then raises, so outside a dry run the recording is counted as failed.
- Pocket.EntryStep: a truthy list id that is not a string is requested as its `str()`; in Python the log call's `recording_id[:8]` raises `TypeError` for a number, a bool or a dictionary, which is not a `RequestException`, so the whole fetch raises and the pass reports "Failed to fetch from Pocket".
- Text.ParseInt: only ASCII digits (with single underscores between them), an optional sign and surrounding whitespace are read. Python's `int()` also accepts any Unicode decimal digit ("١٥" is 15). Daemon.ParseInterval and Daemon.IsRunning inherit this.

Notion gateway:
- Notion.PageId: a `plain_text` that is not a string (a number, a boolean, null) contributes no id. Python adds it to the set, which can change `len(existing)` in the pending count.
- Notion.Request: the call to the shared rate limiter's `wait()` before each attempt (`src/powerflow/notion.py:86`) is not modelled. The limiter itself is modelled on its own as `Reliability.RateLimiter`.
- `page_exists_by_pocket_id`, `get_database` and `get_database_schema` are single requests with no logic of their own beyond the transport. The schema reaches the model as the `Cli.Schema` value.
- The HTTP transport is a parameter: the outcome of the k-th request, or the sequence of replies a paginated call receives. Timeouts, headers, sessions and JSON decoding of responses are not modelled, and neither is Pocket's own `_request` helper.

Reliability:
- Reliability.RateLimiter.AcquireStepAt: it requires `calls_per_second > 0` even for a non-blocking call, where Python would only divide by it on the blocking path. It also takes one `now` per pass of the loop, where the code reads `time.monotonic()` twice (refill and timeout check).
- The threading lock and blocking `time.sleep` of the rate limiter and retries are not modelled. Sleeps are logged events. Backoff and token arithmetic use exact `real` values, not floats.
- Reliability.WithRetry: the `on_retry` hook is logged as an event and cannot raise. In Python an exception from the hook would escape the wrapper.
- Reliability.IsRetriableError: the `isinstance` test over exception classes is a membership test of the error's class name in a set. Subclass relationships among `requests` exceptions are flattened.

Daemon and command line:
- Process plumbing is not modelled: `os.fork` (Daemon.StartDaemon models only the parent's return code; the forked child's run is not part of it), `setsid`, `dup2`, signal handlers, `os.kill` in `stop_daemon`, and `daemon_status`. The launchd plist and `launchctl` calls (`install_service`, `uninstall_service`) are not modelled either, and neither is `setup_logging` or `src/powerflow/utils/logging.py`. The daemon's notifications are logged events; the osascript call behind them is not modelled.
- PID-file and state-file I/O are abstract: the PID file is a parameter of the single-instance guard, and each state write is a logged event.
- The interactive parts of `cmd_setup` are not modelled: the prompts, the database-selection loop and the `create_property` calls. The model starts from the chosen database's schema and assumes the user accepted the creations. Printing and `print_usage` are left out too.
- `cmd_status`, `cmd_config` and `cmd_daemon` are not modelled. `Cli.MainExit` takes their exit codes as a parameter.
- Cli.MainExit: it does not distinguish `KeyboardInterrupt` from other exceptions. Both return 1.
- Cli.CmdSync: building the two clients is taken never to raise. Both constructors only store the key, open a `requests.Session` and fetch a shared rate limiter. The `except` branch around them (`src/powerflow/cli.py:488-494`) is therefore not modelled.

Content model:
- `Recording.to_checklist_text` (`src/powerflow/models.py:33-40`) is not used by the sync pass and is not modelled.
- The `strftime` renderings of timestamps in the page body are parameters.
- MindMap.BuildMindMapTree requires the ids of the dictionary nodes to be distinct. With repeated ids, Python's recursion can revisit nodes without end until the interpreter's recursion limit is reached.
- MindMap.IndexNodes: node ids are looked up in a map over any JSON value. In Python a `parent_node_id` that is a list or an object is unhashable, so `parent_id not in children_map` (`src/powerflow/models.py:161`) raises `TypeError` for a non-root node and the recording is counted as failed; the model indexes the node.
- MindMap.AddNode: the child lookup accepts any id. In Python `children_map.get(node_id, [])` (`src/powerflow/models.py:197`) raises `TypeError` when a visited node's `node_id` is a list or an object, which fails the recording; the model renders the tree.
- MindMap.NodeBlock: the title is always rendered as text. For a root, Python puts the raw `title` value into the block (`src/powerflow/models.py:180`), so a number or null is sent as it is and the Notion API, which is not part of this model, decides what happens; the model sends "5" or "None". For a deeper node Python formats `str(title)`, and a list or dictionary title renders as "[...]" or "{...}" in the model where Python prints its contents.

## Findings

| source | as written | input that shows it | evidently intended | confidence | as-written member | corrected member |
|---|---|---|---|---|---|---|
| src/powerflow/config.py:78-81 | `update_last_sync` stores `datetime.now().isoformat()`, a naive local time. `parse_last_sync` (`src/powerflow/sync.py:12-23`) reads a naive stamp as UTC, so east of UTC the watermark lies ahead of the real end of the pass. | A pass ends at 08:30 UTC on a machine two hours east of UTC (`Sync.TwoHoursEast`); the watermark is "2026-02-14T10:30:00". A recording created at 09:00 UTC is never fetched, because every later fetch filters out entries created at or before 10:30 UTC. | Stamp the watermark in UTC, or with its offset, so that the next pass fetches every recording made after the pass. | high, not executed | Sync.Sync, Sync.LocalWatermarkDropsWindow, Sync.SyncedDropsWindow | Sync.SyncCorrected, Sync.SyncedCorrectedKeepsLater, Sync.UtcWatermarkKeepsLaterRecordings |
| src/powerflow/cli.py:144 | `verify_pocket_key` calls `client.get_recordings(limit=1)`. `PocketClient` defines no `get_recordings`, so the call always raises `AttributeError`, and `setup` reports "API error: …" for every key. | Any key, including a valid one whose recording list would be returned (`Cli.PocketCheckAlwaysFails`). | Probe with `get_recordings_list(limit=1)`, accepting the key when the listing succeeds. | high, not executed | Cli.VerifyPocketKeyAsWritten, Cli.PocketCheckAlwaysFails | Cli.VerifyPocketKey |
