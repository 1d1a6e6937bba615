# VocalFlow: a verified model of its protocols and algorithms

VocalFlow runs voice agents: a live pipeline turns model tokens into speech, an API answers tools and
gates outbound calls, and Celery workers drain Redis streams, crawl and index knowledge bases and dial
callbacks. This project models the parts where a step out of place loses a message, leaks a card number
or breaks a law, and proves what they promise. `dafny verify dfyconfig.toml` checks everything.

| module | what it models | main results |
|---|---|---|
| `StreamDrain`, `Deliveries`, `Reclaim` | `drain_stream`: cursor, batches, SET then XDEL, many workers, deaths at any step | no message is lost in any interleaving; with at most n drains under way a message is delivered at most n times plus once per death on it, and n is exact; an entry stays in the stream only by a death, exactly by one after the SET if drains do not overlap; a drain alone is exactly "all above the cursor, in order" |
| `Regex`, `Shapes`, `Patterns`, `Choices`, `Substitution`, `Redaction` | Python's backtracking matcher, `Pattern.sub`, the five patterns and `redact_inline` | the matcher agrees with the declarative language; each pattern matches exactly the stretches of a shape given character by character; no stretch of an applied shape is left; which of several stretches is cut; only matches are cut; flags are exact; a second run changes nothing |
| `Crawl`, `Html`, `Checksums` | `crawl_url` with its queue, seen set, budget and re-queue branch, the removal of boilerplate elements, and several crawls at once | it terminates against any server; requests come in the order of exact link distance; below the budget it is complete; exactly when it raises; the links followed and the texts stored are exactly those outside navigation, headers and footers; with several crawls at once checksums stay distinct in every run, and all but the first of those that overlap on one checksum may be refused, which is exact |
| `RateLimit`, `Crowds`, `SlidingWindows` | the Lua counter and the three limits of `connect`, with clocks and expiry | caps hold in every run exactly if scripts are at most 30 s late; any interval of a window's length lets in twice the cap at most exactly if scripts are never late, and with delays of up to 30 s exactly three times the cap of an address or organisation, two and a half times that of an agent; a rejection means a full window |
| `Chunker` | `_chunk` | no paragraph is lost; chunking is idempotent; no division into consecutive groups has fewer, and it is the only one in which no group could have taken the next paragraph; exactly how long a chunk gets |
| `Compliance`, `Callbacks`, `DeferralRuns`, `Dispatch` | the API's gate, the worker's gate, the claim script and `fire_due` | on which strings the worker's gate refines the API's, exactly; schedulings are conserved; claims are exclusive; nothing is dialled early or against the API's rules; an entry is dialled, put back or dropped exactly as its payload, the list, its consent records and the clock say; at most two deferrals, over whole runs, exactly if entries wait at most 5 hours, and without bound otherwise; the task is a run of the machine |
| `LlmStream`, `Session`, `History` | `ClaudeStreamer.stream`, the sentence buffer of `_generate_and_speak`, and the history that all reply tasks share | tool calls are bracketed with exactly their own input, however it is cut into deltas; the spoken segments are the model's text but for white space; tool calls and results stay adjacent in every interleaving with cancellation |
| `Basics` | what several modules share | |
| `Calendar`, `Bookings` | `availability` and `book`, for any number of callers | the loop finds exactly the first five grid points in the business hours that share no instant with a busy range; bookings of offered slots never overlap, exactly if at most one caller is between question and booking; which slots the hour test lets through |
| `Resampler` | the 8/16 kHz resamplers | no overflow; the exact effect of going up and down again; when frames can be treated one by one |

Machines (`StreamDrain`, `RateLimit`, `Callbacks`, `History`) are transition systems over the commands
that are atomic in Redis or between two awaits. The imperative code stands beside them as classes and
methods, and is proved to be a run of the machine (`DrainStream`, `CheckLimits`, `FireDueIsARun`,
`AloneIsSequential`), so that the theorems over all runs apply to it.

Where comments and code disagree, the model follows the code:

- `redis_helpers.py:4-5` says that old messages are never processed again; n overlapping drains deliver one entry n times
  without any crash, and deaths apart this is exact (`Deliveries.BoundIsExact`, `Deliveries.OverlapIsTheOnlyCause`).
- `kb_ingest.py:134` speaks of a same-host crawl that strips boilerplate. What is stripped takes its links along: those in
  navigation, headers and footers are not followed (`Html.LinksAreShown`, `Html.NavigationIsNotFollowed`).
- `kb_ingest.py:160` says "retry once", but the URL is already in `seen`: no URL is ever requested twice
  (`Crawl.CrawlUrl`).
- `callbacks.py:129` calls its area codes a subset kept in sync; 325 is missing, and an unknown area code is
  quiet for the worker while the API falls back on New York time (`Compliance.TablesDifferAt325`,
  `Compliance.GatesDifferOnlyOnUnknownArea`).
- `callbacks.py:97` says that the gate replicates the API's; on strings that are not normalised numbers it need not
  (`Compliance.RefinementIsExact`).
- `session.py:337-342` records only the text not yet flushed as the assistant's turn
  (`Session.HistoryKeepsTheReply`, `Session.SpokenReplyMissingFromHistory`).
- `google_calendar.py:97` looks at two hours of the day and not at the days
  (`Calendar.HourTestIs`, `Calendar.OvernightSlotIsOffered`).

## Model

| member | source | states |
|---|---|---|
| StreamDrain.NoMessageLost | apps/worker/vocalflow_worker/redis_helpers.py:36-50 | in every interleaving of producers, drainers and deaths, an added id that no consumer finished is still in the stream and above the stored cursor, although drainers move the cursor backwards |
| StreamDrain.StepPreservesInv | apps/worker/vocalflow_worker/redis_helpers.py:40-50 | each command keeps the invariant that ties every worker's snapshot batch to the stream, the cursor and the handled ids |
| StreamDrain.BatchCovers | apps/worker/vocalflow_worker/redis_helpers.py:41-45 | a batch holds every unhandled id up to its own last id |
| StreamDrain.BatchIsEarliest | apps/worker/vocalflow_worker/redis_helpers.py:41 | a batch holds only entries above the id, the earliest ones, `count` of them if there are so many and otherwise all |
| StreamDrain.DeliveredOncePlusCrashes | apps/worker/vocalflow_worker/redis_helpers.py:45-50 | when drains do not overlap, an id is yielded at most once plus once for each death while it was in flight |
| Deliveries.Crowd | apps/worker/vocalflow_worker/redis_helpers.py:38-46 | for every n, a run without any death in which n overlapping drains yield one entry n times |
| Deliveries.DeliveredAtMost | apps/worker/vocalflow_worker/redis_helpers.py:36-50 | with at most n drains under way at any time, an id is yielded at most n times plus once for every death between one of its yields and its XDEL, although drains move the cursor backwards |
| Deliveries.BoundIsExact | apps/worker/vocalflow_worker/redis_helpers.py:36-50 | over all runs with at most n drains under way, m plus the deaths bound the yields if and only if n <= m |
| Deliveries.OverlapIsTheOnlyCause | apps/worker/vocalflow_worker/redis_helpers.py:45-49 | "once, plus the deaths before the SET" holds over all those runs if and only if n <= 1, that is, drains never overlap |
| Deliveries.StepKeepsLaw | apps/worker/vocalflow_worker/redis_helpers.py:40-50 | each command keeps the count: while an id is in the stream whoever yielded it is still at it or dead, afterwards nobody can read it again |
| Reclaim.LeftBehindCostsADeath | apps/worker/vocalflow_worker/redis_helpers.py:45-49 | in every interleaving, a handled entry that is still in the stream with no drain at it was struck by a death between a yield and its XDEL |
| Reclaim.OnlyLateDeathsStay | apps/worker/vocalflow_worker/redis_helpers.py:47-49 | when drains do not overlap, the stream keeps at or below the cursor exactly the entries whose drain died between their SET and their XDEL |
| StreamDrain.DrainedMeansHandled | apps/worker/vocalflow_worker/redis_helpers.py:41-43 | when XREAD finds nothing above the stored cursor, everything ever added is handled |
| StreamDrain.RedisStream.XRead | apps/worker/vocalflow_worker/redis_helpers.py:41 | the first `count` entries above the id, in stream order |
| StreamDrain.RedisStream.XDel | apps/worker/vocalflow_worker/redis_helpers.py:49 | exactly the entry with this id goes |
| StreamDrain.YieldBatch | apps/worker/vocalflow_worker/redis_helpers.py:44-50 | one batch is consumed entry by entry, as a run of the machine, and what is above the cursor shrinks by it |
| StreamDrain.DrainStream | apps/worker/vocalflow_worker/redis_helpers.py:36-50 | with nobody else active and any batch size from 1, yields exactly the entries above the stored cursor, once each and in order, leaves the rest of the stream, stores the last id, and is a run of the machine after which all is handled |
| Regex.EndsAreMatches | apps/api/app/services/redaction.py:15-19 | the backtracking search order yields exactly the ends of the matches that the declarative language of the pattern has |
| Regex.RepeatOrder | apps/api/app/services/redaction.py:15-19 | a greedy repetition of a character set tries its ends longest first, a lazy one shortest first |
| Regex.MatchBoundaries | apps/api/app/services/redaction.py:15-19 | a pattern that begins and ends in a word boundary matches only between word boundaries |
| Regex.MatchAvoids | apps/api/app/services/redaction.py:15-19 | no match holds a character that the pattern's character sets all exclude |
| Regex.Transfer | apps/api/app/services/redaction.py:15-19 | a match depends on its own characters and on the boundaries at its edges alone |
| Patterns.PatternIsShape | apps/api/app/services/redaction.py:15-19 | for each of the five categories: the pattern matches a stretch if and only if it has the shape that `Shapes` gives in characters, without any pattern |
| Patterns.SsnIs | apps/api/app/services/redaction.py:16 | for social security numbers: eleven characters, hyphens at the fourth and seventh, nine digits, no word character on either side |
| Patterns.CardIs | apps/api/app/services/redaction.py:15 | for card numbers: begins with a digit, digits, blanks and hyphens, 13 to 19 digits, word boundaries at the edges |
| Choices.FirstEndIsChoice | apps/api/app/services/redaction.py:15-19 | of the stretches of the shape that begin at one place, the end that backtracking reaches first is the shortest for card numbers and the longest for e-mail addresses; the other shapes leave no choice |
| Choices.ChoiceIsUnique | apps/api/app/services/redaction.py:15-19 | that determines the stretch |
| Substitution.SubSplices | apps/api/app/services/redaction.py:37 | `sub` cuts the leftmost, non-overlapping hits and nothing else, and puts the tag in their place |
| Substitution.SubCounts | apps/api/app/services/redaction.py:37 | a character that no hit holds and the tag holds once is counted, in the result, as often as in the text plus once for each replacement |
| Substitution.Locate | apps/api/app/services/redaction.py:37 | each character of the result is in a tag or is a copied character of the text, at a known place |
| Redaction.SearchFinds | apps/api/app/services/redaction.py:35 | `search` succeeds exactly if some substring matches |
| Redaction.SubMatchLifts | apps/api/app/services/redaction.py:37 | for any two patterns with word-boundary edges, one of which cannot live in the tag: a match of it in the result of a pass of the other was already a match in the text, at a position where the other has none |
| Redaction.SubCleans | apps/api/app/services/redaction.py:33-38 | a pass leaves no match of its own pattern |
| Redaction.SubAddsNoMatch | apps/api/app/services/redaction.py:33-38 | a pass creates no match of another pattern |
| Redaction.PatternFits | apps/api/app/services/redaction.py:15-19 | each of the five patterns meets the conditions of the generic theorems |
| Redaction.Redactor.SubPattern | apps/api/app/services/redaction.py:33-38 | one pass: the new text, and the category appended exactly if the pattern is found |
| Redaction.NothingLeft | apps/api/app/services/redaction.py:40-46 | after all passes, no substring matches any applied pattern |
| Redaction.FoundWasThere | apps/api/app/services/redaction.py:35-36 | every reported category was in the original text |
| Redaction.CleanTextUntouched | apps/api/app/services/redaction.py:40-47 | a text without matches comes back as it is, with no category |
| Redaction.ChangedIffFound | apps/api/app/services/redaction.py:47 | the text changes exactly if a category is reported, by counting `[` |
| Redaction.PassSplices | apps/api/app/services/redaction.py:37-38 | what a pass takes away are matches of its pattern, and all else stays in order |
| Redaction.LeftmostIsCutOut | apps/api/app/services/redaction.py:37 | the hits of a pass are, from left to right and without overlap, the chosen stretches of the shape, each at the first place after the one before where one begins |
| Redaction.RedactedIsPipeline | apps/api/app/services/redaction.py:29-47 | the result in terms of shapes alone: card numbers, social security numbers, e-mail addresses, and in payment windows phone numbers and check digits, in this order, each pass cutting the chosen stretches for its label and recording its category exactly if the text before it has the shape |
| Redaction.NoShapeLeft | apps/api/app/services/redaction.py:29-47 | no stretch of the result has the shape of an applied category |
| Redaction.RedactInline | apps/api/app/services/redaction.py:29-47 | the method: passes, labels, categories and flag as `RedactedIsPipeline` says, over shapes; no stretch of an applied shape is left; categories only of what was there; `had_pii` exactly if there is a category |
| Redaction.Idempotent | apps/api/app/services/redaction.py:29-47 | a second run with the same window changes nothing and reports nothing |
| Crawl.CrawlUrl | apps/worker/vocalflow_worker/tasks/kb_ingest.py:138-209 | terminates for every web; requests pairwise different, allowed, in the order of their exact link distance; below the budget everything reachable over the anchors that are left after the boilerplate is cut out, and allowed, is requested; what is stored are the long pages requested, one per checksum; it raises exactly if a page it requested has, among those anchors, one that cannot be resolved, or a checksum that two documents had beforehand, which the unique index excludes |
| Crawl.WaitIs | apps/worker/vocalflow_worker/tasks/kb_ingest.py:157-162 | each 429 or 503 is slept on once: one second, twice as long for each further one since the last answer of another kind, failures not counting, and never more than thirty |
| Crawl.DistinctTrouble | infra/migrations/init.sql:158-159 | from a knowledge base with distinct checksums, a lone crawl raises exactly if a page it requested has an anchor that cannot be resolved |
| Crawl.EmptyQueueMeansComplete | apps/worker/vocalflow_worker/tasks/kb_ingest.py:146-151 | with an empty queue, everything within any number of links has been seen |
| Crawl.PopLive | apps/worker/vocalflow_worker/tasks/kb_ingest.py:147-150 | the URL popped is at the distance the queue says, and nothing nearer is outstanding |
| Crawl.Visit | apps/worker/vocalflow_worker/tasks/kb_ingest.py:206-209 | appending a page's links keeps the queue in two levels and covers everything one link away |
| Crawl.RoundThrottled | apps/worker/vocalflow_worker/tasks/kb_ingest.py:157-161 | a re-queued URL keeps the search order and does not count as work left, so the loop ends against a host that always throttles |
| Crawl.Round | apps/worker/vocalflow_worker/tasks/kb_ingest.py:146-152 | a URL popped for the first time is requested at its exact distance, if allowed, and the number of queue entries not yet seen drops |
| Crawl.KnowledgeBase.Store | apps/worker/vocalflow_worker/tasks/kb_ingest.py:178-203 | fails exactly if two documents have the checksum, and then changes nothing; otherwise exactly one has it afterwards and the others stay; checksums that are distinct stay so |
| Crawl.PageLinksAre | apps/worker/vocalflow_worker/tasks/kb_ingest.py:206-209 | what a page puts into the queue are exactly its same-host links not yet seen, of the anchors left after the boilerplate is cut out |
| Html.KeptAnchorsAreShown | apps/worker/vocalflow_worker/tasks/kb_ingest.py:167-168 | the anchors that are collected are exactly those of the tree with no script, style, noscript, footer, nav or header element on the way down to them |
| Html.LinksAreShown | apps/worker/vocalflow_worker/tasks/kb_ingest.py:167-209 | the link graph that is explored is that of the same-host links shown outside those elements |
| Html.KeptTextsAreShown | apps/worker/vocalflow_worker/tasks/kb_ingest.py:167-171 | the pieces of text collected are exactly the leaves with no boilerplate element on the way down, each once and in document order |
| Html.ShownTextsAreUnique | apps/worker/vocalflow_worker/tasks/kb_ingest.py:167-171 | that determines the pieces |
| Html.StoredPages | apps/worker/vocalflow_worker/tasks/kb_ingest.py:171-200 | what is stored is the joined shown text of a requested page, of 200 characters or more, under its URL and checksum; every requested page with so much shown text is stored or has a duplicate |
| Html.CrawlSite | apps/worker/vocalflow_worker/tasks/kb_ingest.py:138-209 | in terms of the pages as trees: requests in the order of exact distance over shown links; below the budget everything reachable and allowed is requested; the number of pages reported; what is stored, as `Html.StoredPages` says; with distinct checksums it raises exactly if a requested page shows an anchor that cannot be resolved |
| Html.NavigationIsNotFollowed | apps/worker/vocalflow_worker/tasks/kb_ingest.py:167-168 | a page whose only link is in its navigation leads nowhere |
| Checksums.AlwaysDistinct | infra/migrations/init.sql:158-159 | in every run of any number of crawls, however their lookups and insertions overlap, checksums stay distinct |
| Checksums.RefusalsAreExact | apps/worker/vocalflow_worker/tasks/kb_ingest.py:178-200 | over all runs with at most n crawls between lookup and insertion for one checksum, at most m insertions of a checksum are refused if and only if n <= m + 1; so none ever is exactly if such lookups do not overlap |
| Checksums.Insertions | apps/worker/vocalflow_worker/tasks/kb_ingest.py:178-200 | for every n, a run in which n crawls look one text up, find nothing, and all but the first to insert it are refused |
| Crawl.StoreKeeps | apps/worker/vocalflow_worker/tasks/kb_ingest.py:172-203 | every long page is stored or has a duplicate, nothing else is stored, checksums stay distinct |
| RateLimit.CapHolds | apps/api/app/api/widget.py:81-89 | with scripts at most 30 s after the keys were computed, no key ever has more accepted connects than its cap, in every interleaving |
| RateLimit.LatencyBoundIsExact | apps/api/app/api/widget.py:61-86 | the caps hold over all runs if and only if scripts are at most 30 s late |
| RateLimit.LateScriptBreaksCap | apps/api/app/api/widget.py:50-51 | for any longer delay, a run that accepts six connects of one address in one minute |
| RateLimit.WithinLifetime | apps/api/app/api/widget.py:82-84 | no counter that is touched in time can expire while its window can still be counted |
| RateLimit.RejectedOnlyWhenFull | apps/api/app/api/widget.py:86-89 | a script rejects if and only if the cap's number of requests have come past that limit in that window |
| RateLimit.UnknownAgentIsNotCounted | apps/api/app/api/widget.py:64-80 | a request whose agent is not found is counted under no key, however the run goes on |
| SlidingWindows.AtMostThrice | apps/api/app/api/widget.py:25-27 | with scripts at most 30 s late, any interval of a window's length lets in at most three times the cap |
| SlidingWindows.TwiceIsExact | apps/api/app/api/widget.py:61-86 | twice the cap bounds every such interval in every run if and only if scripts are never late at all |
| SlidingWindows.MostGetIn | apps/api/app/api/widget.py:82-84 | for any delay, however small, a run that lets in 15 of one address or 90 of one organisation within a minute, or 150 of one agent within an hour |
| SlidingWindows.MostIsExact | apps/api/app/api/widget.py:25-27 | with agents that keep their organisation and a delay of at most 30 s, n bounds every such interval in every run if and only if n is at least 15, 90 or 150 |
| SlidingWindows.AgentAtMost | apps/api/app/api/widget.py:81-89 | requests let in late with an agent's key of the hour before all count for one minute of its organisation, so at most 150 get in |
| SlidingWindows.AtMostTwiceByKey | apps/api/app/api/widget.py:61-62 | counted by the instant the keys are computed, any interval of a window's length sees at most twice the cap |
| RateLimit.StepPreservesInv | apps/api/app/api/widget.py:46-53 | each script keeps counters, expiry times and the record of who passed in step |
| RateLimit.Redis.RunScript | apps/api/app/api/widget.py:46-53 | INCR, EXPIRE on the first count and the verdict, with expiry taken into account |
| RateLimit.ExpiryIsSetOnce | apps/api/app/api/widget.py:46-53 | in every run, however late its scripts: the script that starts a counter sets its expiry to 90 s, for agents 3700 s, from then; while the counter lives every other script adds one and leaves the expiry alone |
| RateLimit.CheckLimits | apps/api/app/api/widget.py:81-89 | the loop with its early exit is a run of the machine and ends accepted or rejected as the machine does |
| Chunker.Chunk | apps/worker/vocalflow_worker/tasks/kb_index.py:62-80 | the loop computes the packing that the theorems below are about |
| Chunker.NoTextLost | apps/worker/vocalflow_worker/tasks/kb_index.py:65-80 | splitting all chunks gives back exactly the non-blank paragraphs, in order |
| Chunker.Idempotent | apps/worker/vocalflow_worker/tasks/kb_index.py:62-80 | chunking the joined chunks again gives the same chunks |
| Chunker.PackingIsOptimal | apps/worker/vocalflow_worker/tasks/kb_index.py:66-79 | no division of the paragraphs into consecutive groups of one, or of lengths that sum to at most the limit, has fewer groups |
| Chunker.PackIsTheFullDivision | apps/worker/vocalflow_worker/tasks/kb_index.py:72-79 | a division of the paragraphs is the packing if and only if every group fits and none could have taken the first paragraph of the next |
| Chunker.PackDivides | apps/worker/vocalflow_worker/tasks/kb_index.py:72-77 | the chunks divide the paragraphs, and each is one paragraph or has paragraph lengths that sum to at most the limit |
| Chunker.SplitJoin | apps/worker/vocalflow_worker/tasks/kb_index.py:65 | splitting undoes joining for the pieces that splitting can produce, even those that begin or end with a newline |
| Chunker.JoinSplit | apps/worker/vocalflow_worker/tasks/kb_index.py:65-73 | joining undoes splitting, for every text |
| Chunker.StaysAhead | apps/worker/vocalflow_worker/tasks/kb_index.py:72-77 | the greedy packing is never behind any other division |
| Chunker.ChunkLength | apps/worker/vocalflow_worker/tasks/kb_index.py:71-79 | the limit counts paragraphs only: a chunk of several is longer than it exactly when its separators do not fit in any more, and never longer than three times the limit less two |
| Chunker.LongestChunk | apps/worker/vocalflow_worker/tasks/kb_index.py:71-79 | for every limit, a text whose only chunk has that length |
| Compliance.TablesDifferAt325 | apps/worker/vocalflow_worker/tasks/callbacks.py:130-239 | the worker's area codes are the API's without 325 |
| Compliance.AreaCodeReads | apps/api/app/services/compliance.py:196-201 | three characters are read as the number that they spell in figures, and as none if they spell none |
| Compliance.StateIsRead | apps/worker/vocalflow_worker/tasks/callbacks.py:121-126 | the worker knows a state for exactly the strings that begin with +1 and three figures that spell one of its area codes |
| Compliance.VerdictsMean | apps/api/app/services/compliance.py:215-266 | what each verdict of either gate means: allowed exactly if the number is not on the list, has exactly one consent record, and it is 8:00 to 21:00 there by the UTC offset in force at that instant |
| Compliance.WorkerGateRefinesApi | apps/worker/vocalflow_worker/tasks/callbacks.py:96-126 | on a normalised number the refinement holds, and the worker allows exactly if the API does and the worker's table knows the area code |
| Compliance.GatesDifferOnlyOnUnknownArea | apps/api/app/services/compliance.py:215-266 | on a normalised number, whenever the two verdicts differ, the area code is unknown to the worker, which says quiet where the API allows |
| Compliance.RefinementIsExact | apps/worker/vocalflow_worker/tasks/callbacks.py:96-126 | for every string and every parser: in all worlds and at all instants the worker allows only what the API allows, if and only if the worker knows no state for the string or both look up the same number and go by the same zone |
| Compliance.UnnormalisedNumberSlipsThrough | apps/api/app/services/compliance.py:193-221 | a short +1 number without a region is one on which the refinement fails |
| Callbacks.StepPreservesInv | apps/worker/vocalflow_worker/tasks/callbacks.py:55-63 | each command of schedulers and dispatchers, and each death, keeps every scheduling in exactly one place |
| Callbacks.ClaimsAreExclusive | apps/worker/vocalflow_worker/tasks/callbacks.py:55-63 | no two dispatchers hold one claim, and a held one is neither in the set nor dialled |
| Callbacks.NeverEarly | apps/worker/vocalflow_worker/tasks/callbacks.py:246-286 | nothing is dialled before its score, and the gate allowed it between claim and dialling |
| Callbacks.OutboundPassedTheApiGate | apps/worker/vocalflow_worker/tasks/callbacks.py:265-286 | every callback sent to a number on which the gates agree, as on every normalised one, satisfied the API's rules at the instant it was gated |
| Callbacks.SchedulingsAreConserved | apps/worker/vocalflow_worker/tasks/callbacks.py:242-288 | schedulings of an entry = dialled + held + in the set + dropped + lost + merged |
| Callbacks.ScheduleKeepsInv | apps/api/app/api/tools.py:313-321 | scheduling an entry, also one that is in the set already, keeps every scheduling in exactly one place |
| DeferralRuns.AtMostTwoLooks | apps/worker/vocalflow_worker/tasks/callbacks.py:86-93 | in a chain of looks with a fixed offset, each at most 5 hours after the score, at most two find quiet hours |
| DeferralRuns.AtMostTwoPutBacks | apps/worker/vocalflow_worker/tasks/callbacks.py:242-288 | in every run, whatever other dispatchers and entries do: an entry scheduled once, whose looks find it eligible and come at most 5 hours after its score, is put back at most twice |
| DeferralRuns.DeferralBoundIsExact | apps/worker/vocalflow_worker/tasks/callbacks.py:242-288 | over all runs of the machine, n such put-backs suffice if and only if n is at least 2 and entries wait at most 5 hours |
| DeferralRuns.AnyNumberOfPutBacks | apps/worker/vocalflow_worker/tasks/callbacks.py:271-274 | for any longer wait and any number of days, a run that puts one entry back twice a day and once more |
| Callbacks.PutBackIs | apps/worker/vocalflow_worker/tasks/callbacks.py:271-275 | a treated entry is in the set afterwards exactly if it was deferred, with the new score; all others are as they were |
| Callbacks.OutcomeMeans | apps/worker/vocalflow_worker/tasks/callbacks.py:249-287 | what becomes of an entry, in terms of its payload, the list, the consent records and the clock: when it is dialled and to whom, when it is put off, when the task raises; everything else is dropped |
| Callbacks.ReportMeans | apps/worker/vocalflow_worker/tasks/callbacks.py:249-287 | which entry is reported blocked, and for what |
| Callbacks.PutBackMeans | apps/worker/vocalflow_worker/tasks/callbacks.py:271-274 | the set after the loop holds, of the treated entries, exactly those put off, 8 hours later |
| Callbacks.PlacedMeans | apps/worker/vocalflow_worker/tasks/callbacks.py:276-287 | the calls are those of the entries that may be dialled, one each and in order, to the payload's contact and organisation, with its agent or else the default |
| Callbacks.ReportedMeans | apps/worker/vocalflow_worker/tasks/callbacks.py:265-275 | the reports are those of the entries blocked, one each and in order |
| Callbacks.ClaimMeans | apps/worker/vocalflow_worker/tasks/callbacks.py:55-63 | a claim holds at most 50 entries, all with scores from 0 to now and none later than a due one that is left; fewer than 50 only if none is left |
| Callbacks.Queue.ClaimDue | apps/worker/vocalflow_worker/tasks/callbacks.py:55-63 | claims the earliest due entries, at most 50, and removes exactly those |
| Callbacks.Queue.TreatAll | apps/worker/vocalflow_worker/tasks/callbacks.py:249-287 | the calls placed, the report and the set after the loop, also when a lookup raises half way |
| Callbacks.Queue.FireDue | apps/worker/vocalflow_worker/tasks/callbacks.py:242-288 | the whole task: claim, calls, count, report and the set it leaves; each of them also in terms of the decoded payloads, the list, the consent records and the clock alone |
| Dispatch.FireDueIsARun | apps/worker/vocalflow_worker/tasks/callbacks.py:242-288 | what `FireDue` promises is the end of a run of the machine |
| LlmStream.Stream | apps/agent/vocalflow_agent/pipeline/llm.py:72-133 | the loop with its three variables emits for each event what the events before it say, up to the first message_stop |
| LlmStream.ToolCallsAreBracketed | apps/agent/vocalflow_agent/pipeline/llm.py:78-117 | each tool_use_end has the id and name of the latest tool_use_start and an input from the fragments since and no others |
| LlmStream.ToolInputIsParsed | apps/agent/vocalflow_agent/pipeline/llm.py:96-117 | that input is what the whole text streamed since the start parses to, and the empty object if nothing was streamed or it does not parse |
| LlmStream.CuttingInputDoesNotMatter | apps/agent/vocalflow_agent/pipeline/llm.py:96-112 | however that text is cut into deltas, the input is the same |
| LlmStream.StopsEndCalls | apps/agent/vocalflow_agent/pipeline/llm.py:99-117 | every block that stops while a tool with an id is open ends its call at once, and nothing else ends a call |
| LlmStream.TextComesThrough | apps/agent/vocalflow_agent/pipeline/llm.py:91-94 | the chunks carry exactly the text of the reply |
| Session.SplitOnLastBoundary | apps/agent/vocalflow_agent/pipeline/session.py:465-469 | the backward loop cuts after the last of . ! ? |
| Session.CutDropsOnlyBlanks | apps/agent/vocalflow_agent/pipeline/session.py:465-469 | sentence, white space and leftover make up the text |
| Session.CutSaysSentences | apps/agent/vocalflow_agent/pipeline/session.py:458-469 | at a boundary, the sentence ends as one and the leftover holds no . ! ? |
| Session.BoundaryIs | apps/agent/vocalflow_agent/pipeline/session.py:458-462 | there is a boundary exactly if the last character that is not white space is one of . ! ? : |
| Session.NoTextLost | apps/agent/vocalflow_agent/pipeline/session.py:256-262 | at every chunk, the text so far is the spoken segments in order plus the buffer, but for white space right after a segment |
| Session.SentencesAreFlushed | apps/agent/vocalflow_agent/pipeline/session.py:256-262 | after each delta the buffer does not end in . ! or ?, and every flushed segment is a sentence or ends in a colon |
| Session.EventsAreSpoken | apps/agent/vocalflow_agent/pipeline/session.py:245-336 | from the model's events to the ear: up to the first tool call or the end of the message, the segments are the reply's text |
| Session.CuttingDoesNotMatter | apps/agent/vocalflow_agent/pipeline/session.py:256-262 | however the text is cut into deltas, the same is heard, white space apart |
| Session.HistoryKeepsTheReply | apps/agent/vocalflow_agent/pipeline/session.py:332-342 | the assistant's history entry is the whole reply if and only if no delta ever completed a sentence |
| Session.SpokenReplyMissingFromHistory | apps/agent/vocalflow_agent/pipeline/session.py:337-342 | a reply that is spoken and recorded as empty |
| Session.EntriesAre | apps/agent/vocalflow_agent/pipeline/session.py:271-342 | what a reply adds: nothing, one entry of text, or the call and its result with the id, the name, the input as the tool left it and what the tool said; the tool is asked once with the input, or an empty object in its place |
| Session.CallSession.GenerateAndSpeak | apps/agent/vocalflow_agent/pipeline/session.py:228-346 | the segments spoken and the entries appended, for every chunk sequence, also one that ends without done |
| History.ToolTrafficStaysPaired | apps/agent/vocalflow_agent/pipeline/session.py:271-298 | in every interleaving with cancellation, at every await and in every request sent to the model, each tool call is immediately followed by the result of the same run, and conversely |
| History.RepliesDoNotMix | apps/agent/vocalflow_agent/pipeline/session.py:230-263 | whatever other tasks do, a reply speaks its own segments, all of them or a first part |
| History.EachReplyIsRecordedOnce | apps/agent/vocalflow_agent/pipeline/session.py:274-342 | apart from what the caller said, the history is the records of the replies that got to write one, each once and whole: its text, or its tool call with the result of one run |
| History.UtterancesAreKept | apps/agent/vocalflow_agent/pipeline/session.py:230-342 | whatever the replies do and wherever they are cut off, the history has all that the main loop appended for the caller, once each and in order |
| History.AloneIsSequential | apps/agent/vocalflow_agent/pipeline/session.py:228-346 | a reply that is not interrupted is a run of the machine with the result of `GenerateAndSpeak` |
| History.CutOffAnywhere | apps/agent/vocalflow_agent/pipeline/session.py:230-346 | for every reply and each of its chunks, a run that cuts it off there: the segments handed on to be spoken by then are not in the history at all |
| Calendar.GoogleCalendar.Availability | apps/api/app/integrations/google_calendar.py:84-100 | the slots are the first five points of the half-hour grid that fit the window, pass the hour test and share no instant with a busy range; without a calendar, the demonstration slots |
| Calendar.FirstFiveIsUnique | apps/api/app/integrations/google_calendar.py:93-100 | that determines the answer |
| Calendar.ClashesMeansShare | apps/api/app/integrations/google_calendar.py:96 | for non-empty ranges the clash test says exactly whether they share an instant |
| Calendar.ClashMeansShare | apps/api/app/integrations/google_calendar.py:93-96 | for a list of non-empty ranges the test fails a slot if and only if some range shares an instant with it |
| Calendar.FirstFiveAreOffered | apps/api/app/integrations/google_calendar.py:84-100 | a half-hour point that fits the window, passes the hour test and shares no instant with a busy range is in the answer unless five earlier ones are; nothing else is |
| Calendar.FallbackIsDemonstration | apps/api/app/integrations/google_calendar.py:62-68 | without a calendar, five slots: 0, 3, 26, 29 and 50 hours after a full hour that lies more than one hour and at most two ahead |
| Calendar.OfferedIsFree | apps/api/app/integrations/google_calendar.py:72-98 | an offered slot shares no instant with a busy range, however the query clips or merges them |
| Calendar.GoogleCalendar.BookOneOffered | apps/api/app/integrations/google_calendar.py:117-123 | asking and booking one offered slot keeps busy ranges pairwise disjoint |
| Calendar.NoDoubleBooking | apps/api/app/integrations/google_calendar.py:84-123 | so does every sequence of such rounds |
| Calendar.StaleOfferIsSafeIff | apps/api/app/integrations/google_calendar.py:103-123 | after bookings by others the slot is safe if and only if it is free of those |
| Calendar.StaleOfferDoubleBooks | apps/api/app/integrations/google_calendar.py:84-123 | two callers are offered one slot, and both book it |
| Bookings.OneCallerIsExact | apps/api/app/integrations/google_calendar.py:52-138 | over all runs of callers that ask and book in any order, busy ranges stay pairwise disjoint if and only if at most one caller is between its question and its booking |
| Calendar.HourTestIs | apps/api/app/integrations/google_calendar.py:97 | a slot lies in the business hours of one day if and only if it passes the hour test and does not end on another day |
| Calendar.OvernightSlotIsOffered | apps/api/app/integrations/google_calendar.py:97 | a slot from 20:00 to 01:00 is offered |
| Resampler.Upsample | apps/bridge/vocalflow_bridge/codec.py:32-41 | the array filled in place is the interpolated signal, for every length |
| Resampler.StaysInRange | apps/bridge/vocalflow_bridge/codec.py:32-54 | no output sample leaves the range of the input |
| Resampler.ThereAndBack | apps/bridge/vocalflow_bridge/codec.py:36-54 | up and down again gives x[i] + floor((x[i+1] - x[i]) / 4), and the last sample unchanged |
| Resampler.ThereAndBackIsIdentity | apps/bridge/vocalflow_bridge/codec.py:36-54 | nothing changes if and only if each step up is between 0 and 3 |
| Resampler.DownFrameByFrame | apps/bridge/vocalflow_bridge/codec.py:50-54 | frames of even length can be brought down one by one |
| Resampler.UpFrameByFrame | apps/bridge/vocalflow_bridge/codec.py:36-41 | two frames can be brought up one by one if and only if the second starts on the last sample of the first or one above |

## Left out

- StreamDrain.DrainStream: XREAD's blocking wait is not modelled; an empty answer ends the drain, as in the code. A
  batch size of 0 is not covered, as Redis reads it as "no limit".
- Callbacks.Queue.ClaimDue: entries of equal score may come in any order, where Redis orders them by bytes.
- Callbacks.OutboundPassedTheApiGate: the gate's databases are one snapshot per look; DNC and consent changes between gating and
  dialling are not judged, as the API does not judge them either.
- DeferralRuns.AtMostTwoLooks: needs a fixed UTC offset; a change of daylight saving time within the chain is not covered.
- DeferralRuns.AtMostTwoPutBacks: speaks of one scheduling; scheduling an entry again moves its score and begins anew.
- Crawl.CrawlUrl: titles and the indexing task are not modelled; the web is a function of the URL for
  the length of one crawl, with the final answer of a followed redirect. The task also ends by an exception when the database, the
  broker, the HTML or robots.txt library or the parsing of the root URL raises one; only the lookup and the anchors are modelled.
  Crawls at once are modelled in `Checksums` as far as lookup and insertion go; the scope of `CrawlUrl` is one crawl.
- RateLimit.CapHolds: the clocks of the application and of Redis are one clock.
- Callbacks.Queue.FireDue: the metadata sent along with a call is not modelled.
- History.ToolTrafficStaysPaired: the answer of the model is given with the task, so what a request leads the model to say is
  left open; the wait for the tool and the 3 s timeout are one step.
- Session.CallSession.GenerateAndSpeak: filler and backchannel audio, latency marks, the handoff brief and the audio itself are not modelled; a segment is
  what is handed to `_speak`, in creation order.
- Resampler.Upsample: bytes are not modelled; a signal is a sequence of samples.
- Which turn is started when (`_handle_partial`, `_handle_final`), barge-in and the untracked continuation task: no property of
  theirs holds that the rest needs beyond cancellation at any await.
- Consumers of the drain (`redrive`, `parse_upload`) and the parser of robots.txt: the consumer is whatever runs between a yield and the
  next, and what robots.txt allows is a given function.
- Lone surrogates and other text that is not a sequence of Unicode scalar values.
- The `phonenumbers` library and the time-zone database: given functions.
- Network clients, the dashboard, the widget, schemas, routing, prompts, µ-law conversion, authentication and tenancy: no algorithm
  of theirs is decided by this code, or it would only add easy members.
