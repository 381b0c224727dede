# TextileIntel briefing flow, modelled in Dafny

TextileIntel is a browser app. It asks a grounded AI completion service for a
daily textile-market briefing, renders it, and emails it when the run was
started automatically. This project models the decision logic around the two
network calls:

- **Orchestrator** (`App`, src/App.tsx). `handleRunAnalysis` is a pure
  transition over the state (status, error, briefing data, notification). It
  takes the `isAuto` flag, the fetch outcome and what the email sender would
  do. The model also covers the two display guards and the 2.5 s SUMMARIZING
  timer. `RunBriefing` connects the transition to the fetcher and dispatcher
  models.
- **Schedule monitor** (`Scheduler`, src/components/Scheduler.tsx). One
  polling tick decides whether to fire the 08:00 automatic run. It keeps the
  once-per-day guard and computes the countdown to the next 08:00. A run over
  a day of ticks states the at-most-once, exactly-once and no-catch-up
  properties. The manual button is enabled only while no run is in progress.
- **Briefing fetcher** (`Gemini`, src/services/geminiService.ts). It covers
  the API-key check, the summary placeholder and the filtering and projection
  of grounding chunks. Sources are deduplicated by uri through an explicit
  model of an ECMAScript `Map`. Every upstream failure becomes one message.
- **Email dispatcher** (`Email`, src/services/emailService.ts). It covers the
  three-credential gate, the template parameters (including the
  newline-joined `title: uri` lines) and the return-or-rethrow contract.
- **Briefing card** (`BriefingCard`, src/components/BriefingCard.tsx). The
  markdown renderer splits the summary on `'\n'` and classifies each line as
  H2, H3, bullet, spacer or paragraph. The sources footer is also modelled.
- Shared pieces: `Types` (src/types.ts), `Wrappers` (Option/Result), and
  `Text`, which models the JavaScript string operations used: truthiness,
  `startsWith`, `replace` with a string pattern, `split`, `join` and `trim`.

The network calls, the clock and the environment are parameters:

- the upstream answer or failure;
- the email transport's delivery or failure;
- the API key and the three email credentials, as optional strings;
- the current instant, as an opaque string;
- the locale date string;
- the time of day, as milliseconds since local midnight.

Results that the code passes to a foreign call are recorded in traces: the
number of upstream requests, the email send requests, and the briefings
handed to the email sender. A run is recorded as the state after each
synchronous segment of the handler (between two `await`s), because that is
what the page renders.

Two consequences of the code are worth stating up front:

- Deduplication keeps each uri at the position of its first occurrence,
  holding the source of its last occurrence. This is the insertion order of
  an ECMAScript `Map`, where a `set` on an existing key keeps its position
  and replaces its value (`Gemini.DedupMeetsSpec`, `Gemini.DedupSpecUnique`).
- A busy status at 08:00 suppresses the day's automatic run only if it holds
  at every tick of the 08:00 minute. The first later tick in the same minute
  that sees a startable status still fires (`Scheduler.ExactlyOnceWhenStartable`);
  if none does, nothing fires that day (`Scheduler.NoCatchUp`).

## Model

| member | source | states |
|---|---|---|
| Text.ReplaceFirst | src/components/BriefingCard.tsx:18-25 | a pattern that occurs nowhere leaves the string unchanged; otherwise the length changes by the replacement's length minus the pattern's |
| Text.ReplaceFirstOccurrence | src/components/BriefingCard.tsx:18-25 | at the first occurrence of the pattern, and only there, the pattern is replaced |
| Text.Join | src/services/emailService.ts:28 | joining no pieces gives the empty string, and a join starts with its first piece |
| Text.Trim | src/components/BriefingCard.tsx:36 | `trim()` is no longer than the line, starts and ends with a non-space when non-empty, and is empty exactly when the line is all whitespace |
| Text.IndexOf | src/components/BriefingCard.tsx:18 | the index returned is an occurrence of the pattern and no earlier index is one; `None` means the pattern occurs nowhere |
| Text.ReplacePrefix | src/components/BriefingCard.tsx:18-25 | `replace` with a pattern the line starts with removes exactly that prefix, because the first occurrence is at index 0 |
| Text.Split | src/components/BriefingCard.tsx:9 | `split('\n')` always yields at least one piece, and no piece contains the separator |
| Text.SplitLength | src/components/BriefingCard.tsx:9 | the number of pieces is the number of newlines plus one |
| Text.JoinSplit | src/components/BriefingCard.tsx:9 | joining the split pieces with the separator gives back the original text |
| Text.SplitJoin | src/services/emailService.ts:28 | splitting a join of separator-free, non-empty-list pieces recovers the pieces |
| Text.TrimStart | src/components/BriefingCard.tsx:36 | the result is a suffix that is empty or starts with a non-space, and only whitespace was dropped |
| Text.TrimEnd | src/components/BriefingCard.tsx:36 | the result is a prefix that is empty or ends with a non-space, and only whitespace was dropped |
| Text.TrimEmptyIffWhitespace | src/components/BriefingCard.tsx:36 | corollary of `Text.Trim`'s contract, stated for the renderer's test: `line.trim().length === 0` holds exactly when every character of the line is whitespace |
| Gemini.Summary | src/services/geminiService.ts:51 | the summary is the response text when that text is non-empty, and the placeholder otherwise; it is never empty |
| Gemini.UsableIndices | src/services/geminiService.ts:56-57 | the positions the filter keeps: every chunk whose `web` has a truthy uri and title, each once, in increasing order, and no other |
| Gemini.UsableSources | src/services/geminiService.ts:54-61 | the pipeline yields no more sources than chunks, each with a non-empty title and uri |
| Gemini.UsableSourcesInOrder | src/services/geminiService.ts:55-61 | the k-th source is the `{ title, uri }` projection of the k-th usable chunk, so chunk order and multiplicity are kept |
| Gemini.UsableSourcesMembers | src/services/geminiService.ts:55-61 | every usable chunk's projection is among the sources, and every source is the projection of a usable chunk |
| Gemini.UsableSourcesKeepsAll | src/services/geminiService.ts:55-61 | no chunk is dropped exactly when every chunk is usable |
| Gemini.MapSet | src/services/geminiService.ts:64 | `Map.set` keeps the position of an existing key, overwrites its value, and appends a new key |
| Gemini.Values | src/services/geminiService.ts:64 | `values()` lists the entries in key order |
| Gemini.FromEntries | src/services/geminiService.ts:64 | the map built from the sources has distinct keys, exactly the uris of the input, and no more keys than inputs |
| Gemini.FromEntriesLastWins | src/services/geminiService.ts:64 | each uri maps to the source of its last occurrence in the input |
| Gemini.FromEntriesFirstOrder | src/services/geminiService.ts:64 | the map's keys are ordered by first occurrence in the input |
| Gemini.DedupByUri | src/services/geminiService.ts:64 | the deduplicated uris are pairwise distinct, their set equals the input's uris, and the output is no longer than the input |
| Gemini.DedupKeepsLast | src/services/geminiService.ts:64 | each kept source is the input's last source with that uri |
| Gemini.DedupFirstOccurrenceOrder | src/services/geminiService.ts:64 | kept sources appear in the order of their uris' first occurrences |
| Gemini.DedupMeetsSpec | src/services/geminiService.ts:64 | the deduplicated list meets the independent description: distinct uris, exactly the input's uris, the last source of each uri, in first-occurrence order |
| Gemini.LastSourcesInFirstOrderUnique | src/services/geminiService.ts:64 | two lists over the same uris, each holding the last source per uri in first-occurrence order, are equal |
| Gemini.DedupSpecUnique | src/services/geminiService.ts:64 | any list meeting the description is the deduplicated list, so the description determines it completely |
| Gemini.ExtractSources | src/services/geminiService.ts:54-64 | the cited sources meet the independent deduplication description over the usable chunks (absent chunks read as none), each with a non-empty title and uri |
| Gemini.FetchDailyBriefing | src/services/geminiService.ts:29-75 | with no API key: the missing-key error and no upstream request. With a key: one request. Any upstream failure gives the single generic message. It succeeds exactly when the key is present and the upstream answered. Then the timestamp is the current instant, the summary is the response text or the placeholder, and the sources meet the deduplication description over the response's usable chunks: distinct uris, every title and uri non-empty |
| Email.SourceLine | src/services/emailService.ts:28 | one source renders as its title, `": "`, then its uri |
| Email.SourcesParam | src/services/emailService.ts:28 | the `sources` parameter is empty exactly when there are no sources, and otherwise starts with the first source's line |
| Email.SourceLines | src/services/emailService.ts:28 | one rendered line per source, in order |
| Email.BuildParams | src/services/emailService.ts:22-29 | fixed recipient address and name; the message is the summary unchanged; the subject is `Daily Briefing: ` followed by the locale date; the date is that locale date; the `sources` parameter is the newline-joined source lines |
| Email.SendBriefingEmail | src/services/emailService.ts:4-39 | a missing credential returns false with no send; with all three, exactly one send with the built parameters; delivery returns true and a transport failure is rethrown with its reason, never turned into false |
| Email.SourcesParamEmpty | src/services/emailService.ts:28 | corollary of `Email.SourcesParam`'s contract: the `sources` parameter is empty exactly when there are no sources |
| Email.SourcesParamLines | src/services/emailService.ts:28 | splitting the `sources` parameter on newlines gives one `title: uri` line per source, in order |
| Scheduler.WindowBounds | src/components/Scheduler.tsx:18-28 | the trigger window is the minute from 08:00 and the reset window the minute from 00:00 |
| Scheduler.MsUntilNextRun | src/components/Scheduler.tsx:33-38 | the distance to the target lies in (0, 24 h] and lands on 08:00 |
| Scheduler.NoEarlierRun | src/components/Scheduler.tsx:33-38 | corollary of `Scheduler.MsUntilNextRun`'s contract: no 08:00 lies strictly before the target: it is the next one |
| Scheduler.CountdownAt | src/components/Scheduler.tsx:38-41 | minutes lie in 0..59 and hours in 0..24, and the two are the remaining time rounded down to whole minutes |
| Scheduler.CountdownExamples | src/components/Scheduler.tsx:33-41 | 07:00 gives 1 h 0 m and 08:01 gives 23 h 59 m |
| Scheduler.Tick | src/components/Scheduler.tsx:14-42 | with the source's gate, a tick fires iff it is in the 08:00 minute with the guard clear and status IDLE. Firing sets the guard and nothing else sets it. Only the midnight minute clears it, and it always does. The countdown is the one for the tick's time |
| Scheduler.RunTicks | src/components/Scheduler.tsx:44-45 | over a sequence of ticks, the runs fired are no more than the ticks, and each fires inside the 08:00 minute |
| Scheduler.GuardedTicksNeverFire | src/components/Scheduler.tsx:18-30 | with the guard set and no midnight tick, no tick fires and the guard stays set |
| Scheduler.AtMostOncePerDay | src/components/Scheduler.tsx:18-30 | chronological ticks within one day fire at most once, for any statuses and initial guard |
| Scheduler.ExactlyOnceWhenStartable | src/components/Scheduler.tsx:18-30 | with the guard clear, a day fires exactly once, at the first tick of the 08:00 minute whose status the gate accepts (IDLE for the source's gate), whatever the statuses before and after it |
| Scheduler.NoCatchUp | src/components/Scheduler.tsx:18-19 | if no tick of the 08:00 minute sees a startable status, nothing fires that day |
| Scheduler.TenSecondDay | src/components/Scheduler.tsx:44-45 | a day polled every 10 s has 8640 ticks, the k-th at the phase plus k times 10 s, in chronological order, each seeing the given status |
| Scheduler.OneRunPerPolledDay | src/components/Scheduler.tsx:18-45 | a whole day of 10 s ticks with a startable status and the guard clear fires exactly one run, at the first tick after 08:00 |
| Scheduler.SettledDayNeverFires | src/components/Scheduler.tsx:18-19 | with the source's gate, a day whose status is COMPLETED or ERROR at every tick fires nothing |
| Scheduler.IsProcessing | src/components/Scheduler.tsx:49 | a run is in progress exactly when the status is neither IDLE nor settled (COMPLETED or ERROR) |
| Scheduler.PressRunNow | src/components/Scheduler.tsx:84-85 | the button is enabled iff status is neither FETCHING nor SUMMARIZING, and then it always requests a manual run |
| App.Start | src/App.tsx:18-21 | starting a run sets FETCHING and clears error, data and notification, whatever the prior state |
| App.ErrorText | src/App.tsx:46 | the stored error is the thrown message when it is non-empty, and the generic fallback otherwise |
| App.HandleRunAnalysis | src/App.tsx:17-49 | the first state is the cleared FETCHING state. On success every later state is COMPLETED with the fetched data and no error. A manual run never consults the email sender and shows no notification at any step. An automatic successful run shows the "sending" notice, consults the sender exactly once, and the final notification is success, skipped or failed accordingly. A failure ends in ERROR with the message or fallback, no data and no email |
| App.ShowsErrorBanner | src/App.tsx:124 | the error banner never shows together with the results, nor while a run is in progress |
| App.ShowsResults | src/App.tsx:135 | the results never show while a run is in progress |
| App.RunOutcomeDisplayed | src/App.tsx:124-135 | a settled run shows results iff the fetch succeeded and the error banner iff it failed; the FETCHING state shows neither |
| App.SummarizingTimerAsWritten | src/App.tsx:24 | the timer sets SUMMARIZING whatever the state, and changes nothing else |
| App.SummarizingTimer | src/App.tsx:24 | the corrected timer moves only FETCHING to SUMMARIZING and leaves every other state unchanged |
| App.RunBriefing | src/App.tsx:17-49 | a run wired to the services makes one upstream request exactly when the API key is set, at most one email send and none for a manual run; it ends COMPLETED exactly when the key is set and the upstream answered, and ERROR otherwise. On success the stored briefing is exactly what the fetcher returned, and an automatic configured run sends one request built from that same briefing |
| App.ManualRunNeverEmails | src/App.tsx:31 | a manual run, wired to the services, sends no email and ends without a notification |
| App.AutoRunEmailOutcome | src/App.tsx:26-42 | an automatic run with a successful fetch stays COMPLETED with no error. It sends once when configured, and the notification reports delivered, skipped or failed |
| App.FailedRunReportsError | src/App.tsx:45-47 | a failed run ends in ERROR with no data, one of the fetcher's two messages and a visible banner; without an API key no upstream request is made |
| App.TimerOverwritesFailedRun | src/App.tsx:24 | as written, a run without an API key shows the error banner, and after the timer fires the banner is gone and the button disabled |
| App.TimerKeepsSettledRun | src/App.tsx:24 | the corrected timer leaves the final state of any run unchanged and the button enabled |
| App.NoAutoRunAfterAnyRun | src/components/Scheduler.tsx:19 | as written, the status after any run is never IDLE again, so a whole polled day afterwards fires no automatic run |
| App.DailyRunAfterAnyRun | src/components/Scheduler.tsx:19 | with the trigger gated on no run being in flight, a polled day after any settled run fires exactly one automatic run |
| BriefingCard.ClassifyLine | src/components/BriefingCard.tsx:14-37 | a spacer line is all whitespace, a paragraph holds the line unchanged, and every other block's text is the line with leading characters removed |
| BriefingCard.H3IsNotH2 | src/components/BriefingCard.tsx:14-24 | a line starting with `### ` never starts with `## ` |
| BriefingCard.ClassifyHeaders | src/components/BriefingCard.tsx:14-25 | a line is an H2 iff it starts with `## ` and an H3 iff it starts with `### `; the text is the line minus exactly that prefix |
| BriefingCard.ClassifyBullet | src/components/BriefingCard.tsx:28-32 | a line is a bullet iff it is not a header and starts with `- ` or `* `; the text is the line minus exactly those two characters |
| BriefingCard.ClassifySpacerOrParagraph | src/components/BriefingCard.tsx:36-37 | a non-header, non-bullet line is a spacer iff it is all whitespace; otherwise it is a paragraph holding the line unchanged |
| BriefingCard.RenderMarkdown | src/components/BriefingCard.tsx:9-12 | one block per `'\n'`-separated line, in order, each the classification of its line |
| BriefingCard.RenderCoversEveryLine | src/components/BriefingCard.tsx:9-12 | there are newlines-plus-one blocks, and their lines join back into the summary |
| BriefingCard.SourcesFooter | src/components/BriefingCard.tsx:68-83 | the footer appears iff there are sources, with one link (uri, title) per source in order |
| BriefingCard.FooterShownIffUsableChunk | src/components/BriefingCard.tsx:68 | for a fetched briefing, the footer appears iff the response cited at least one chunk with a web uri and title |

## Findings

| source | as written | input that shows it | evidently intended | confidence | as-written member | corrected member |
|---|---|---|---|---|---|---|
| src/App.tsx:24 | the 2.5 s timer sets SUMMARIZING unconditionally, even after the run has settled | a run with the API key unset: the fetch rejects at once and the state is ERROR; 2.5 s later the status is SUMMARIZING, so the banner is hidden and the button stays disabled with nothing in flight | the timer only advances a run that is still FETCHING | not executed; high | App.TimerOverwritesFailedRun | App.TimerKeepsSettledRun |
| src/components/Scheduler.tsx:19 | the 08:00 trigger requires status IDLE, but no transition ever returns the status to IDLE | a page left open after any run, manual or automatic: status is COMPLETED or ERROR at every later 08:00, so the daily run never fires again | the trigger fires at 08:00 whenever no run is in flight (status neither FETCHING nor SUMMARIZING), as the midnight reset of the guard implies | not executed; medium | App.NoAutoRunAfterAnyRun | App.DailyRunAfterAnyRun |

For the first row, a fast successful fetch hits the same race: COMPLETED is
overwritten and the results are hidden. The corrected `App.SummarizingTimer` is a progress hint
only, and `App.TimerKeepsSettledRun` proves that it never changes a settled
state. For the trigger, the source's gate is `Scheduler.IdleOnly` and the
corrected gate is `Scheduler.NotProcessing`. The day-level lemmas are stated
for any gate. The source's behaviour is their instance with `IdleOnly`.
`App.DailyRunAfterAnyRun` takes the run's final state without the as-written
timer. With that timer, a fast-failing run left in SUMMARIZING would block
the corrected gate too, so the second correction relies on the first.

## Left out

- Markup, styling and layout: the navbar, toast markup, ticker, welcome
  state and the card header's date formatting. Only the two display guards
  and the block/link structure are modelled.
- The completion SDK call, the email SDK call and the prompt text. They are
  foreign network calls, so they become outcome parameters.
- Real timer scheduling, async interleaving and races between overlapping
  runs. These are concurrency. The SUMMARIZING timer is an explicit event.
  The effect re-running when `status` changes is covered by accepting any
  chronological sequence of ticks.
- `Date`, locale formatting, time zones and daylight saving time are library
  behaviour. Time of day is an integer in milliseconds, and date strings are
  opaque parameters.
- Scheduler.CountdownAt: gives the hour and minute integers, not the
  formatted `"Xh Ym"` string. It reads the tick time and the target from the
  same instant, although the source calls `new Date()` twice.
- Email.BuildParams: reads the locale date once for both the subject and
  the `date` field. The source calls `new Date()` twice, so across midnight
  the two may name different days.
- Gemini.UsableSources: chunk fields are modelled as optional strings only.
  JavaScript truthiness of other value types is not modelled, and neither is
  a null chunk, whose `chunk.web` would throw inside the collapsed `try`.
- Gemini.FetchDailyBriefing: the client constructor runs outside the `try`.
  The model assumes it does not throw.
- Strings are Dafny sequences of Unicode scalar values, while JavaScript
  strings are UTF-16 code units. Nothing here depends on the difference: the
  prefixes are ASCII, the split is on `'\n'`, and the whitespace set lies in
  the Basic Multilingual Plane.
- Console logging, the mechanics of the environment lookup (the values are
  optional strings), and `PRIORITY_SOURCES` are display data.
- `EmailComposer` is not part of this model. It is imported but its source
  is absent.
