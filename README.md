# SourceSpace — a verified model of the view logic and the API's pure logic

SourceSpace is a sci-fi themed productivity app. A React single-page front
end (`frontend/src/App.js`) lets a user pick a "source" theme, enter a
portal, keep a journal, tick off daily habits and ask for AI-written
insights. A FastAPI back end (`backend/server.py`) stores these in MongoDB
and builds the prompts it sends to Gemini.

It covers:

- `text.dfy` — module `Wrappers` (`Option`) and module `Text`:
  - JavaScript `trim` and Python `str.strip`, with their exact whitespace sets;
  - Python's `s[:n]`;
  - decimal rendering of integers in f-strings, with a round trip back to the number.
- `app.dfy` — module `App`, the front end:
  - the `THEMES` table and the theme lookup;
  - the `?source=` URL effect and the saved-user effect;
  - `renderPage`, the navigation bar and the "completed today" habit test;
  - class `SourceSpace` for the component's state: `currentPage`, `user`,
    `theme`, and the journal form's `title`, `content` and `mood`. Its
    methods are the event handlers. Each handler returns the request it
    would send to the API, or changes the state the way the handler does.
- `server.dfy` — module `Server`, the back end:
  - the list endpoints: owner filter, newest-first order, a limit;
  - the insight prompt builder and the system context;
  - decoding of the Gemini reply into the insight text or a fallback message;
  - the `generate_insight` handler, including its catch-all `500`;
  - the dashboard statistics.

The newest-first queries (`find(...).sort(date, -1).limit(n)`) are modelled
by a selection loop, `Server.FindNewest`. It is proved to return a sub-bag
of the user's documents, sorted by date descending, of length
`min(n, owned)`, with no omitted document newer than a returned one. Ties
between equal dates may come out in any order, as in MongoDB.

## Model

| member | source | states |
|---|---|---|
| App.ThemeKeysAreThemes | frontend/src/App.js:7-41 | the theme table has exactly the keys `novaverse`, `echoverse` and `logiverse` |
| App.CurrentTheme | frontend/src/App.js:221 | the lookup `THEMES[theme]` yields a theme exactly when `theme` is one of the three keys, and then yields that key's entry |
| App.SourceParam | frontend/src/App.js:57 | a missing or empty `source` parameter reads as the default theme `novaverse`; any other value is taken as given |
| App.ThemeFromUrlAsWritten | frontend/src/App.js:55-61 | the URL effect as written adopts any name every JavaScript object inherits, and the theme lookup then finds nothing; for every other `source` value it agrees with the corrected effect |
| App.PrototypeNamePassesThemeCheck | frontend/src/App.js:59 | with `?source=toString` the written check adopts `toString` as the theme, and the theme lookup then finds nothing |
| App.ThemeFromUrl | frontend/src/App.js:55-61 | the corrected URL effect: a missing or empty parameter selects `novaverse`, a theme key is adopted, and any other value keeps the current theme; the result is always a key when the current theme is |
| App.ThemeFromUrlAgreesOffPrototypeNames | frontend/src/App.js:59-60 | the written and corrected effects choose the same theme for every `source` value that is not a name inherited by all JavaScript objects |
| App.RenderPage | frontend/src/App.js:535-552 | without a user every page renders the portal; with a user, `journal`, `insights` and `portal` render their page and every other name renders the dashboard |
| App.ReachableStatesRenderOwnPage | frontend/src/App.js:535-552 | in every state the view can reach, the rendered page is the one named by `currentPage` |
| App.Navigation | frontend/src/App.js:501-532 | no navigation bar on the portal; otherwise the buttons dashboard, journal, insights in that order, each highlighted exactly when its id is the current page |
| App.NavigationHighlightsAtMostOne | frontend/src/App.js:518-522 | no two navigation buttons are highlighted at once |
| App.NavigationAgreesWithRenderedPage | frontend/src/App.js:514-522 | once a user exists, clicking button `k` renders the page that button names, and then highlights that button |
| App.CompletedToday | frontend/src/App.js:399-403 | a habit shows as done exactly when some record has its name, is completed and has today's date |
| App.SourceSpace.constructor | frontend/src/App.js:43-46 | the initial state: portal page, no user, theme `novaverse`, and an empty journal form with mood 5 |
| App.SourceSpace.ApplyUrlSource | frontend/src/App.js:55-61 | the URL effect sets the theme to the corrected choice and leaves everything else unchanged |
| App.SourceSpace.RestoreSavedUser | frontend/src/App.js:210-219 | a saved user becomes the user and their source the theme, and the page becomes the dashboard; with nothing saved the state does not change |
| App.SourceSpace.Mount | frontend/src/App.js:55-219 | on mount the URL effect runs first and the saved-user effect second, so a saved user's source wins over the URL; the page becomes the dashboard exactly when a user was saved, and the journal form is untouched |
| App.SourceSpace.SubmitPortalName | frontend/src/App.js:89-111 | the button exists only on the portal, and a blank name sends nothing; otherwise it sends the trimmed name with the current theme, and only an issued id sets the user and opens the dashboard |
| App.SourceSpace.SetTitle | frontend/src/App.js:295 | typing replaces the title and changes nothing else |
| App.SourceSpace.SetContent | frontend/src/App.js:302 | typing replaces the content and changes nothing else |
| App.SourceSpace.SetMood | frontend/src/App.js:309-316 | the slider sets the mood within 1 to 10 and changes nothing else |
| App.SourceSpace.JournalEntryRequest | frontend/src/App.js:131-141 | no request without a user; with one, a journal request carrying the user id, title, content and mood |
| App.SourceSpace.SubmitJournal | frontend/src/App.js:273-281 | the form exists only on the journal page; it submits only when both trimmed title and content are non-empty, sends the trimmed text, and then resets the form to empty with mood 5 |
| App.SourceSpace.HabitClick | frontend/src/App.js:398-408 | clicking a habit sends a completion request exactly when the dashboard renders, there is a user and the habit is not yet done today |
| App.SourceSpace.InsightClick | frontend/src/App.js:179-189 | asking for an insight sends the user id and the type, and only while the insights page renders for a user |
| App.SourceSpace.ClickNavItem | frontend/src/App.js:514-517 | a navigation click sets the page to that button's id; on the portal there are no buttons and nothing changes |
| App.SourceSpace.ClickQuickAction | frontend/src/App.js:423-436 | the dashboard's quick actions open the journal or the insights page; they exist only while the dashboard renders |
| App.RestoredUnknownSourceHasNoTheme | frontend/src/App.js:210-221 | for every saved source that is not a theme key, restoring that user makes the theme lookup find nothing |
| Text.DropLeadingCutsSpace | backend/server.py:113 | removing leading whitespace keeps a suffix, cuts off only whitespace, and stops at the first character that is not whitespace |
| Text.DropTrailingCutsSpace | backend/server.py:113 | removing trailing whitespace keeps a prefix, cuts off only whitespace, and stops at the last character that is not whitespace |
| Text.StripSlice | backend/server.py:113 | stripping keeps a middle slice of the string that neither starts nor ends with whitespace; all that is cut off is whitespace |
| Text.DroppedEmptyIff | frontend/src/App.js:275 | cutting whitespace from both ends leaves nothing exactly when the string is all whitespace |
| Text.Strip | backend/server.py:113 | stripping never lengthens the string, is empty exactly when the string is all whitespace, and otherwise neither starts nor ends with whitespace |
| Text.JsTrim | frontend/src/App.js:255 | `name.trim()` is empty exactly when the name is all JavaScript whitespace, and otherwise neither starts nor ends with such whitespace |
| Text.PyStrip | backend/server.py:113 | `content.strip()` is empty exactly when the text is all Python whitespace, and otherwise neither starts nor ends with such whitespace |
| Text.Take | backend/server.py:218 | `s[:n]` has at most `n` characters, is a prefix of `s`, is all of `s` when that is short enough, and exactly `n` characters otherwise |
| Text.NatToString | backend/server.py:222 | a natural renders as a non-empty string of decimal digits with no leading zero, `0` being the only numeral that starts with `0` |
| Text.NatToStringRoundTrip | backend/server.py:222 | reading the rendered digits back gives the number |
| Text.LeadingDigitPositive | backend/server.py:222 | digits that do not start with `0` denote a positive number |
| Text.DecimalNumeralUnique | backend/server.py:222 | a digit string with no leading zero that denotes `n` is exactly the rendering of `n` |
| Text.IntToString | backend/server.py:218 | the rendering starts with `-` exactly for a negative integer, followed by the digits of its magnitude |
| Text.IntToStringInjective | backend/server.py:218 | different moods render as different text |
| Server.Filter | backend/server.py:276-300 | a filter keeps only documents that match and are in the collection, and as a bag it is exactly the matching documents |
| Server.OwnedBy | backend/server.py:163-164 | the `{"user_id": user_id}` filter keeps exactly the user's documents |
| Server.IndexOfNewest | backend/server.py:165 | the position of a document whose date is at least every other date |
| Server.SelectionDone | backend/server.py:163-165 | once the selection reaches the limit or runs out of documents, what it took is the newest-first answer of the query |
| Server.FindNewest | backend/server.py:163-165 | the query returns the user's documents newest first, `min(limit, owned)` of them, and none left out is newer than one returned |
| Server.GetJournalEntries | backend/server.py:160-169 | the journal list: the user's entries newest first, ten unless asked otherwise |
| Server.GetHabits | backend/server.py:181-190 | the habit list: the user's habit records newest first, at most fifty |
| Server.GetInsights | backend/server.py:259-268 | the insight list: the user's insights newest by generation time first, five unless asked otherwise |
| Server.CompletedHabits | backend/server.py:221 | the comprehension keeps exactly the completed habits among the given ones |
| Server.CompletedCountBounded | backend/server.py:221-222 | the completed count is at most the habit count, and equals it exactly when every habit is completed |
| Server.AllCompletedKept | backend/server.py:221 | when every habit is completed, the comprehension keeps them all |
| Server.BuildPrompt | backend/server.py:211-232 | the context loop builds exactly the prompt the specification function defines |
| Server.LinesAppend | backend/server.py:217-218 | the lines for two runs of entries are the lines of the first followed by those of the second |
| Server.EntryLineInPlace | backend/server.py:217-218 | the `i`-th entry's line appears in the context where the lines before it end |
| Server.EntryLine | backend/server.py:218 | an entry line quotes the title and a prefix of the content: all of it when it has at most 100 characters, exactly the first 100 otherwise; then `...` and the mood out of 10 |
| Server.HabitSummary | backend/server.py:221-222 | the habit line gives the number of completed habits and the number of habits, each as its decimal numeral without leading zeros |
| Server.ActivityContext | backend/server.py:213-222 | the context is the activity header, then the entries heading and their lines when there are entries, then the habit summary when there are habits, and nothing else |
| Server.InsightPrompt | backend/server.py:211-232 | with no recent activity the prompt is the fixed "new journey" prompt for the requested type; otherwise it is the activity context followed by the story suffix for type `story` and the analysis suffix for every other type, and nothing else |
| Server.SystemContext | backend/server.py:72-79 | the storyteller context exactly for type `story`, the mentor context for every other type |
| Server.FullPrompt | backend/server.py:81 | the text sent to the model is the system context, then the blank line and `User context: `, then the user prompt, and nothing else |
| Server.PyContains | backend/server.py:111 | Python's `in` raises on null, booleans and numbers, looks up a key in an object and an element in a list |
| Server.PyLen | backend/server.py:111 | Python's `len` raises on null, booleans and numbers, and gives 0 exactly for an empty object, list or string |
| Server.Field | backend/server.py:112 | indexing by a key succeeds exactly on an object holding that key, and gives its value |
| Server.First | backend/server.py:112 | indexing by 0 succeeds exactly on a non-empty list or string, and on a list gives its first element |
| Server.CandidateText | backend/server.py:112 | the text is found only when `candidates` is a non-empty list whose first element has a `content` object holding `parts` |
| Server.DecodeReply | backend/server.py:107-123 | a failed call, a non-200 status or a body that is not JSON gives the interference message; in a 200 reply, a body on which `"candidates" in result` raises gives interference, one where it is false gives the processing message, a body that is not an object but passes the `in` test gives interference, and an empty `candidates` gives processing; a non-empty `candidates` gives the stripped text of the first candidate's first part when it exists and interference otherwise |
| Server.GeminiBodyReads | backend/server.py:110-112 | in a reply body whose first candidate's first part holds a text, whatever other fields, candidates and parts it carries, every step of the lookup succeeds and yields that text |
| Server.DecodeWellFormedReply | backend/server.py:109-113 | a 200 reply whose first candidate's first part holds a text returns that text stripped, whatever other fields, candidates and parts the reply carries |
| Server.DecodeTypicalReply | backend/server.py:109-113 | a reply shaped as the Gemini API sends it, with `role`, `finishReason`, `usageMetadata` and `modelVersion`, returns its text stripped |
| Server.DecodeWithoutCandidates | backend/server.py:109-115 | a 200 reply with no `candidates` key, or with an empty list, object or string under it, gives the "processing" message |
| Server.DecodeListBody | backend/server.py:111-123 | a 200 list body holding the string `"candidates"` passes the `in` test, raises on `result["candidates"]`, and the catch-all answers with the interference message |
| Server.DecodeMalformedCandidate | backend/server.py:111-123 | a 200 reply whose candidate list holds `null` raises on `[0]["content"]`, and the catch-all answers with the interference message |
| Server.InsightTypeOf | backend/server.py:197 | the insight type defaults to `story` when the request has no `type` |
| Server.CatchAll | backend/server.py:256-257 | every error raised in the handler, the `400` included, leaves it as a `500` |
| Server.GenerateInsight | backend/server.py:192-257 | a missing or empty user id gives a 500; otherwise the prompt is built from the 3 newest entries and 5 newest habits, and the insight stores the decoded reply, the type and the time |
| Server.FilterNarrower | backend/server.py:276-300 | a narrower filter keeps no more documents |
| Server.MoodSum | backend/server.py:285-289 | the summed mood of entries whose moods are all in 1 to 10 lies between 1 and 10 times their count |
| Server.Mean | backend/server.py:285-289 | `$avg` with a fallback: the fallback for no documents, otherwise the value whose product with the count is the sum |
| Server.Dashboard | backend/server.py:270-313 | the counts are the user's entries, their entries of the last thirty days, their habit records of the last thirty days and the completed ones among those; the streak equals the recent count; the mood is the mean of the recent moods, 5.0 without recent entries; the rate is the completed share in percent, 0 without habit records, between 0 and 100, and 100 when all are completed |
| Server.CompletionRate | backend/server.py:303 | with habit records, the rate times the record count is 100 times the completed count; it is 0 without habit records, never negative, at most 100 when no more habits are completed than exist, and exactly 100 when all are completed |
| Server.RateBounds | backend/server.py:303 | with at least one habit the percentage is never negative, at most 100 when completed habits do not outnumber habits, and 100 when they are equal |
| Server.AverageMoodInRange | backend/server.py:283-289 | when every mood among the user's entries of the last thirty days is in 1 to 10, the average mood is too |
| Server.MoodMeanInRange | backend/server.py:285-289 | the mean mood of entries whose moods are all in 1 to 10 lies in 1 to 10, and so does the 5.0 used when there are none |
| Server.MeanBounds | backend/server.py:285-289 | a mean of a sum lying between `lo` and `hi` times the count lies between `lo` and `hi` |

## Left out

- I/O is not modelled: `fetch`, `localStorage`, `alert`, `console` and speech synthesis. A handler returns the request it would send, and the API's answer comes in as a parameter.
- The layout is left out: JSX markup, CSS classes, colours and emoji are not checked beyond the theme table and the navigation items.
- The `loading` flag, the `disabled` attribute it drives, and the order in which asynchronous calls finish are not modelled.
- `loadUserData` is left out. So are the `journalEntries`, `habits`, `dashboardData` and `aiInsight` state it fills, and the heading chosen for a shown insight.
- The saved user is taken as already parsed. What `JSON.parse` does with a malformed string is not modelled.
- App.SourceSpace.SetMood: the slider passes a string that `parseInt` later converts; the model takes the mood as an integer from 1 to 10.
- The nested page components are redefined on every render of `SourceSpace`, so React remounts them. The model keeps the journal form in `SourceSpace` and does not capture that reset.
- MongoDB, motor, aiohttp, FastAPI routing, CORS and uvicorn are not modelled. Collections are sequences, and a query is the owner filter plus the newest-first selection.
- Ids, clocks and the model's reply are parameters: `uuid4`, `datetime.utcnow()`, `new Date()` and the Gemini HTTP response.
- Dates are integers, in seconds for the back end. The front end's `toDateString` comparison is a `today` day number.
- Server.Dashboard: `round(x, 1)` is not modelled, and the average and the rate are exact reals. The `$avg` of the integer moods, a double in MongoDB, is modelled as their exact mean.
- Server.GetJournalEntries: the limit is a natural. MongoDB's meaning of `limit(0)` (no limit) and of a negative limit are not modelled.
- Server.GetInsights: the limit is a natural, for the same reason.
- Server.GenerateInsight: the `detail` text of `HTTPException` is not modelled, only the status.
- Server.GenerateInsight: falsy non-string user ids such as `0`, `false`, `[]` and `{}` are modelled as a missing id, and non-string `type` values are not modelled.
- JSON numbers in the Gemini reply are integers only; floating-point values are not modelled.
- A database exception inside an endpoint would become a `500`; this is not modelled.
- `health_check`, `get_user` and the three insert endpoints (`create_user`, `create_journal_entry`, `create_habit_entry`) only store or fetch one document, and are not modelled.
- The Gemini request fields other than the prompt text are not modelled: the URL, the API key and the generation settings.
- `backend_test.py` is not part of this model.

## Findings

| source | as written | input that shows it | evidently intended | confidence | as-written member | corrected member |
|---|---|---|---|---|---|---|
| frontend/src/App.js:59 | `if (THEMES[source])` tests a property read. The check therefore passes for names every object inherits, and `THEMES[theme].colors` at line 221 onwards then reads from a function or `undefined`, so rendering throws | `?source=toString` (see App.PrototypeNamePassesThemeCheck) | only the three keys of `THEMES` select a theme | high, not executed | App.ThemeFromUrlAsWritten | App.ThemeFromUrl |
