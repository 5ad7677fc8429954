# PoochPulse core, modelled in Dafny

PoochPulse is a React app for dog owners. The owner photographs the dog's stool and an AI
model scores it on the Purina 1–7 faecal scale. The app keeps the reports per dog, shows them
in a calendar and a trend chart, and classifies each score. This project models the logic
under that markup and proves properties of it:

- **Records** (`Types`): the report and profile records and the analysis status.
- **Shared client part** (`ReportFields`): the API-key check and the two error messages the
  app reacts to. It also builds the returned record from the parsed JSON, defaulting each
  field on its own with JavaScript's `||`.
- **DeepSeek client** (`DeepSeekService`), the one the app imports:
  - the key precondition;
  - picking a vision model from the model list;
  - slicing and truncating the data-URI payload;
  - the response-shape check;
  - the three-step recovery chain: parse the content, else parse the greedy `{…}` span,
    else use a fixed default record;
  - remapping error messages.
- **Gemini client** (`GeminiService`): the key check, normalising the proxy base URL, the
  `"{}"` default for an empty reply, and its own error remapping.
- **Application state** (`App`, class `App.AppState`): the reports, the dogs, the active dog,
  the analysis status and whether a key is usable. Each handler is a method: prepend a
  report, delete by id, add, replace and select a dog, and drop the key for the messages
  that mean the key was refused. The list transforms behind the handlers are functions.
- **Profile form** (`DogSelector`, class `DogSelector.Selector`): submit rejects a blank name,
  merges into the dog being edited, or adds a new one; starting an edit fills in defaults;
  the avatar follows a fixed rule.
- **Calendar** (`Calendar`, class `Calendar.CalendarView`):
  - grouping reports by the date part of their time stamp, as a loop over a map;
  - the selected day's list and the day markers;
  - the zero-padded `YYYY-MM-DD` day key;
  - the month grid, and moving one month either way.
- **JavaScript dates** (`JsDate`): the calendar's days-in-month and week-day arithmetic
  rests on ECMAScript's date semantics. The model follows ECMA-262, section 21.4.1
  (`DayFromYear`, `MakeDay`, `WeekDay`) and section 21.4.2.1, including how the `Date`
  constructor reads years 0..99 as 1900..1999.
- **Score classification and the trend series** (`ReportDetail`, `DailySummary`,
  `HistoryChart`).
- **JavaScript string operations** (`Text`): the ones the code calls, over `seq<char>`. The
  first and last index of a character are helpers standing for the scan of the brace regex,
  and `Join` serves only the round trip of `split`.

The network, the Google GenAI SDK and `JSON.parse` are not modelled. Each client receives
them as a `Host` value holding:

- the environment key;
- the HTTP replies (as functions of the request the client builds);
- the parser (a function from text to `Result`, whose error carries the `SyntaxError`
  message);
- the id and time stamp taken from the clock.

Scores are `real`, so range checks such as `2 <= score <= 3` hold for scores like 2.5, as in
JavaScript. Values are immutable in Dafny: `slice()` before `reverse()` in the chart, and any
of the source's copies, need no counterpart.

Some behaviours of the code, stated as the model has them:

- **Brace extraction** is greedy: the recovered text runs from the first `{` to the last `}`.
- **Deleting a report** removes every report with that id.
- **`split(',')[1]`** is the text between the first and the second comma. For a base64 data
  URI, which has one comma, that is everything after the comma
  (`DeepSeekService.PayloadOfDataUri`, `GeminiService.PayloadNotTruncated`).
- **Parse results** are `Result`s, because the parse error's message is matched by substring
  when errors are remapped.

## Model

| member | source | states |
|---|---|---|
| Types.WithId | App.tsx:120 | a new profile is the draft's fields with the given id |
| Text.Trim | services/geminiService.ts:47-48 | `s.trim()`: leading white space is skipped, then trailing white space is cut; TrimIsSlice, TrimEmptyIffBlank and TrimIdempotent state what it returns |
| Text.TrimIsSlice | services/geminiService.ts:47-48 | `trim()` is a slice of its input; both ends of the result are non-space and everything cut away is white space |
| Text.TrimEmptyIffBlank | DogSelector.tsx:46 | `s.trim()` is empty exactly when `s` is empty or all white space |
| Text.TrimUnpadded | services/geminiService.ts:47-48 | a string that neither starts nor ends with white space is left unchanged by `trim()` |
| Text.TrimIdempotent | services/geminiService.ts:48 | trimming twice is trimming once |
| Text.Contains | deepseekService.ts:47 | `s.includes(sub)`: `sub` is a prefix of `s` or of one of its suffixes; ContainsIff ties it to occurrence at a position |
| Text.ContainsIff | deepseekService.ts:47 | `includes` holds exactly when the text occurs at some position |
| Text.IndexOf | deepseekService.ts:113 | the first index of the character, or none exactly when it does not occur |
| Text.LastIndexOf | deepseekService.ts:113 | the last index of the character, or none exactly when it does not occur |
| Text.Split | deepseekService.ts:57 | `split(c)` has at least one piece and no piece contains `c` |
| Text.SplitJoin | deepseekService.ts:57 | joining the pieces of `split(c)` with `c` gives back the string |
| Text.Field | deepseekService.ts:57 | `s.split(c)[k]`, with none for `undefined` when there are fewer than k+1 pieces; FirstField and SecondField state pieces 0 and 1 |
| Text.FirstField | CalendarView.tsx:31 | `split(c)[0]` is the text before the first `c`, or the whole string |
| Text.SecondField | deepseekService.ts:57 | `split(c)[1]` is undefined exactly when there is no `c`, else the text between the first and second `c` |
| Text.Take | deepseekService.ts:59 | `substring(0, n)` is a prefix of at most `n` characters, the whole string when it is short |
| Text.NatToString | CalendarView.tsx:75 | `String(n)` is a non-empty run of digits without a leading zero |
| Text.NatToStringValue | CalendarView.tsx:75 | the digits of `String(n)` spell `n` |
| Text.IntToString | CalendarView.tsx:75 | `String(n)`: the digits of `|n|`, after a minus sign when `n` is negative; IntToStringInjective states that it is one-to-one |
| Text.IntToStringInjective | CalendarView.tsx:75 | different integers print differently |
| Text.PadStart2 | CalendarView.tsx:75 | `padStart(2, '0')` keeps the text at the end and fills the front with zeros to width 2 |
| Text.TwoDigits | CalendarView.tsx:75 | a padded number below 100 is exactly two digits that spell it |
| ReportFields.KeyUsable | deepseekService.ts:6 | the key guard: a key is usable exactly when it is present, non-empty and not the text "undefined"; both AnalyzeStoolImage contracts use it |
| ReportFields.ScoreOr | deepseekService.ts:139 | a present non-zero score is kept; an absent score or 0 gives 0 |
| ReportFields.TextOr | deepseekService.ts:140-144 | a present non-empty text is kept; an absent or empty one gives the default |
| ReportFields.ListOr | deepseekService.ts:142 | a present list is kept, even an empty one; an absent list gives `[]` |
| ReportFields.Assemble | deepseekService.ts:134-145 | the record has the given id, time stamp, dog id and the image verbatim; each field is defaulted on its own; every text field is non-empty |
| ReportFields.EmptyObjectDefaults | services/geminiService.ts:87-92 | an object with no properties gives score 0, "未知" consistency and colour, no findings and the two advisory texts |
| ReportFields.WellFormedKept | deepseekService.ts:139-144 | a non-zero score and non-empty texts come through unchanged |
| DeepSeekService.IsVisionId | deepseekService.ts:46-48 | the `filter` test: the id contains "vl" or "vision" |
| DeepSeekService.FirstVisionIndex | deepseekService.ts:46-51 | the first position, in list order, of an id containing "vl" or "vision", or none when no id does |
| DeepSeekService.ChooseModel | deepseekService.ts:42-54 | `modelName`: "deepseek-chat" unless `list.data` is present and holds a vision id, then the first such id; ChooseModelSpec states this |
| DeepSeekService.ChooseModelSpec | deepseekService.ts:42-54 | the model is the first vision id in list order; with no vision id, or no `list.data`, it is "deepseek-chat" |
| DeepSeekService.ImagePayload | deepseekService.ts:57-59 | the payload is undefined exactly when the image has no comma, and is at most 10000 characters otherwise |
| DeepSeekService.PayloadOfDataUri | deepseekService.ts:57-59 | for `header,data` the payload is the first 10000 characters of `data` |
| DeepSeekService.SentRequest | deepseekService.ts:28-59 | the chat request, or the first error: a failed models fetch, a non-2xx models reply ("Failed to get models: " and its body), or an image without a comma; SentRequestShape states its content |
| DeepSeekService.SentRequestShape | deepseekService.ts:28-59 | a request is sent only after a successful model list; it carries the chosen model and a prefix, of at most 10000 characters, of the segment after the first comma |
| DeepSeekService.ExtractBraced | deepseekService.ts:113 | the match starts with `{` and ends with `}`; no `{` precedes it and no `}` follows it; there is a match exactly when some `{` comes before some `}` |
| DeepSeekService.ExtractFramed | deepseekService.ts:113 | with no `{` before an object and no `}` after it, the match is exactly that object |
| DeepSeekService.ExtractIsGreedy | deepseekService.ts:113 | the match runs across several objects to the last `}` |
| DeepSeekService.Recover | deepseekService.ts:105-132 | the parsed content; else the parsed greedy `{…}` span; else, with no span, the fallback record; a span that does not parse gives "Failed to extract JSON from response: " and the parse error; RecoverChain states all three outcomes |
| DeepSeekService.RecoverChain | deepseekService.ts:105-132 | direct parse if it works; else the default record when there is no `{…}` span; else the span's parse, or an error carrying its message; an error arises only from an unparseable span |
| DeepSeekService.RecoverFramedObject | deepseekService.ts:112-117 | an object wrapped in brace-free prose is recovered exactly |
| DeepSeekService.MentionsAuth | deepseekService.ts:147-151 | the catch test: the message contains "API key" or "authentication" |
| DeepSeekService.RemapError | deepseekService.ts:146-155 | messages mentioning "API key" or "authentication" become INVALID_KEY_ERROR; every other message is rethrown unchanged |
| DeepSeekService.Attempt | deepseekService.ts:10-145 | the `try` block: the request, a non-2xx chat reply as "DeepSeek API error: " and its body, an unparsable envelope as "Failed to parse API response: ", a missing content as "Invalid API response format: ", then recovery and the assembled record; AnalyzeStoolImage, RejectedKeyReported, MissingContentRejected and WellFormedResponse state its outcomes |
| DeepSeekService.AnalyzeStoolImage | deepseekService.ts:3-156 | a missing, empty or "undefined" key gives API_KEY_MISSING, never remapped; a success carries the dog id, the image, the id and the time stamp, with every text field set; any other failure is remapped |
| DeepSeekService.RejectedKeyReported | deepseekService.ts:80-84 | a non-2xx chat reply mentioning "authentication" reaches the caller as INVALID_KEY_ERROR |
| DeepSeekService.MissingContentRejected | deepseekService.ts:98-100 | a reply without `choices[0].message.content`, or with an empty one, is an "Invalid API response format" error |
| DeepSeekService.WellFormedResponse | deepseekService.ts:102-145 | a well-formed reply yields that object's values with the caller's dog id and image |
| GeminiService.StripTrailingSlash | services/geminiService.ts:48 | one trailing slash, if present, is removed; otherwise the text is unchanged |
| GeminiService.ProxyBase | services/geminiService.ts:46-49 | `baseUrl` is set exactly when the proxy is present and not blank; its value is StripTrailingSlash of the trimmed text, which drops one trailing slash when there is one |
| GeminiService.ProxyStripsOneSlash | services/geminiService.ts:48 | a doubled trailing slash leaves one slash behind |
| GeminiService.RejectsKey | services/geminiService.ts:95-100 | the catch test: the message contains "Requested entity was not found", "API key not found" or "API Key must be set" |
| GeminiService.ProxySlashOptional | services/geminiService.ts:46-49 | a proxy address written with or without its trailing slash gives the same base URL, the address itself |
| GeminiService.ResponseText | services/geminiService.ts:80 | the text parsed is the reply's text when non-empty, else "{}" |
| GeminiService.RemapError | services/geminiService.ts:94-103 | "Requested entity was not found", "API key not found" and "API Key must be set" become INVALID_KEY_ERROR; others are rethrown |
| GeminiService.Request | services/geminiService.ts:46-78 | the request: the proxy base, the model "gemini-3-flash-preview", the JPEG type and the image's text after its first comma, not truncated; PayloadNotTruncated states the payload |
| GeminiService.Attempt | services/geminiService.ts:44-93 | the `try` block: the SDK's reply or its error, the parse of ResponseText, then the assembled record; EmptyTextDefaults and KeyNotFoundReported state its outcomes |
| GeminiService.AnalyzeStoolImage | services/geminiService.ts:37-105 | the missing-key error comes before any request and is never remapped; a success carries the dog id, the image, the id and the time stamp, with every text field set; other failures are remapped |
| GeminiService.PayloadNotTruncated | services/geminiService.ts:69 | for `header,data` the inline data is all of `data`, untruncated |
| GeminiService.EmptyTextDefaults | services/geminiService.ts:80-93 | an absent or empty reply text gives the fully defaulted record |
| GeminiService.KeyNotFoundReported | services/geminiService.ts:94-102 | an SDK error mentioning "API key not found" reaches the caller as INVALID_KEY_ERROR |
| App.FirstDogIndex | App.tsx:42 | the first position whose id matches, or none when no id matches |
| App.ActiveDog | App.tsx:42 | the first profile with the active id; otherwise `dogs[0]`; none only for an empty list |
| App.FreshDogFoundLast | App.tsx:119-123 | a profile appended under a fresh id is the one found for that id |
| App.ActiveReports | App.tsx:43 | exactly the reports whose dog id matches, never more than the store holds |
| App.ActiveReportsAppend | App.tsx:43 | the projection distributes over concatenation, so store order is kept |
| App.PrependedReportIsActive | App.tsx:78-79 | a new report for the active dog heads that dog's list, before its older reports |
| App.PrependedReportElsewhere | App.tsx:79 | another dog's list is unchanged by the new report |
| App.WithoutReport | App.tsx:297 | exactly the reports with a different id remain |
| App.WithoutReportAppend | App.tsx:297 | deletion distributes over concatenation, so survivors keep their order |
| App.DeleteAbsentIsNoop | App.tsx:297 | deleting an id no report has changes nothing |
| App.AddThenDelete | App.tsx:79 | prepending a report with a fresh id and deleting that id restores the store |
| App.ReplaceDog | App.tsx:125-127 | same length; every profile with the id is replaced, every other profile kept in place |
| App.ReplaceKeepsActive | App.tsx:125-127 | ids keep their positions, and after editing the active dog the active dog is the edited profile |
| App.RevokesKey | App.tsx:86-91 | the failures that drop the key: exactly "API_KEY_MISSING", exactly "INVALID_KEY_ERROR", or a message containing "API Key must be set"; ProcessImageAnalysis and MissingKeyRevokes use it |
| App.MissingKeyRevokes | App.tsx:86-93 | a missing key always ends in the message that drops the key |
| App.AppState.constructor | App.tsx:23-37 | no reports, the initial dog active, IDLE, no key answer yet, the saved proxy or "" |
| App.AppState.Restore | App.tsx:53-59 | each saved value replaces the current one only when present; nothing else changes |
| App.AppState.CurrentDog | App.tsx:42 | with a non-empty dog list, the active dog is one of the dogs |
| App.AppState.CurrentReports | App.tsx:43 | exactly the store's reports for the active dog |
| App.AppState.ProcessImageAnalysis | App.tsx:75-97 | on success the report made for the current active dog is prepended, shown and heads the active list, with status SUCCESS; on failure the store is unchanged, with status ERROR, and the key is dropped exactly for API_KEY_MISSING, INVALID_KEY_ERROR or a message containing "API Key must be set" |
| App.AppState.ResetStatus | App.tsx:98 | the status returns to IDLE |
| App.AppState.AddDog | App.tsx:119-123 | the profile is appended after the unchanged earlier ones and becomes active; with a fresh id it is the current dog |
| App.AppState.UpdateDog | App.tsx:125-127 | the dog list is the replaced list; a non-empty list stays non-empty |
| App.AppState.DeleteReport | App.tsx:297 | the store is the store without that id |
| App.AppState.SelectDog | App.tsx:298 | the active id is the chosen one |
| App.AppState.KeyCheckAnswered | App.tsx:46-50 | the key state is the host's answer |
| App.AppState.KeySelected | App.tsx:69-73 | the key state becomes true |
| App.AppState.SetProxyUrl | App.tsx:267 | the proxy address is the typed text |
| DogSelector.TextOrEmpty | DogSelector.tsx:67-68 | a missing text becomes "" |
| DogSelector.FormOf | DogSelector.tsx:63-72 | the form copies the dog, with "" for a missing birth date or weight and "通用型" for an empty breed |
| DogSelector.DraftOf | DogSelector.tsx:54-58 | the new dog is the form's fields with the untrimmed name as avatar seed |
| DogSelector.Merged | DogSelector.tsx:48-53 | the edited dog keeps only its id; every form field overrides, with the name as seed |
| DogSelector.MergedIsDraftWithId | DogSelector.tsx:48-58 | editing differs from adding only by the id kept |
| DogSelector.AvatarUrl | DogSelector.tsx:75-80 | a non-empty custom avatar is used; otherwise the generated avatar URL for the seed |
| DogSelector.EditRoundTrip | DogSelector.tsx:63-73 | opening a complete dog for edit and saving it untouched gives the same dog |
| DogSelector.Selector.constructor | DogSelector.tsx:15-25 | the list view with the initial form |
| DogSelector.Selector.ResetForm | DogSelector.tsx:27-31 | a blank form with breed "通用型" and no avatar; the list view; nothing being edited |
| DogSelector.Selector.OpenAdd | DogSelector.tsx:123 | the form is shown |
| DogSelector.Selector.StartEdit | DogSelector.tsx:63-73 | the dog is being edited, with its form filled in, and the form is shown |
| DogSelector.Selector.EditFields | DogSelector.tsx:165-199 | the typed fields replace the form's, the avatar is kept |
| DogSelector.Selector.ChooseAvatar | DogSelector.tsx:37-39 | the form's avatar becomes the uploaded data URL |
| DogSelector.Selector.Submit | DogSelector.tsx:44-61 | a blank name changes nothing at all; otherwise the edited dog is updated from the form, or a new dog is added; then the form is reset |
| Calendar.DatePrefix | CalendarView.tsx:31 | the date part is a prefix without 'T', followed by 'T' when shorter than the time stamp |
| Calendar.DatePrefixIsFirstField | CalendarView.tsx:31 | the date part is the first piece of `split('T')` |
| Calendar.DatePrefixOfStamp | CalendarView.tsx:31 | a stamp `key + "T" + time` belongs to the day `key` |
| Calendar.ReportsOn | CalendarView.tsx:30-35 | exactly the reports whose date part is the key |
| Calendar.ReportsOnAppend | CalendarView.tsx:30-35 | grouping distributes over concatenation, so input order is kept within a group |
| Calendar.GroupStep | CalendarView.tsx:32-33 | one reduce step: the report joins the end of its day's group and the grouping invariant is kept |
| Calendar.GroupByDate | CalendarView.tsx:30-35 | every key is the date part of some report, and each group is exactly that day's reports in input order |
| Calendar.GroupSizesSum | CalendarView.tsx:30-35 | over distinct keys covering every report's day, the group sizes add up to the number of reports |
| Calendar.GroupingPartitions | CalendarView.tsx:30-35 | the groups of a grouping partition the reports: their sizes sum to the number of reports |
| Calendar.DayReports | CalendarView.tsx:37 | the selected day's group, or empty when no date is selected or it has no group |
| Calendar.DayReportsAreThatDay | CalendarView.tsx:37 | the day list is exactly that day's reports, in store order |
| Calendar.MarkerIffReport | CalendarView.tsx:76 | a day shows a marker exactly when some report was made that day |
| Calendar.DayKey | CalendarView.tsx:75 | a day key never contains 'T', so it never swallows a time part |
| Calendar.DayKeyLayout | CalendarView.tsx:75 | the key is the year, '-', two digits spelling month+1, '-', two digits spelling the day |
| Calendar.DayKeyInjective | CalendarView.tsx:75 | different days have different keys |
| Calendar.GridCells | CalendarView.tsx:27-28 | `offset` blanks followed by the days 1..n in order |
| Calendar.Grid | CalendarView.tsx:24-28 | 0..6 blanks, then exactly the Gregorian number of days in the month, numbered from 1 |
| Calendar.DotColor | CalendarView.tsx:138 | green exactly for score 2, amber otherwise |
| Calendar.DeleteRequest | CalendarView.tsx:128-131 | the report's id is passed on exactly when the user confirms |
| Calendar.MonthStepExact | CalendarView.tsx:19-20 | previous and next month move exactly one month, rolling the year at January and December |
| Calendar.TwoDigitYearJump | CalendarView.tsx:20 | from December of year 99 "next month" shows January 2000, not January 100 |
| Calendar.CalendarView.constructor | CalendarView.tsx:13-14 | today's month, with today's date part selected |
| Calendar.CalendarView.PrevMonth | CalendarView.tsx:19 | the shown month is one month back, year rolled over as the `Date` constructor does |
| Calendar.CalendarView.NextMonth | CalendarView.tsx:20 | the shown month is one month on, year rolled over as the `Date` constructor does |
| Calendar.CalendarView.SelectDay | CalendarView.tsx:83 | the selected date is the clicked day's key |
| Calendar.CalendarView.Cells | CalendarView.tsx:22-28 | the grid of the shown month: as many blanks as the week day of its 1st, then the cells numbered 1 to its last day |
| JsDate.DayFromYear | CalendarView.tsx:16-17 | the ECMA-262 day number of 1 January of a year, with floor division; YearLength states the gaps between consecutive years |
| JsDate.MakeDay | CalendarView.tsx:16-17 | the ECMA-262 day number of a year, month and date, months and dates out of range carrying over; MakeMonth, DaysInMonthGregorian and NextMonthStartsAfter state its behaviour |
| JsDate.DaysInMonth | CalendarView.tsx:16 | `new Date(year, month + 1, 0).getDate()`: the distance from the 1st to day 0 of the next month, plus one; DaysInMonthGregorian states that it is the Gregorian month length |
| JsDate.FirstWeekday | CalendarView.tsx:17 | `new Date(year, month, 1).getDay()`: the week day of the 1st; WeekDay bounds it and NextMonthStartsAfter relates consecutive months |
| JsDate.YearLength | CalendarView.tsx:16 | a year has 366 days exactly when it is a leap year, else 365 |
| JsDate.JsYear | CalendarView.tsx:19-20 | the constructor reads years 0..99 as 1900..1999 and any other year as itself |
| JsDate.MakeMonth | CalendarView.tsx:19-20 | an out-of-range month carries into the year: month in 0..11 and the month count preserved |
| JsDate.WeekDay | CalendarView.tsx:17 | the week day is in 0..6 |
| JsDate.DaysInMonthGregorian | CalendarView.tsx:16 | `new Date(y, m + 1, 0).getDate()` is the Gregorian length of the month, 28..31 |
| JsDate.FebruaryLength | CalendarView.tsx:16 | February has 29 days exactly in leap years |
| JsDate.NextMonthStartsAfter | CalendarView.tsx:16-17 | every month, December included, is followed by a month starting on the week day after its last day |
| JsDate.JanuaryStartsAfterDecember | CalendarView.tsx:16-17 | away from the years 0..99, January of the next year starts on the week day after December 31 |
| JsDate.NewYear2024 | CalendarView.tsx:17 | day 19723, 1 January 2024, was a Monday |
| ReportDetail.ScoreColor | components/ReportDetail.tsx:11-15 | green exactly for 2; red exactly for 1 or any score of at least 4; yellow for everything else, 0 and 3 included |
| ReportDetail.ScoreText | components/ReportDetail.tsx:17-22 | "Ideal" exactly for 2, "Good" for 3, "Constipated" for 1, "Loose/Diarrhea" for every other score |
| ReportDetail.BadgeAndText | components/ReportDetail.tsx:11-22 | the green badge goes with "Ideal" and only with it; a red badge reads constipated or loose; 0 is yellow and loose, 3 yellow and good |
| ReportDetail.ShownFindings | components/ReportDetail.tsx:68-77 | the findings section is rendered exactly for a non-empty list, in list order |
| DailySummary.IsHealthy | components/DailySummaryCard.tsx:13 | `isHealthy`: the score lies in the closed range [2, 3]; HealthyIsARange and HealthyNeverRed state properties of it |
| DailySummary.StatusLabel | components/DailySummaryCard.tsx:40 | "状态极佳" exactly when healthy (2 ≤ score ≤ 3), "建议关注" otherwise |
| DailySummary.CardScheme | components/DailySummaryCard.tsx:30-31 | the emerald scheme exactly when healthy, amber otherwise |
| DailySummary.HealthyIsARange | components/DailySummaryCard.tsx:13 | healthy is a range: 2.5 is healthy, 3.5 and 1.9 are not |
| DailySummary.DefaultedScoreNeedsAttention | components/DailySummaryCard.tsx:13 | the defaulted score 0 of an empty response is not healthy |
| DailySummary.FallbackRecordHealthy | components/DailySummaryCard.tsx:13 | the default record for an unreadable DeepSeek reply has score 3 and is called healthy |
| DailySummary.HealthyNeverRed | components/DailySummaryCard.tsx:13 | a healthy score never gets the red badge of the detail view |
| HistoryChart.PointOf | components/HistoryChart.tsx:21-23 | a point's score and full date are the report's score and date |
| HistoryChart.Series | components/HistoryChart.tsx:20-24 | as many points as reports, point i coming from `reports[n-1-i]` |
| HistoryChart.NewestPlottedLast | components/HistoryChart.tsx:20 | a report prepended to the newest-first store becomes the last point |
| HistoryChart.SeriesFromTheRight | components/HistoryChart.tsx:20 | point i counted from the right is report i |
| HistoryChart.BandIsHealthyRange | components/HistoryChart.tsx:39-48 | the shaded band [2, 3] is exactly the healthy range and lies inside the y-domain [1, 7] |

## Left out

- Network and SDK calls are not modelled (deepseekService.ts:28-38 and 62-86;
  services/geminiService.ts:51-78). The clients receive their outcomes as `Host` parameters.
  `JSON.parse` is an abstract parser, and a top-level `null` result is not modelled.
- The prompt texts, `console` logging and the Gemini response schema are left out.
- The DeepSeek client ignores its `proxyUrl` argument, so `App.AppState.ProcessImageAnalysis`
  ignores the proxy address too, as the app does.
- `localStorage` reads and writes (App.tsx:53-67) are left out. Restoring is modelled on
  already-parsed values, because `JSON.parse` of corrupt saved data throws outside any
  `try`. The write-back effect is not modelled.
- App.AppState.Restore: the list is non-empty afterwards only when the saved dog list is
  non-empty, because a saved `[]` empties it as in the source.
- `window.aistudio` (App.tsx:46-51 and 69-73) appears only as the answer it gives
  (`KeyCheckAnswered`, `KeySelected`).
- The 3-second `setTimeout` (App.tsx:98) is the separate step `ResetStatus`. Its timing and
  interleaving with other handlers are not modelled.
- `alert` and `confirm` dialogs are left out. The user's answer to `confirm` is the
  `confirmed` parameter of `Calendar.DeleteRequest`.
- JSX layout, CSS classes and recharts rendering are left out. The colours appear as the
  `Badge`, `Dot` and `Scheme` values.
- Locale formatting is a parameter: the chart labels (`toLocaleDateString`) come from
  `HistoryChart.Series`'s format function. The time labels (`toLocaleTimeString`) and the
  day heading `MM月DD日` are display text and are left out.
- `isToday` is left out (CalendarView.tsx:78): it compares a UTC date with a local day and
  depends on the time zone.
- The id and time stamp clocks (`Date.now()`, `toISOString()`) are parameters.
- The calendar's current date is held as its year and month. The day of the month set by
  `new Date()` plays no part.
- JsDate: the ECMAScript time-value range limit (±100,000,000 days), time zones and the
  invalid date are not modelled.
- `reportsByDate` is a Dafny `map`. JavaScript object-prototype keys such as
  `"constructor"` are not modelled.
- Scores are `real`, so `NaN`, infinities and floating-point rounding are left out.
- The dog's weight stays an opaque string.
- components/Camera.tsx and KnowledgeBase.tsx are not part of this model: they are browser
  media I/O and static content.
- Text: strings are `seq<char>`, one element per Unicode scalar value, while JavaScript's
  `length`, `substring(0, 10000)`, `trim` and `includes` count UTF-16 code units.
  The two agree on the base64 payloads, ids and ASCII messages the core handles; text with
  characters outside the Basic Multilingual Plane would be counted differently.
